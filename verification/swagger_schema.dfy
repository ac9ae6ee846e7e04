/** The Swagger 1.2 schema graph of lib/schema.js: one constant per `schemas.*`
    entry, built leaves first exactly as the file declares them (field order
    included), and the registry that names them. */
module SwaggerSchema {
  import opened Joi
  import JoiFacts

  /** `Joi.string()`: any string but "". */
  const PlainString: Schema := Text(false, None)
  /** `Joi.string().allow('')`: any string, "" included. */
  const StringOrEmpty: Schema := Text(true, None)

  /** The one supported specification version (lib/schema.js:3). */
  const SwaggerVersion: Schema := Text(false, Some(["1.2"]))

  const APIReferenceFields: seq<Field> := [
    Field("path", true, PlainString),
    Field("description", false, PlainString)
  ]
  const APIReference: Schema := Object(APIReferenceFields)

  const InfoFields: seq<Field> := [
    Field("title", true, PlainString),
    Field("description", true, PlainString),
    Field("termsOfServiceUrl", false, PlainString),
    Field("contact", false, PlainString),
    Field("license", false, PlainString),
    Field("licenseUrl", false, PlainString)
  ]
  const Info: Schema := Object(InfoFields)

  const ResourceListingFields: seq<Field> := [
    Field("swaggerVersion", true, SwaggerVersion),
    Field("apiVersion", false, PlainString),
    Field("basePath", false, PlainString),
    Field("apis", true, ArrayOf(APIReference)),
    Field("info", false, Info),
    Field("authorizations", false, Any)
  ]
  const ResourceListing: Schema := Object(ResourceListingFields)

  const ItemsFields: seq<Field> := [
    Field("type", false, PlainString),
    Field("$ref", false, PlainString)
  ]
  const Items: Schema := Object(ItemsFields)

  /** The shared `produces` and `consumes` rules: optional arrays of strings. */
  const Produces: Schema := ArrayOf(PlainString)
  const Consumes: Schema := ArrayOf(PlainString)

  const ParamTypes: seq<string> := ["path", "query", "body", "header", "form"]

  const ParameterFields: seq<Field> := [
    Field("paramType", true, Text(false, Some(ParamTypes))),
    Field("name", true, PlainString),
    Field("type", true, PlainString),
    Field("format", false, PlainString),
    Field("minimum", false, PlainString),
    Field("maximum", false, PlainString),
    Field("items", false, Items),
    Field("defaultValue", false, PlainString),
    Field("enum", false, ArrayOf(StringOrEmpty)),
    Field("description", false, PlainString),
    Field("required", false, Boolean),
    Field("allowMultiple", false, Boolean)
  ]
  const Parameter: Schema := Object(ParameterFields)

  const ResponseMessageFields: seq<Field> := [
    Field("code", true, Number),
    Field("message", true, PlainString),
    Field("responseModel", false, PlainString)
  ]
  const ResponseMessage: Schema := Object(ResponseMessageFields)

  const HttpMethods: seq<string> := ["GET", "HEAD", "POST", "PUT", "PATCH", "DELETE", "OPTIONS"]

  const OperationFields: seq<Field> := [
    Field("method", true, Text(false, Some(HttpMethods))),
    Field("summary", false, PlainString),
    Field("notes", false, StringOrEmpty),
    Field("nickname", true, PlainString),
    Field("authorizations", false, Any),
    Field("type", true, PlainString),
    Field("items", false, Items),
    Field("parameters", false, ArrayOf(Parameter)),
    Field("responseMessages", false, ArrayOf(ResponseMessage)),
    Field("produces", false, Produces),
    Field("consumes", false, Consumes),
    Field("deprecated", false, Boolean)
  ]
  const Operation: Schema := Object(OperationFields)

  const APIFields: seq<Field> := [
    Field("path", true, PlainString),
    Field("description", false, PlainString),
    Field("operations", false, ArrayOf(Operation))
  ]
  const API: Schema := Object(APIFields)

  const PropertyFields: seq<Field> := [
    Field("type", false, PlainString),
    Field("format", false, PlainString),
    Field("minimum", false, PlainString),
    Field("maximum", false, PlainString),
    Field("required", false, Boolean),
    Field("defaultValue", false, PlainString),
    Field("enum", false, ArrayOf(PlainString)),
    Field("$ref", false, PlainString),
    Field("items", false, Items),
    Field("description", false, PlainString)
  ]
  const Property: Schema := Object(PropertyFields)

  /** Every key names a property. */
  const Properties: Schema := MapOf(Property)

  const ModelFields: seq<Field> := [
    Field("type", false, PlainString),
    Field("id", true, PlainString),
    Field("description", false, PlainString),
    Field("required", false, ArrayOf(PlainString)),
    Field("properties", false, Properties),
    Field("subTypes", false, ArrayOf(PlainString)),
    Field("discriminator", false, PlainString)
  ]
  const Model: Schema := Object(ModelFields)

  /** Every key names a model. */
  const Models: Schema := MapOf(Model)

  const APIDeclarationFields: seq<Field> := [
    Field("swaggerVersion", true, SwaggerVersion),
    Field("apiVersion", false, PlainString),
    Field("basePath", false, PlainString),
    Field("resourcePath", false, PlainString),
    Field("apis", true, ArrayOf(API)),
    Field("models", false, Models),
    Field("produces", false, Produces),
    Field("consumes", false, Consumes),
    Field("authorizations", false, Any)
  ]
  const APIDeclaration: Schema := Object(APIDeclarationFields)

  /** The names under which the module exports its schemas. */
  const SchemaNames: seq<string> := [
    "APIReference", "Info", "ResourceListing", "Items", "Parameter", "ResponseMessage",
    "Operation", "API", "Property", "Properties", "Model", "Models", "APIDeclaration"
  ]

  /** The exported schemas, in the order of `SchemaNames`. */
  const Schemas: seq<Schema> := [
    APIReference, Info, ResourceListing, Items, Parameter, ResponseMessage,
    Operation, API, Property, Properties, Model, Models, APIDeclaration
  ]

  // Every schema of the graph declares each of its keys once, at every depth; the
  // lemmas follow the graph leaves first.

  lemma APIReferenceWellFormed() ensures DistinctNames(APIReferenceFields) && WellFormed(APIReference)
  {
    assert DistinctNames(APIReferenceFields);
  }

  lemma InfoWellFormed() ensures DistinctNames(InfoFields) && WellFormed(Info)
  {
    assert DistinctNames(InfoFields);
  }

  lemma ResourceListingWellFormed() ensures DistinctNames(ResourceListingFields) && WellFormed(ResourceListing)
  {
    APIReferenceWellFormed();
    InfoWellFormed();
    assert DistinctNames(ResourceListingFields);
  }

  lemma ItemsWellFormed() ensures DistinctNames(ItemsFields) && WellFormed(Items)
  {
    assert DistinctNames(ItemsFields);
  }

  lemma ParameterWellFormed() ensures DistinctNames(ParameterFields) && WellFormed(Parameter)
  {
    ItemsWellFormed();
    assert DistinctNames(ParameterFields);
  }

  lemma ResponseMessageWellFormed() ensures DistinctNames(ResponseMessageFields) && WellFormed(ResponseMessage)
  {
    assert DistinctNames(ResponseMessageFields);
  }

  lemma OperationWellFormed() ensures DistinctNames(OperationFields) && WellFormed(Operation)
  {
    ItemsWellFormed();
    ParameterWellFormed();
    ResponseMessageWellFormed();
    assert DistinctNames(OperationFields);
  }

  lemma APIWellFormed() ensures DistinctNames(APIFields) && WellFormed(API)
  {
    OperationWellFormed();
    assert DistinctNames(APIFields);
  }

  lemma PropertyWellFormed() ensures DistinctNames(PropertyFields) && WellFormed(Property) && WellFormed(Properties)
  {
    ItemsWellFormed();
    assert DistinctNames(PropertyFields);
  }

  lemma ModelWellFormed() ensures DistinctNames(ModelFields) && WellFormed(Model) && WellFormed(Models)
  {
    PropertyWellFormed();
    assert DistinctNames(ModelFields);
  }

  lemma APIDeclarationWellFormed() ensures DistinctNames(APIDeclarationFields) && WellFormed(APIDeclaration)
  {
    APIWellFormed();
    ModelWellFormed();
    assert DistinctNames(APIDeclarationFields);
  }

  /** No two exported schemas share a name. */
  lemma SchemaNamesDistinct()
    ensures forall i, j | 0 <= i < j < |SchemaNames| :: SchemaNames[i] != SchemaNames[j]
  {
  }

  /** The first position at or after `i` holding `name` among the exported names. */
  function NameIndex(name: string, i: nat): (r: Option<nat>)
    requires i <= |SchemaNames|
    ensures r.Some? ==> i <= r.value < |SchemaNames| && SchemaNames[r.value] == name
    ensures r.None? <==> forall j | i <= j < |SchemaNames| :: SchemaNames[j] != name
    decreases |SchemaNames| - i
  {
    if i == |SchemaNames| then None
    else if SchemaNames[i] == name then Some(i)
    else NameIndex(name, i + 1)
  }

  /** Every exported schema is well formed. */
  lemma ExportedWellFormed(i: nat)
    requires i < |Schemas|
    ensures WellFormed(Schemas[i])
  {
    if i == 0 { APIReferenceWellFormed(); }
    else if i == 1 { InfoWellFormed(); }
    else if i == 2 { ResourceListingWellFormed(); }
    else if i == 3 { ItemsWellFormed(); }
    else if i == 4 { ParameterWellFormed(); }
    else if i == 5 { ResponseMessageWellFormed(); }
    else if i == 6 { OperationWellFormed(); }
    else if i == 7 { APIWellFormed(); }
    else if i == 8 || i == 9 { PropertyWellFormed(); }
    else if i == 10 || i == 11 { ModelWellFormed(); }
    else { APIDeclarationWellFormed(); }
  }

  /** The exported schema of a given name; absent for any other name. */
  function Lookup(name: string): (r: Option<Schema>)
    ensures r.Some? <==> name in SchemaNames
    ensures r.Some? ==> WellFormed(r.value)
    ensures forall i | 0 <= i < |SchemaNames| && SchemaNames[i] == name :: r == Some(Schemas[i])
  {
    SchemaNamesDistinct();
    match NameIndex(name, 0)
    case None => None
    case Some(i) => ExportedWellFormed(i); Some(Schemas[i])
  }

  /** Validation of a document against a named schema: no answer for a name the
      module does not export, otherwise the complete violation list, which is empty
      exactly when the document is accepted. */
  ghost function Validate(strict: bool, name: string, doc: Value): (r: Option<seq<Violation>>)
    ensures r.Some? <==> name in SchemaNames
    ensures r.Some? ==> (r.value == [] <==> Valid(strict, Lookup(name).value, doc))
  {
    match Lookup(name)
    case None => None
    case Some(s) =>
      JoiFacts.ViolationsEmptyIffValid(strict, s, doc, []);
      Some(Violations(strict, s, doc, []))
  }
}
