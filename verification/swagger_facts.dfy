/** What the Swagger 1.2 schemas of lib/schema.js accept and reject, stated for every
    document and in both unknown-key modes (`strict`). Most facts are of the form
    "starting from an accepted document, changing this one member keeps it accepted
    exactly when ...", which pins the rule for that member down without fixing the
    rest of the document. */
module SwaggerFacts {
  import opened Joi
  import opened JoiFacts
  import opened SwaggerSchema

  /** A Resource Listing or API Declaration is accepted only with `swaggerVersion`
      present and exactly "1.2": any other value in its place, or its absence, is
      rejected. */
  lemma SwaggerVersionExact(strict: bool, s: Schema, members: map<string, Value>, x: Value)
    requires s == ResourceListing || s == APIDeclaration
    requires Valid(strict, s, Map(members))
    ensures "swaggerVersion" in members && members["swaggerVersion"] == Str("1.2")
    ensures Valid(strict, s, Map(members["swaggerVersion" := x])) <==> x == Str("1.2")
    ensures !Valid(strict, s, Map(members - {"swaggerVersion"}))
  {
    ResourceListingWellFormed();
    APIDeclarationWellFormed();
    FieldOf(strict, s.fields, members, 0);
    FieldReplaced(strict, s.fields, members, 0, x);
    FieldRemoved(strict, s.fields, members, 0);
  }

  /** `apis` is required in a Resource Listing, and holds API References. */
  lemma ResourceListingApisRequired(strict: bool, members: map<string, Value>)
    requires Valid(strict, ResourceListing, Map(members))
    ensures "apis" in members && Valid(strict, ArrayOf(APIReference), members["apis"])
    ensures !Valid(strict, ResourceListing, Map(members - {"apis"}))
  {
    ResourceListingWellFormed();
    FieldOf(strict, ResourceListingFields, members, 3);
    FieldRemoved(strict, ResourceListingFields, members, 3);
  }

  /** A Resource Listing's `apis` is accepted as any array, the empty one included,
      whose every element is an API Reference. */
  lemma ResourceListingApisElements(strict: bool, members: map<string, Value>, refs: seq<Value>)
    requires Valid(strict, ResourceListing, Map(members))
    ensures Valid(strict, ResourceListing, Map(members["apis" := Seq(refs)]))
        <==> forall i | 0 <= i < |refs| :: Valid(strict, APIReference, refs[i])
    ensures Valid(strict, ResourceListing, Map(members["apis" := Seq([])]))
  {
    ResourceListingWellFormed();
    ArrayFieldReplaced(strict, ResourceListingFields, members, 3, refs);
  }

  /** `apis` is required in an API Declaration, and holds APIs. */
  lemma APIDeclarationApisRequired(strict: bool, members: map<string, Value>)
    requires Valid(strict, APIDeclaration, Map(members))
    ensures "apis" in members && Valid(strict, ArrayOf(API), members["apis"])
    ensures !Valid(strict, APIDeclaration, Map(members - {"apis"}))
  {
    APIDeclarationWellFormed();
    FieldOf(strict, APIDeclarationFields, members, 4);
    FieldRemoved(strict, APIDeclarationFields, members, 4);
  }

  /** An API Declaration's `apis` is accepted as any array, the empty one included,
      whose every element is an API. */
  lemma APIDeclarationApisElements(strict: bool, members: map<string, Value>, apis: seq<Value>)
    requires Valid(strict, APIDeclaration, Map(members))
    ensures Valid(strict, APIDeclaration, Map(members["apis" := Seq(apis)]))
        <==> forall i | 0 <= i < |apis| :: Valid(strict, API, apis[i])
    ensures Valid(strict, APIDeclaration, Map(members["apis" := Seq([])]))
  {
    APIDeclarationWellFormed();
    ArrayFieldReplaced(strict, APIDeclarationFields, members, 4, apis);
  }

  /** An Operation's `method` is one of the seven upper-case HTTP method names and
      nothing else; in particular "get" is rejected. */
  lemma OperationMethod(strict: bool, members: map<string, Value>, x: Value)
    requires Valid(strict, Operation, Map(members))
    ensures Valid(strict, Operation, Map(members["method" := x])) <==> x.Str? && x.text in HttpMethods
    ensures !Valid(strict, Operation, Map(members["method" := Str("get")]))
  {
    OperationWellFormed();
    FieldReplaced(strict, OperationFields, members, 0, x);
    assert "get" !in HttpMethods;
    FieldReplaced(strict, OperationFields, members, 0, Str("get"));
  }

  /** `method` is required in an Operation. */
  lemma OperationMethodRequired(strict: bool, members: map<string, Value>)
    requires Valid(strict, Operation, Map(members))
    ensures "method" in members && !Valid(strict, Operation, Map(members - {"method"}))
  {
    OperationWellFormed();
    FieldRemoved(strict, OperationFields, members, 0);
  }

  /** `nickname` is required in an Operation. */
  lemma OperationNicknameRequired(strict: bool, members: map<string, Value>)
    requires Valid(strict, Operation, Map(members))
    ensures "nickname" in members && !Valid(strict, Operation, Map(members - {"nickname"}))
  {
    OperationWellFormed();
    FieldRemoved(strict, OperationFields, members, 3);
  }

  /** `type` is required in an Operation. */
  lemma OperationTypeRequired(strict: bool, members: map<string, Value>)
    requires Valid(strict, Operation, Map(members))
    ensures "type" in members && !Valid(strict, Operation, Map(members - {"type"}))
  {
    OperationWellFormed();
    FieldRemoved(strict, OperationFields, members, 5);
  }

  /** A Parameter's `paramType` is one of the five lower-case locations and nothing
      else; `required` is an optional boolean, so dropping it never rejects a
      parameter, a "path" parameter included. */
  lemma ParameterParamType(strict: bool, members: map<string, Value>, x: Value)
    requires Valid(strict, Parameter, Map(members))
    ensures "paramType" in members && !Valid(strict, Parameter, Map(members - {"paramType"}))
    ensures Valid(strict, Parameter, Map(members["paramType" := x])) <==> x.Str? && x.text in ParamTypes
    ensures Valid(strict, Parameter, Map(members - {"required"}))
    ensures Valid(strict, Parameter, Map(members["required" := x])) <==> x.Bool?
  {
    ParameterWellFormed();
    assert !Valid(strict, Parameter, Map(members - {"paramType"})) by {
      FieldRemoved(strict, ParameterFields, members, 0);
    }
    assert Valid(strict, Parameter, Map(members["paramType" := x])) <==> x.Str? && x.text in ParamTypes by {
      FieldReplaced(strict, ParameterFields, members, 0, x);
    }
    assert Valid(strict, Parameter, Map(members - {"required"})) by {
      FieldRemoved(strict, ParameterFields, members, 10);
    }
    assert Valid(strict, Parameter, Map(members["required" := x])) <==> x.Bool? by {
      FieldReplaced(strict, ParameterFields, members, 10, x);
    }
  }

  /** A "path" parameter holding only `paramType`, `name` and `type`, the last two
      non-empty strings, satisfies every declared field: the three it holds are
      accepted, and every other field is optional. */
  lemma PathParameterFields(strict: bool, members: map<string, Value>)
    requires members.Keys == {"paramType", "name", "type"} && members["paramType"] == Str("path")
    requires members["name"].Str? && members["name"].text != ""
    requires members["type"].Str? && members["type"].text != ""
    ensures forall i | 0 <= i < |ParameterFields| :: FieldAccepted(strict, ParameterFields[i], members)
  {
    forall i | 0 <= i < |ParameterFields|
      ensures FieldAccepted(strict, ParameterFields[i], members)
    {
      if i == 0 {
        assert members["paramType"].text == ParamTypes[0];
      } else if i >= 3 {
        assert !ParameterFields[i].required && ParameterFields[i].name !in members.Keys;
      }
    }
  }

  /** A "path" parameter holding only `paramType`, `name` and `type`, with no
      `required` field at all, is accepted. */
  lemma PathParameterWithoutRequired(strict: bool, members: map<string, Value>)
    requires members.Keys == {"paramType", "name", "type"} && members["paramType"] == Str("path")
    requires members["name"].Str? && members["name"].text != ""
    requires members["type"].Str? && members["type"].text != ""
    ensures "required" !in members && Valid(strict, Parameter, Map(members))
  {
    assert Valid(strict, Parameter, Map(members)) by {
      PathParameterFields(strict, members);
      ParameterKeysDeclared(members);
      ObjectAccepted(strict, ParameterFields, members);
    }
  }

  /** `paramType`, `name` and `type` are declared keys of a Parameter. */
  lemma ParameterKeysDeclared(members: map<string, Value>)
    requires members.Keys == {"paramType", "name", "type"}
    ensures forall k | k in members :: k in Names(ParameterFields)
  {
    assert Names(ParameterFields)[0] == "paramType";
    assert Names(ParameterFields)[1] == "name";
    assert Names(ParameterFields)[2] == "type";
  }

  /** An API Reference requires `path`. */
  lemma APIReferencePathRequired(strict: bool, members: map<string, Value>)
    requires Valid(strict, APIReference, Map(members))
    ensures "path" in members && !Valid(strict, APIReference, Map(members - {"path"}))
  {
    APIReferenceWellFormed();
    FieldRemoved(strict, APIReferenceFields, members, 0);
  }

  /** Info requires `title` and `description`; its other fields are optional. */
  lemma InfoRequiredFields(strict: bool, members: map<string, Value>)
    requires Valid(strict, Info, Map(members))
    ensures "title" in members && !Valid(strict, Info, Map(members - {"title"}))
    ensures "description" in members && !Valid(strict, Info, Map(members - {"description"}))
    ensures Valid(strict, Info, Map(members - {"contact"}))
  {
    InfoWellFormed();
    FieldRemoved(strict, InfoFields, members, 0);
    FieldRemoved(strict, InfoFields, members, 1);
    FieldRemoved(strict, InfoFields, members, 3);
  }

  /** A Response Message requires a numeric `code` and a `message`. */
  lemma ResponseMessageRequiredFields(strict: bool, members: map<string, Value>)
    requires Valid(strict, ResponseMessage, Map(members))
    ensures "code" in members && members["code"].Num? && !Valid(strict, ResponseMessage, Map(members - {"code"}))
    ensures "message" in members && !Valid(strict, ResponseMessage, Map(members - {"message"}))
  {
    ResponseMessageWellFormed();
    FieldOf(strict, ResponseMessageFields, members, 0);
    FieldRemoved(strict, ResponseMessageFields, members, 0);
    FieldRemoved(strict, ResponseMessageFields, members, 1);
  }

  /** A Model requires `id`; its `properties` are optional. */
  lemma ModelIdRequired(strict: bool, members: map<string, Value>)
    requires Valid(strict, Model, Map(members))
    ensures "id" in members && !Valid(strict, Model, Map(members - {"id"}))
    ensures Valid(strict, Model, Map(members - {"properties"}))
  {
    ModelWellFormed();
    FieldRemoved(strict, ModelFields, members, 1);
    FieldRemoved(strict, ModelFields, members, 4);
  }

  /** A ResponseMessage `code` must be a number: any other value is rejected. */
  lemma ResponseMessageCode(strict: bool, members: map<string, Value>, x: Value)
    requires Valid(strict, ResponseMessage, Map(members))
    ensures Valid(strict, ResponseMessage, Map(members["code" := x])) <==> x.Num?
  {
    ResponseMessageWellFormed();
    FieldReplaced(strict, ResponseMessageFields, members, 0, x);
  }

  /** Parameter `name` and `type`, and API `path`, are required. */
  lemma ParameterAndAPIRequiredFields(strict: bool, param: map<string, Value>, api: map<string, Value>)
    requires Valid(strict, Parameter, Map(param))
    requires Valid(strict, API, Map(api))
    ensures "name" in param && !Valid(strict, Parameter, Map(param - {"name"}))
    ensures "type" in param && !Valid(strict, Parameter, Map(param - {"type"}))
    ensures "path" in api && !Valid(strict, API, Map(api - {"path"}))
  {
    ParameterWellFormed();
    APIWellFormed();
    FieldRemoved(strict, ParameterFields, param, 1);
    FieldRemoved(strict, ParameterFields, param, 2);
    FieldRemoved(strict, APIFields, api, 0);
  }

  /** `models` is an open map: any key may be set to a value, and the map stays
      accepted exactly when that value is a Model; removing an entry keeps it
      accepted. */
  lemma ModelsOpenMap(strict: bool, members: map<string, Value>, k: string, x: Value)
    requires Valid(strict, Models, Map(members))
    ensures Valid(strict, Models, Map(members[k := x])) <==> Valid(strict, Model, x)
    ensures Valid(strict, Models, Map(members - {k}))
  {
    MapEntrySet(strict, Model, members, k, x);
    MapEntryRemoved(strict, Model, members, k);
  }

  /** `properties` is an open map of Property values, in the same way. */
  lemma PropertiesOpenMap(strict: bool, members: map<string, Value>, k: string, x: Value)
    requires Valid(strict, Properties, Map(members))
    ensures Valid(strict, Properties, Map(members[k := x])) <==> Valid(strict, Property, x)
    ensures Valid(strict, Properties, Map(members - {k}))
  {
    MapEntrySet(strict, Property, members, k, x);
    MapEntryRemoved(strict, Property, members, k);
  }

  /** Adding a valid Model under any key of an accepted declaration's `models` keeps
      the declaration accepted; so does removing one. */
  lemma DeclarationModelAdded(strict: bool, decl: map<string, Value>, models: map<string, Value>, k: string, x: Value)
    requires Valid(strict, APIDeclaration, Map(decl))
    requires "models" in decl && decl["models"] == Map(models)
    requires Valid(strict, Model, x)
    ensures Valid(strict, APIDeclaration, Map(decl["models" := Map(models[k := x])]))
    ensures Valid(strict, APIDeclaration, Map(decl["models" := Map(models - {k})]))
  {
    APIDeclarationWellFormed();
    FieldOf(strict, APIDeclarationFields, decl, 5);
    ModelsOpenMap(strict, models, k, x);
    FieldReplaced(strict, APIDeclarationFields, decl, 5, Map(models[k := x]));
    FieldReplaced(strict, APIDeclarationFields, decl, 5, Map(models - {k}));
  }

  /** `info` is optional as a whole but checked when present: an `info` without a
      `title` is rejected. */
  lemma ResourceListingInfo(strict: bool, members: map<string, Value>, x: Value)
    requires Valid(strict, ResourceListing, Map(members))
    ensures Valid(strict, ResourceListing, Map(members - {"info"}))
    ensures Valid(strict, ResourceListing, Map(members["info" := x])) <==> Valid(strict, Info, x)
    ensures x.Map? && "title" !in x.fields ==> !Valid(strict, ResourceListing, Map(members["info" := x]))
  {
    ResourceListingWellFormed();
    InfoWellFormed();
    FieldRemoved(strict, ResourceListingFields, members, 4);
    FieldReplaced(strict, ResourceListingFields, members, 4, x);
    if x.Map? && "title" !in x.fields {
      assert !FieldAccepted(strict, InfoFields[0], x.fields);
    }
  }

  /** `items`, `parameters` and `responseMessages` of an Operation are optional as a
      whole but checked when present. */
  lemma OperationSubObjects(strict: bool, members: map<string, Value>, x: Value)
    requires Valid(strict, Operation, Map(members))
    ensures Valid(strict, Operation, Map(members - {"items"}))
    ensures Valid(strict, Operation, Map(members - {"parameters"}))
    ensures Valid(strict, Operation, Map(members - {"responseMessages"}))
    ensures Valid(strict, Operation, Map(members["items" := x])) <==> Valid(strict, Items, x)
    ensures Valid(strict, Operation, Map(members["parameters" := x])) <==> Valid(strict, ArrayOf(Parameter), x)
    ensures Valid(strict, Operation, Map(members["responseMessages" := x])) <==> Valid(strict, ArrayOf(ResponseMessage), x)
  {
    OperationWellFormed();
    FieldRemoved(strict, OperationFields, members, 6);
    FieldRemoved(strict, OperationFields, members, 7);
    FieldRemoved(strict, OperationFields, members, 8);
    FieldReplaced(strict, OperationFields, members, 6, x);
    FieldReplaced(strict, OperationFields, members, 7, x);
    FieldReplaced(strict, OperationFields, members, 8, x);
  }

  /** A Parameter's `items` is optional as a whole but checked when present. */
  lemma ParameterItems(strict: bool, param: map<string, Value>, x: Value)
    requires Valid(strict, Parameter, Map(param))
    ensures Valid(strict, Parameter, Map(param - {"items"}))
    ensures Valid(strict, Parameter, Map(param["items" := x])) <==> Valid(strict, Items, x)
  {
    ParameterWellFormed();
    FieldRemoved(strict, ParameterFields, param, 6);
    FieldReplaced(strict, ParameterFields, param, 6, x);
  }

  /** Both keys of Items are optional, and `$ref`, when present, must be a non-empty string. */
  lemma ItemsOptionalRef(strict: bool, items: map<string, Value>, x: Value)
    requires Valid(strict, Items, Map(items))
    ensures Valid(strict, Items, Map(items - {"type"}))
    ensures Valid(strict, Items, Map(items - {"$ref"}))
    ensures Valid(strict, Items, Map(items["$ref" := x])) <==> x.Str? && x.text != ""
  {
    ItemsWellFormed();
    FieldRemoved(strict, ItemsFields, items, 0);
    FieldRemoved(strict, ItemsFields, items, 1);
    FieldReplaced(strict, ItemsFields, items, 1, x);
  }

  /** An API's `operations` is optional as a whole but checked when present. */
  lemma APIOperations(strict: bool, api: map<string, Value>, x: Value)
    requires Valid(strict, API, Map(api))
    ensures Valid(strict, API, Map(api - {"operations"}))
    ensures Valid(strict, API, Map(api["operations" := x])) <==> Valid(strict, ArrayOf(Operation), x)
  {
    APIWellFormed();
    FieldRemoved(strict, APIFields, api, 2);
    FieldReplaced(strict, APIFields, api, 2, x);
  }

  /** `produces` and `consumes`, on an Operation and on an API Declaration, are
      arrays of non-empty strings: setting either to an array keeps the document
      accepted exactly when every element is a non-empty string. */
  lemma MediaTypeLists(strict: bool, s: Schema, members: map<string, Value>, items: seq<Value>)
    requires s == Operation || s == APIDeclaration
    requires Valid(strict, s, Map(members))
    ensures Valid(strict, s, Map(members["produces" := Seq(items)]))
        <==> forall j | 0 <= j < |items| :: items[j].Str? && items[j].text != ""
    ensures Valid(strict, s, Map(members["consumes" := Seq(items)]))
        <==> forall j | 0 <= j < |items| :: items[j].Str? && items[j].text != ""
  {
    OperationWellFormed();
    APIDeclarationWellFormed();
    var i := if s == Operation then 9 else 6;
    ArrayFieldReplaced(strict, s.fields, members, i, items);
    ArrayFieldReplaced(strict, s.fields, members, i + 1, items);
  }

  /** A Model's `required` and `subTypes` are arrays of non-empty strings. */
  lemma ModelNameLists(strict: bool, members: map<string, Value>, items: seq<Value>)
    requires Valid(strict, Model, Map(members))
    ensures Valid(strict, Model, Map(members["required" := Seq(items)]))
        <==> forall j | 0 <= j < |items| :: items[j].Str? && items[j].text != ""
    ensures Valid(strict, Model, Map(members["subTypes" := Seq(items)]))
        <==> forall j | 0 <= j < |items| :: items[j].Str? && items[j].text != ""
  {
    ModelWellFormed();
    ArrayFieldReplaced(strict, ModelFields, members, 3, items);
    ArrayFieldReplaced(strict, ModelFields, members, 5, items);
  }

  /** A Parameter's `enum` takes any array of strings, the empty string included. */
  lemma ParameterEnumAllowsEmpty(strict: bool, param: map<string, Value>, items: seq<Value>)
    requires Valid(strict, Parameter, Map(param))
    ensures Valid(strict, Parameter, Map(param["enum" := Seq(items)]))
        <==> forall j | 0 <= j < |items| :: items[j].Str?
    ensures Valid(strict, Parameter, Map(param["enum" := Seq([Str("")])]))
  {
    ParameterWellFormed();
    assert Valid(strict, Parameter, Map(param["enum" := Seq(items)]))
        <==> forall j | 0 <= j < |items| :: items[j].Str? by {
      ArrayFieldReplaced(strict, ParameterFields, param, 8, items);
    }
    assert Valid(strict, Parameter, Map(param["enum" := Seq([Str("")])])) by {
      ArrayFieldReplaced(strict, ParameterFields, param, 8, [Str("")]);
    }
  }

  /** Unlike a Parameter's, a Property's `enum` takes only non-empty strings, so an
      array holding the empty string is rejected. */
  lemma PropertyEnumRejectsEmpty(strict: bool, prop: map<string, Value>, items: seq<Value>)
    requires Valid(strict, Property, Map(prop))
    ensures Valid(strict, Property, Map(prop["enum" := Seq(items)]))
        <==> forall j | 0 <= j < |items| :: items[j].Str? && items[j].text != ""
    ensures Str("") in items ==> !Valid(strict, Property, Map(prop["enum" := Seq(items)]))
    ensures !Valid(strict, Property, Map(prop["enum" := Seq([Str("")])]))
  {
    PropertyWellFormed();
    assert Valid(strict, Property, Map(prop["enum" := Seq(items)]))
        <==> forall j | 0 <= j < |items| :: items[j].Str? && items[j].text != "" by {
      ArrayFieldReplaced(strict, PropertyFields, prop, 6, items);
    }
    assert !Valid(strict, Property, Map(prop["enum" := Seq([Str("")])])) by {
      ArrayFieldReplaced(strict, PropertyFields, prop, 6, [Str("")]);
      assert [Str("")][0].text == "";
    }
  }

  /** Every key of a Property is optional: the empty object is a Property. */
  lemma PropertyAllOptional(strict: bool)
    ensures Valid(strict, Property, Map(map[]))
  {
    forall i | 0 <= i < |PropertyFields|
      ensures FieldAccepted(strict, PropertyFields[i], map[])
    {
    }
  }

  /** A Model's `properties` may be absent and, when present, is accepted iff it is
      a valid Properties map. */
  lemma ModelProperties(strict: bool, m: map<string, Value>, x: Value)
    requires Valid(strict, Model, Map(m))
    ensures Valid(strict, Model, Map(m - {"properties"}))
    ensures Valid(strict, Model, Map(m["properties" := x])) <==> Valid(strict, Properties, x)
  {
    ModelWellFormed();
    FieldRemoved(strict, ModelFields, m, 4);
    FieldReplaced(strict, ModelFields, m, 4, x);
  }

  /** An Operation accepts "" as `notes` but not as `summary`. */
  lemma OperationNotesEmpty(strict: bool, members: map<string, Value>)
    requires Valid(strict, Operation, Map(members))
    ensures Valid(strict, Operation, Map(members["notes" := Str("")]))
    ensures !Valid(strict, Operation, Map(members["summary" := Str("")]))
  {
    OperationWellFormed();
    FieldReplaced(strict, OperationFields, members, 2, Str(""));
    FieldReplaced(strict, OperationFields, members, 1, Str(""));
  }

  /** `authorizations` accepts every value, at each of its three sites. */
  lemma AuthorizationsAnyValue(strict: bool, s: Schema, members: map<string, Value>, x: Value)
    requires s == ResourceListing || s == Operation || s == APIDeclaration
    requires Valid(strict, s, Map(members))
    ensures Valid(strict, s, Map(members["authorizations" := x]))
  {
    ResourceListingWellFormed();
    OperationWellFormed();
    APIDeclarationWellFormed();
    var i := if s == ResourceListing then 5 else if s == Operation then 4 else 8;
    FieldReplaced(strict, s.fields, members, i, x);
  }

  /** An undeclared key such as "x-internal" is accepted on a Parameter exactly in
      permissive mode. */
  lemma ParameterExtensionKey(strict: bool, members: map<string, Value>, x: Value)
    requires Valid(strict, Parameter, Map(members))
    ensures Valid(strict, Parameter, Map(members["x-internal" := x])) <==> !strict
  {
    assert "x-internal" !in Names(ParameterFields) by {
      forall j | 0 <= j < |ParameterFields| ensures Names(ParameterFields)[j] != "x-internal" {
        assert ParameterFields[j].name[0] != 'x';
      }
    }
    UndeclaredKeyAdded(strict, ParameterFields, members, "x-internal", x);
  }

  // ---------------------------------------------------------------------------
  // Whole documents

  /** An `info` holding only a title and a description is accepted. */
  lemma MinimalInfo(strict: bool, title: string, description: string)
    requires title != "" && description != ""
    ensures Valid(strict, Info, Map(map["title" := Str(title), "description" := Str(description)]))
  {
    var info := map["title" := Str(title), "description" := Str(description)];
    assert Names(InfoFields)[0] == "title" && Names(InfoFields)[1] == "description";
    forall i | 0 <= i < |InfoFields| ensures FieldAccepted(strict, InfoFields[i], info) {
      if i >= 2 { assert InfoFields[i].name !in info; }
    }
  }

  /** A listing with an empty `apis` and a complete `info` is accepted. */
  lemma ListingWithInfo(strict: bool)
    ensures Valid(strict, ResourceListing, Map(map[
              "swaggerVersion" := Str("1.2"), "apis" := Seq([]),
              "info" := Map(map["title" := Str("x"), "description" := Str("y")])]))
  {
    var info := map["title" := Str("x"), "description" := Str("y")];
    var members := map["swaggerVersion" := Str("1.2"), "apis" := Seq([]), "info" := Map(info)];
    MinimalInfo(strict, "x", "y");
    forall i | 0 <= i < |ResourceListingFields|
      ensures FieldAccepted(strict, ResourceListingFields[i], members)
    {
      if i == 1 || i == 2 || i == 5 { assert ResourceListingFields[i].name !in members; }
    }
    assert forall k | k in members :: k in Names(ResourceListingFields) by {
      assert Names(ResourceListingFields)[0] == "swaggerVersion";
      assert Names(ResourceListingFields)[3] == "apis";
      assert Names(ResourceListingFields)[4] == "info";
    }
  }

  /** A listing with a single API Reference and no `info` at all is accepted. */
  lemma ListingWithoutInfo(strict: bool)
    ensures Valid(strict, ResourceListing, Map(map[
              "swaggerVersion" := Str("1.2"), "apis" := Seq([Map(map["path" := Str("/pets")])])]))
  {
    var ref := map["path" := Str("/pets")];
    var members := map["swaggerVersion" := Str("1.2"), "apis" := Seq([Map(ref)])];
    assert Valid(strict, APIReference, Map(ref)) by {
      assert Names(APIReferenceFields)[0] == "path";
      assert FieldAccepted(strict, APIReferenceFields[1], ref);
    }
    forall i | 0 <= i < |ResourceListingFields|
      ensures FieldAccepted(strict, ResourceListingFields[i], members)
    {
      if i != 0 && i != 3 { assert ResourceListingFields[i].name !in members; }
    }
    assert Names(ResourceListingFields)[0] == "swaggerVersion";
    assert Names(ResourceListingFields)[3] == "apis";
  }

  /** The declared fields of a Resource Listing, checked against members holding only
      `swaggerVersion`: the only field violation besides those of the version is the
      missing `apis`. */
  lemma ListingWithOnlyVersion(strict: bool, version: Value)
    ensures FieldViolations(strict, ResourceListing, 0, map["swaggerVersion" := version], [])
         == Violations(strict, SwaggerVersion, version, [Key("swaggerVersion")]) + [Violation([Key("apis")], Missing)]
  {
    var members := map["swaggerVersion" := version];
    var fs := ResourceListing.fields;
    assert fs[0].name == "swaggerVersion" && fs[1].name == "apiVersion" && fs[2].name == "basePath";
    assert fs[3].name == "apis" && fs[4].name == "info" && fs[5].name == "authorizations";
    assert FieldViolations(strict, ResourceListing, 6, members, []) == [];
    assert FieldViolations(strict, ResourceListing, 5, members, []) == [];
    assert FieldViolations(strict, ResourceListing, 4, members, []) == [];
    assert "apis" !in members;
    assert [] + [Key("apis")] == [Key("apis")];
    assert FieldViolations(strict, ResourceListing, 3, members, []) == [Violation([Key("apis")], Missing)];
    assert FieldViolations(strict, ResourceListing, 2, members, []) == [Violation([Key("apis")], Missing)];
    assert FieldViolations(strict, ResourceListing, 1, members, []) == [Violation([Key("apis")], Missing)];
    assert [] + [Key("swaggerVersion")] == [Key("swaggerVersion")];
  }

  /** Members holding only `swaggerVersion` raise no unknown-key violation. */
  lemma OnlyVersionKnown(strict: bool, version: Value)
    ensures UnknownKeys(strict, ResourceListingFields, KeySeq(map["swaggerVersion" := version].Keys), []) == []
  {
    var keys := KeySeq(map["swaggerVersion" := version].Keys);
    assert keys == ["swaggerVersion"];
    assert Names(ResourceListingFields)[0] == "swaggerVersion";
  }

  /** Validating against the name "ResourceListing" uses the Resource Listing schema. */
  lemma ValidateListing(strict: bool, doc: Value)
    ensures Validate(strict, "ResourceListing", doc) == Some(Violations(strict, ResourceListing, doc, []))
  {
    assert SchemaNames[2] == "ResourceListing";
  }

  /** Validating against the name "Operation" uses the Operation schema. */
  lemma ValidateOperation(strict: bool, doc: Value)
    ensures Validate(strict, "Operation", doc) == Some(Violations(strict, Operation, doc, []))
  {
    assert SchemaNames[6] == "Operation";
  }

  /** A listing holding only a `swaggerVersion` draws the violations of that version
      and one more: the missing `apis`. */
  lemma OnlyVersionViolations(strict: bool, version: Value)
    ensures Validate(strict, "ResourceListing", Map(map["swaggerVersion" := version]))
         == Some(Violations(strict, SwaggerVersion, version, [Key("swaggerVersion")]) + [Violation([Key("apis")], Missing)])
  {
    var members := map["swaggerVersion" := version];
    ValidateListing(strict, Map(members));
    ObjectViolations(strict, ResourceListing, members, []);
    ListingWithOnlyVersion(strict, version);
    OnlyVersionKnown(strict, version);
    var fv := FieldViolations(strict, ResourceListing, 0, members, []);
    assert fv + [] == fv;
  }

  /** A listing that omits `apis` draws exactly one violation: the missing `apis`. */
  lemma MissingApisViolation(strict: bool)
    ensures Validate(strict, "ResourceListing", Map(map["swaggerVersion" := Str("1.2")]))
         == Some([Violation([Key("apis")], Missing)])
  {
    OnlyVersionViolations(strict, Str("1.2"));
    assert Violations(strict, SwaggerVersion, Str("1.2"), [Key("swaggerVersion")]) == [] by {
      assert "1.2" in ["1.2"];
    }
    assert [] + [Violation([Key("apis")], Missing)] == [Violation([Key("apis")], Missing)];
  }

  /** A listing with `swaggerVersion` "2.0" and no `apis` draws exactly two
      violations: the version outside its allowed list and the missing `apis`. */
  lemma WrongVersionAndMissingApis(strict: bool)
    ensures var r := Validate(strict, "ResourceListing", Map(map["swaggerVersion" := Str("2.0")]));
            && r.Some? && |r.value| == 2
            && multiset(r.value) == multiset{Violation([Key("swaggerVersion")], NotAllowed), Violation([Key("apis")], Missing)}
  {
    OnlyVersionViolations(strict, Str("2.0"));
    assert Violations(strict, SwaggerVersion, Str("2.0"), [Key("swaggerVersion")])
        == [Violation([Key("swaggerVersion")], NotAllowed)] by {
      assert "2.0" !in ["1.2"];
    }
  }

  /** An Operation holding only `method`, `nickname` and `type`, the last two
      non-empty strings: every declared field after `method` is satisfied. */
  lemma OperationFieldsAfterMethod(strict: bool, members: map<string, Value>)
    requires members.Keys == {"method", "nickname", "type"}
    requires members["nickname"].Str? && members["nickname"].text != ""
    requires members["type"].Str? && members["type"].text != ""
    ensures FieldViolations(strict, Operation, 1, members, []) == []
  {
    forall j | 1 <= j < |OperationFields|
      ensures FieldAccepted(strict, OperationFields[j], members)
    {
      if j != 3 && j != 5 { assert OperationFields[j].name !in members; }
    }
    FieldViolationsEmptyIffValid(strict, Operation, 1, members, []);
  }

  /** The parts of the violation list of an Operation holding only `method`,
      `nickname` and `type`, with a `method` outside the seven allowed names. */
  lemma BadMethodParts(strict: bool, verb: string, members: map<string, Value>)
    requires verb !in HttpMethods
    requires members.Keys == {"method", "nickname", "type"} && members["method"] == Str(verb)
    requires members["nickname"].Str? && members["nickname"].text != ""
    requires members["type"].Str? && members["type"].text != ""
    ensures FieldViolations(strict, Operation, 0, members, []) == [Violation([Key("method")], NotAllowed)]
  {
    OperationFieldsAfterMethod(strict, members);
    assert OperationFields[0].name == "method";
    assert Violations(strict, OperationFields[0].schema, Str(verb), [Key("method")])
        == [Violation([Key("method")], NotAllowed)];
    assert [] + [Key("method")] == [Key("method")];
  }

  /** An Operation holding only `method`, `nickname` and `type` has no undeclared key. */
  lemma DeclaredOperationKeys(strict: bool, members: map<string, Value>)
    requires members.Keys == {"method", "nickname", "type"}
    ensures UnknownKeys(strict, OperationFields, KeySeq(members.Keys), []) == []
  {
    var keys := KeySeq(members.Keys);
    assert Names(OperationFields)[0] == "method";
    assert Names(OperationFields)[3] == "nickname";
    assert Names(OperationFields)[5] == "type";
    forall j | 0 <= j < |keys| ensures keys[j] in Names(OperationFields) {
      assert keys[j] in members;
    }
  }

  /** An Operation holding only `method`, `nickname` and `type`, with a `method`
      outside the seven allowed names: its only violation is at `method`. */
  lemma BadMethodViolation(strict: bool, verb: string, nickname: string, typ: string)
    requires verb !in HttpMethods && nickname != "" && typ != ""
    ensures Validate(strict, "Operation", Map(map["method" := Str(verb), "nickname" := Str(nickname), "type" := Str(typ)]))
         == Some([Violation([Key("method")], NotAllowed)])
  {
    var members := map["method" := Str(verb), "nickname" := Str(nickname), "type" := Str(typ)];
    ValidateOperation(strict, Map(members));
    ObjectViolations(strict, Operation, members, []);
    assert members.Keys == {"method", "nickname", "type"};
    BadMethodParts(strict, verb, members);
    DeclaredOperationKeys(strict, members);
    assert [Violation([Key("method")], NotAllowed)] + [] == [Violation([Key("method")], NotAllowed)];
  }

  /** An Operation whose `method` is "get" draws exactly one violation, at `method`. */
  lemma LowercaseMethodViolation(strict: bool)
    ensures Validate(strict, "Operation", Map(map["method" := Str("get"), "nickname" := Str("listPets"), "type" := Str("void")]))
         == Some([Violation([Key("method")], NotAllowed)])
  {
    assert "get" !in HttpMethods;
    BadMethodViolation(strict, "get", "listPets", "void");
  }
}
