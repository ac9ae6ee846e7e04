# Swagger 1.2 document schemas, modelled in Dafny

hapi-swaggered describes a hapi server's routes as Swagger 1.2 documents: a
Resource Listing naming the API Declarations, and for each an API Declaration
with its APIs, operations, parameters, response messages and models.
`lib/schema.js` states what a well-formed document of each kind looks like.
It does this as a graph of Joi schemas, built leaves first and exported under
thirteen names:

- APIReference, Info, ResourceListing, Items;
- Parameter, ResponseMessage, Operation, API;
- Property, Properties, Model, Models;
- APIDeclaration.

The file contains no control flow. Its behaviour is the meaning of the Joi
calls it makes, so this project models it as data:

- `joi.dfy` (module `Joi`) gives the parsed documents (`Value`) and the Joi
  calls the file uses (`Schema`).
  - `Valid(strict, s, v)` interprets those calls:
    - `Joi.string()` rejects "" unless `.allow('')` is written;
    - `.valid([...])` makes its list the only accepted strings;
    - keys are optional unless `.required()`;
    - `Joi.array().includes(X)` is an array of X;
    - `Joi.object({}).pattern(/.*/, X)` is an open map of X;
    - `Joi.any()` accepts everything.
  - `strict` is the unknown-key policy: when true, undeclared object keys are
    rejected; when false, they are ignored. The file itself sets no such
    option, so every fact is stated for both values.
  - `Violations` is this model's own complete report, defined by one rule:
    check everything, depth first, with declared fields in declaration order
    and then undeclared keys. Each entry is a path and a reason from the
    model's own `Reason` list. It is not Joi's error object.
- `joi_facts.dfy` (module `JoiFacts`) proves facts that hold for every schema:
  - the report is empty exactly when `Valid` holds;
  - strict mode only rejects more;
  - how validity responds when one member of an object, an open map or an
    array is replaced, removed or added.
- `swagger_schema.dfy` (module `SwaggerSchema`) transcribes every schema of
  `lib/schema.js`, field by field, in declaration order. It also holds:
  - the exported registry: `Lookup` by name, and `Validate` of a document
    against a named schema;
  - proofs that every schema declares each key once.
- `swagger_facts.dfy` (module `SwaggerFacts`) proves what the Swagger schemas
  accept and reject. For example:
  - the exact version "1.2";
  - which keys are required;
  - the HTTP method and parameter location lists;
  - where "" is and is not accepted;
  - the open `models`/`properties` maps;
  - the `any` authorizations;
  - complete violation lists for sample documents.

The description texts also state rules in prose, for example that a "path"
parameter MUST carry `required: true`. Joi does not check description texts,
so the model follows the calls themselves:

- `info`, `operations`, `properties` and `models` carry no `.required()`, so
  they are optional here; the description of `info` at lib/schema.js:28 says
  clients can use it "if needed";
- `PathParameterWithoutRequired` states outright that a "path" parameter
  without `required` is accepted.

## Model

| member | source | states |
|---|---|---|
| Joi.TextAccepted | lib/schema.js:3 | `Joi.string()` accepts every string but ""; `.allow('')` adds ""; `.valid(list)` accepts only the listed strings, plus "" when `.allow('')` is also written |
| Joi.FieldAccepted | lib/schema.js:6-7 | a key declared with `.required()` must be present; any declared key, when present, must satisfy its rule |
| Joi.Valid | lib/schema.js:5-7 | acceptance of a value by each Joi call of the file: `any()` accepts all; `string()`, `number()` and `boolean()` need that kind; `array().includes(X)` needs every element in X; `object({}).pattern(/.*/, X)` needs every entry in X; `object({...})` needs every declared key satisfied and, in strict mode, no undeclared key |
| Joi.Violations | lib/schema.js:5-7 | the model's own complete report for any schema: every path it names extends the starting path, and it is empty exactly when `Valid` holds (`JoiFacts.ViolationsEmptyIffValid`) |
| JoiFacts.ViolationsEmptyIffValid | lib/schema.js:5-10 | for every schema, value and path, the full violation report is empty exactly when the value is accepted |
| JoiFacts.StrictImpliesPermissive | lib/schema.js:5-7 | for the `Joi.object({...})` declarations, whose unknown-key policy no line of the file sets: a value accepted when undeclared keys are rejected is also accepted when they are ignored |
| JoiFacts.FieldReplaced | lib/schema.js:5-7 | replacing or adding a declared key of an accepted object keeps it accepted iff the new value satisfies that key's rule |
| JoiFacts.ArrayFieldReplaced | lib/schema.js:27 | setting an array-valued key to an array keeps the object accepted iff every element satisfies the element rule; an empty array is always accepted |
| JoiFacts.FieldRemoved | lib/schema.js:6-7 | removing a declared key of an accepted object keeps it accepted iff the key is not `.required()` |
| JoiFacts.UndeclaredKeyAdded | lib/schema.js:5-7 | adding an undeclared key to an accepted object keeps it accepted iff undeclared keys are ignored |
| JoiFacts.MapEntrySet | lib/schema.js:111 | an open map accepts any key: setting one keeps it accepted iff the value satisfies the element rule |
| JoiFacts.MapEntryRemoved | lib/schema.js:111 | removing any entry of an accepted open map keeps it accepted |
| JoiFacts.ArrayAppended | lib/schema.js:27 | appending to an accepted array keeps it accepted iff the new element is accepted; the empty array is accepted |
| SwaggerSchema.SwaggerVersion | lib/schema.js:3 | the transcribed `swaggerVersion` rule: a string that must be exactly "1.2" |
| SwaggerSchema.APIReference | lib/schema.js:5-10 | the transcribed APIReference: required `path`, optional `description`, all strings |
| SwaggerSchema.Info | lib/schema.js:12-21 | the transcribed Info: required `title` and `description`; optional `termsOfServiceUrl`, `contact`, `license`, `licenseUrl` |
| SwaggerSchema.ResourceListing | lib/schema.js:23-32 | the transcribed ResourceListing: the version rule, optional `apiVersion`/`basePath`, required `apis` (array of APIReference), optional `info` (Info) and `authorizations` (any) |
| SwaggerSchema.Items | lib/schema.js:36-41 | the transcribed Items: optional string `type` and `$ref` |
| SwaggerSchema.Produces | lib/schema.js:44 | the transcribed `produces`: an array of non-empty strings |
| SwaggerSchema.Consumes | lib/schema.js:45 | the transcribed `consumes`: an array of non-empty strings |
| SwaggerSchema.Parameter | lib/schema.js:47-62 | the transcribed Parameter: required `paramType` (one of five), `name`, `type`; the optional fields in declaration order, `enum` allowing "" |
| SwaggerSchema.ResponseMessage | lib/schema.js:64-70 | the transcribed ResponseMessage: required numeric `code` and string `message`, optional `responseModel` |
| SwaggerSchema.Operation | lib/schema.js:73-88 | the transcribed Operation: required `method` (one of seven), `nickname`, `type`; `notes` allowing ""; the optional sub-objects and lists |
| SwaggerSchema.API | lib/schema.js:90-96 | the transcribed API: required `path`, optional `description` and `operations` (array of Operation) |
| SwaggerSchema.Property | lib/schema.js:98-109 | the transcribed Property: ten optional fields, `enum` rejecting "" |
| SwaggerSchema.Properties | lib/schema.js:111 | the transcribed Properties: an open map of Property |
| SwaggerSchema.Model | lib/schema.js:113-123 | the transcribed Model: required `id`, optional `type`, `description`, `required`, `properties`, `subTypes`, `discriminator` |
| SwaggerSchema.Models | lib/schema.js:125 | the transcribed Models: an open map of Model |
| SwaggerSchema.APIDeclaration | lib/schema.js:127-139 | the transcribed APIDeclaration: the version rule, required `apis` (array of API), optional `apiVersion`, `basePath` and `resourcePath` strings, optional `models`, `produces`, `consumes` and `authorizations` |
| SwaggerSchema.Schemas | lib/schema.js:141 | the thirteen exported schemas, in the order of `SchemaNames` |
| SwaggerSchema.SchemaNamesDistinct | lib/schema.js:141 | no two exported names are equal |
| SwaggerSchema.NameIndex | lib/schema.js:141 | finds the position of a name among the exported names, or none exactly when no exported name equals it |
| SwaggerSchema.ExportedWellFormed | lib/schema.js:5-139 | every exported schema declares each key once at every depth |
| SwaggerSchema.APIReferenceWellFormed | lib/schema.js:5-10 | APIReference declares each key once |
| SwaggerSchema.InfoWellFormed | lib/schema.js:12-21 | Info declares each key once |
| SwaggerSchema.ResourceListingWellFormed | lib/schema.js:23-32 | ResourceListing and the schemas it embeds declare each key once |
| SwaggerSchema.ItemsWellFormed | lib/schema.js:36-41 | Items declares each key once |
| SwaggerSchema.ParameterWellFormed | lib/schema.js:47-62 | Parameter and the schemas it embeds declare each key once |
| SwaggerSchema.ResponseMessageWellFormed | lib/schema.js:64-70 | ResponseMessage declares each key once |
| SwaggerSchema.OperationWellFormed | lib/schema.js:73-88 | Operation and the schemas it embeds declare each key once |
| SwaggerSchema.APIWellFormed | lib/schema.js:90-96 | API and the schemas it embeds declare each key once |
| SwaggerSchema.PropertyWellFormed | lib/schema.js:98-111 | Property and Properties declare each key once |
| SwaggerSchema.ModelWellFormed | lib/schema.js:113-125 | Model and Models, with all they embed, declare each key once |
| SwaggerSchema.APIDeclarationWellFormed | lib/schema.js:127-139 | APIDeclaration and the whole graph below it declare each key once |
| SwaggerSchema.Lookup | lib/schema.js:141 | a schema is found exactly for the thirteen exported names; the one found is the schema exported under that name (`Schemas` at the name's position in `SchemaNames`), and it is well formed |
| SwaggerSchema.Validate | lib/schema.js:141 | validation answers exactly for exported names, and its report is empty iff the named schema accepts the document |
| SwaggerFacts.SwaggerVersionExact | lib/schema.js:3 | a Resource Listing or API Declaration is accepted only with `swaggerVersion` present and equal to "1.2"; any other value or its absence is rejected |
| SwaggerFacts.ResourceListingApisRequired | lib/schema.js:27 | a Resource Listing's `apis` is present and an array of API References; without it the listing is rejected |
| SwaggerFacts.ResourceListingApisElements | lib/schema.js:27 | `apis` may be any array, the empty one included, whose every element is an API Reference |
| SwaggerFacts.APIDeclarationApisRequired | lib/schema.js:132 | an API Declaration's `apis` is present and an array of APIs; without it the declaration is rejected |
| SwaggerFacts.APIDeclarationApisElements | lib/schema.js:132 | `apis` may be any array, the empty one included, whose every element is an API |
| SwaggerFacts.OperationMethod | lib/schema.js:74 | an Operation's `method` is accepted iff it is one of the seven upper-case names; "get" is rejected |
| SwaggerFacts.OperationMethodRequired | lib/schema.js:74 | an accepted Operation holds `method` and is rejected without it |
| SwaggerFacts.OperationNicknameRequired | lib/schema.js:77 | an accepted Operation holds `nickname` and is rejected without it |
| SwaggerFacts.OperationTypeRequired | lib/schema.js:79 | an accepted Operation holds `type` and is rejected without it |
| SwaggerFacts.ParameterParamType | lib/schema.js:48-58 | an accepted Parameter holds `paramType` and is rejected without it; `paramType` is accepted iff it is one of the five lower-case locations; `required` is optional and accepted iff it is a boolean |
| SwaggerFacts.PathParameterWithoutRequired | lib/schema.js:48-58 | a "path" parameter holding only `paramType`, a non-empty `name` and a non-empty `type`, with no `required`, is accepted in both modes |
| SwaggerFacts.APIReferencePathRequired | lib/schema.js:6 | an API Reference holds `path` and is rejected without it |
| SwaggerFacts.InfoRequiredFields | lib/schema.js:13-16 | Info holds `title` and `description` and is rejected without either; `contact` may be dropped |
| SwaggerFacts.ResponseMessageRequiredFields | lib/schema.js:65-66 | a Response Message holds a numeric `code` and a `message`, and is rejected without either |
| SwaggerFacts.ModelIdRequired | lib/schema.js:115-118 | a Model holds `id` and is rejected without it; `properties` may be dropped |
| SwaggerFacts.ResponseMessageCode | lib/schema.js:65 | `code` is accepted iff it is a number |
| SwaggerFacts.ParameterAndAPIRequiredFields | lib/schema.js:49-91 | a Parameter (:49-50) holds `name` and `type` and is rejected without either; an API (:91) holds `path` and is rejected without it |
| SwaggerFacts.ModelsOpenMap | lib/schema.js:125 | `Models` takes any key; setting one keeps it accepted iff the value is a Model, and removing one keeps it accepted |
| SwaggerFacts.PropertiesOpenMap | lib/schema.js:111 | `Properties` takes any key; setting one keeps it accepted iff the value is a Property, and removing one keeps it accepted |
| SwaggerFacts.DeclarationModelAdded | lib/schema.js:133 | adding a valid Model under any name to a declaration's `models`, or removing one, keeps the declaration accepted |
| SwaggerFacts.ResourceListingInfo | lib/schema.js:28 | `info` may be absent, is accepted iff it is a valid Info, and an `info` without `title` is rejected |
| SwaggerFacts.OperationSubObjects | lib/schema.js:80-82 | an Operation's `items`, `parameters` and `responseMessages` may be absent and, when present, are accepted iff valid for their rules |
| SwaggerFacts.ParameterItems | lib/schema.js:54 | a Parameter's `items` may be absent and, when present, is accepted iff it is a valid Items |
| SwaggerFacts.ItemsOptionalRef | lib/schema.js:36-41 | both keys of Items are optional, and `$ref` is accepted iff it is a non-empty string |
| SwaggerFacts.APIOperations | lib/schema.js:93 | an API's `operations` may be absent and, when present, is accepted iff it is an array of Operations |
| SwaggerFacts.MediaTypeLists | lib/schema.js:44-45 | `produces` and `consumes` of an Operation or API Declaration are accepted iff every element is a non-empty string |
| SwaggerFacts.ModelNameLists | lib/schema.js:117-119 | a Model's `required` and `subTypes` are accepted iff every element is a non-empty string |
| SwaggerFacts.ParameterEnumAllowsEmpty | lib/schema.js:56 | a Parameter's `enum` is accepted iff every element is a string, "" included; so `[""]` is accepted |
| SwaggerFacts.PropertyEnumRejectsEmpty | lib/schema.js:105 | a Property's `enum` is accepted iff every element is a non-empty string; so any array holding "" is rejected |
| SwaggerFacts.PropertyAllOptional | lib/schema.js:98-109 | every key of a Property is optional: the empty object is a Property |
| SwaggerFacts.ModelProperties | lib/schema.js:118 | a Model's `properties` may be absent and, when present, is accepted iff it is a valid Properties map |
| SwaggerFacts.OperationNotesEmpty | lib/schema.js:75-76 | an Operation accepts "" as `notes` but rejects it as `summary` |
| SwaggerFacts.AuthorizationsAnyValue | lib/schema.js:29-136 | `authorizations` accepts every value in a Resource Listing (:29), an Operation (:78) and an API Declaration (:136) |
| SwaggerFacts.ParameterExtensionKey | lib/schema.js:47-62 | the undeclared key "x-internal" on a Parameter is accepted iff undeclared keys are ignored |
| SwaggerFacts.MinimalInfo | lib/schema.js:12-21 | an Info holding only a non-empty title and description is accepted |
| SwaggerFacts.ListingWithInfo | lib/schema.js:23-32 | a listing with version "1.2", an empty `apis` and a minimal `info` is accepted |
| SwaggerFacts.ListingWithoutInfo | lib/schema.js:23-32 | a listing with version "1.2", one API Reference and no `info` is accepted |
| SwaggerFacts.ListingWithOnlyVersion | lib/schema.js:24-29 | for members holding only `swaggerVersion`, the declared-field report is the version's own violations followed by the missing `apis`, in the model's declaration order |
| SwaggerFacts.OnlyVersionViolations | lib/schema.js:23-32 | a listing holding only a version reports that version's violations followed by the missing `apis` (the model's own declaration order), and nothing else |
| SwaggerFacts.MissingApisViolation | lib/schema.js:27 | a listing with version "1.2" and no `apis` reports exactly one violation: `apis` missing |
| SwaggerFacts.WrongVersionAndMissingApis | lib/schema.js:3 | a listing with version "2.0" and no `apis` reports exactly two violations: the version not allowed and `apis` missing |
| SwaggerFacts.BadMethodViolation | lib/schema.js:74 | an Operation holding only `method`, a non-empty `nickname` and a non-empty `type`, with a method outside the seven, reports exactly one violation, `method` not allowed |
| SwaggerFacts.LowercaseMethodViolation | lib/schema.js:74 | an Operation with method "get" reports exactly one violation, `method` not allowed |

## Left out

- Joi's actual error reporting: its error objects, message texts and reason codes, the order in which it reports errors, and whether it stops at the first one (`abortEarly`). The model's `Violations` follows its own rule instead. For example, a non-string under `.valid(...)` is reported there as `WrongType`. Map keys are visited in an unspecified order.
- Joi's type coercion under its default `convert` option is not modelled: for example numeric strings for `number()`, "true"/"false" for `boolean()`, and JSON text for `array()` and `object()`. The model accepts only values of the declared kind.
- Numbers are integers. Floating-point values are not modelled.
- Joi's treatment of `null` and `undefined`. A present key with value `Null` is a present value, which every rule but `any()` rejects.
- `.description(...)` texts and the `className` option carry no validation and are not modelled. So the rules stated only in prose are not modelled either:
  - a path parameter must have `required: true`;
  - parameter names must be unique;
  - one operation per method;
  - discriminator rules;
  - no cyclic or multiple inheritance.
- The `strict` parameter stands for Joi's unknown-key option. The file sets no such option, so every fact is stated for both values.
- `require('joi')` and the `module.exports` object itself. The export is modelled as the name registry `Lookup`.
