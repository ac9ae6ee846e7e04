/** The part of the Joi validation library that lib/schema.js relies on, interpreted
    as data: a closed value model for parsed documents, a schema datatype with one
    constructor per kind of Joi call the file makes, the acceptance predicate `Valid`,
    and a violation list that is empty exactly when `Valid` holds. */
module Joi {

  datatype Option<+T> = None | Some(value: T)

  /** A parsed document. A key present in `fields` is a present field (even when its
      value is `Null`); a key that is not there is an absent field. */
  datatype Value =
    | Null
    | Bool(flag: bool)
    | Num(num: int)
    | Str(text: string)
    | Seq(items: seq<Value>)
    | Map(fields: map<string, Value>)

  /** One declared key of `Joi.object({...})`: `.required()` or optional by default. */
  datatype Field = Field(name: string, required: bool, schema: Schema)

  /** The Joi calls lib/schema.js makes:
      `Joi.any()`                         -> Any
      `Joi.string()[.allow('')][.valid(l)]` -> Text(allowEmpty, enum)
      `Joi.number()`, `Joi.boolean()`     -> Number, Boolean
      `Joi.array().includes(X)`           -> ArrayOf(X)
      `Joi.object({}).pattern(<every key>, X)` -> MapOf(X)
      `Joi.object({k: ..., ...})`         -> Object(fields) */
  datatype Schema =
    | Any
    | Text(allowEmpty: bool, enum: Option<seq<string>>)
    | Number
    | Boolean
    | ArrayOf(elem: Schema)
    | MapOf(elem: Schema)
    | Object(fields: seq<Field>)

  /** The declared key names of an object schema, in declaration order. */
  function Names(fs: seq<Field>): (r: seq<string>)
    ensures |r| == |fs|
    ensures forall i | 0 <= i < |fs| :: r[i] == fs[i].name
  {
    if fs == [] then [] else [fs[0].name] + Names(fs[1..])
  }

  /** Joi's string rule: a `.valid(...)` list is the only accepted set (plus "" when
      `.allow('')` is also written); without one, every string but "" is accepted
      unless `.allow('')` is written. */
  predicate TextAccepted(allowEmpty: bool, enum: Option<seq<string>>, t: string)
  {
    match enum
    case Some(allowed) => t in allowed || (allowEmpty && t == "")
    case None => allowEmpty || t != ""
  }

  /** A declared field is satisfied by an object's members when a present value
      satisfies the field's schema and a required field is present. */
  predicate FieldAccepted(strict: bool, f: Field, members: map<string, Value>)
    decreases f
  {
    if f.name in members then Valid(strict, f.schema, members[f.name]) else !f.required
  }

  /** Acceptance of `v` by `s`. `strict` is the unknown-key policy: when true, an
      object value may hold only declared keys; when false, undeclared keys are
      ignored. Open maps accept every key in both modes. */
  predicate Valid(strict: bool, s: Schema, v: Value)
    decreases s
  {
    match s
    case Any => true
    case Text(allowEmpty, enum) => v.Str? && TextAccepted(allowEmpty, enum, v.text)
    case Number => v.Num?
    case Boolean => v.Bool?
    case ArrayOf(e) => v.Seq? && forall i | 0 <= i < |v.items| :: Valid(strict, e, v.items[i])
    case MapOf(e) => v.Map? && forall k | k in v.fields :: Valid(strict, e, v.fields[k])
    case Object(fs) =>
      && v.Map?
      && (forall i | 0 <= i < |fs| :: FieldAccepted(strict, fs[i], v.fields))
      && (strict ==> forall k | k in v.fields :: k in Names(fs))
  }

  /** No two declared keys of an object share a name. */
  predicate DistinctNames(fs: seq<Field>)
  {
    forall i, j | 0 <= i < j < |fs| :: fs[i].name != fs[j].name
  }

  /** Every object schema reachable from `s` declares each key once. */
  predicate WellFormed(s: Schema)
    decreases s
  {
    match s
    case ArrayOf(e) => WellFormed(e)
    case MapOf(e) => WellFormed(e)
    case Object(fs) => DistinctNames(fs) && forall i | 0 <= i < |fs| :: WellFormed(fs[i].schema)
    case _ => true
  }

  // ---------------------------------------------------------------------------
  // The violation list

  /** One step of a path into a document. */
  datatype Segment = Key(key: string) | Index(index: nat)

  datatype Reason =
    | WrongType     // the value has the wrong shape
    | NotAllowed    // a string outside a `.valid(...)` list
    | EmptyString   // "" where `.allow('')` is not written
    | Missing       // a `.required()` key is absent
    | UnknownKey    // an undeclared key, in strict mode

  datatype Violation = Violation(path: seq<Segment>, reason: Reason)

  /** The keys of a map in some order, each once. */
  ghost function KeySeq(keys: set<string>): (r: seq<string>)
    ensures |r| == |keys|
    ensures forall k :: k in r <==> k in keys
    decreases keys
  {
    if keys == {} then []
    else
      var k :| k in keys;
      [k] + KeySeq(keys - {k})
  }

  /** All violations of `s` by `v`, each with the path (extending `path`) at which it
      occurs. Every field and every element is checked: nothing stops at the first
      violation. */
  ghost function Violations(strict: bool, s: Schema, v: Value, path: seq<Segment>): (r: seq<Violation>)
    ensures forall x | x in r :: path <= x.path
    decreases s, 2
  {
    match s
    case Any => []
    case Text(allowEmpty, enum) =>
      if !v.Str? then [Violation(path, WrongType)]
      else if TextAccepted(allowEmpty, enum, v.text) then []
      else if enum.Some? then [Violation(path, NotAllowed)]
      else [Violation(path, EmptyString)]
    case Number => if v.Num? then [] else [Violation(path, WrongType)]
    case Boolean => if v.Bool? then [] else [Violation(path, WrongType)]
    case ArrayOf(_) =>
      if !v.Seq? then [Violation(path, WrongType)]
      else ItemViolations(strict, s, IndexEntries(v.items), path)
    case MapOf(_) =>
      if !v.Map? then [Violation(path, WrongType)]
      else ItemViolations(strict, s, KeyEntries(v.fields), path)
    case Object(fs) =>
      if !v.Map? then [Violation(path, WrongType)]
      else FieldViolations(strict, s, 0, v.fields, path) + UnknownKeys(strict, fs, KeySeq(v.fields.Keys), path)
  }

  /** The elements of an array, each with its index. */
  function IndexEntries(items: seq<Value>): (r: seq<(Segment, Value)>)
    ensures |r| == |items|
    ensures forall i | 0 <= i < |items| :: r[i] == (Index(i), items[i])
  {
    seq(|items|, i requires 0 <= i < |items| => (Index(i), items[i]))
  }

  /** The members of a map, each with its key. */
  ghost function KeyEntries(m: map<string, Value>): (r: seq<(Segment, Value)>)
    ensures |r| == |m|
    ensures forall k | k in m :: exists i | 0 <= i < |r| :: r[i].0 == Key(k)
    ensures forall i | 0 <= i < |r| :: r[i].0.Key? && r[i].0.key in m && r[i].1 == m[r[i].0.key]
  {
    var ks := KeySeq(m.Keys);
    var r := seq(|ks|, i requires 0 <= i < |ks| => (Key(ks[i]), m[ks[i]]));
    assert forall i | 0 <= i < |ks| :: r[i] == (Key(ks[i]), m[ks[i]]);
    assert forall k | k in m :: k in ks;
    r
  }

  /** Violations of the element schema of an array or open map by each entry. */
  ghost function ItemViolations(strict: bool, s: Schema, entries: seq<(Segment, Value)>, path: seq<Segment>): (r: seq<Violation>)
    requires s.ArrayOf? || s.MapOf?
    ensures forall x | x in r :: path <= x.path
    decreases s, 1, |entries|
  {
    if entries == [] then []
    else
      var inner := Violations(strict, s.elem, entries[0].1, path + [entries[0].0]);
      assert forall x | x in inner :: path <= x.path;
      inner + ItemViolations(strict, s, entries[1..], path)
  }

  /** Violations of the declared fields `s.fields[i..]` by an object's members. */
  ghost function FieldViolations(strict: bool, s: Schema, i: nat, members: map<string, Value>, path: seq<Segment>): (r: seq<Violation>)
    requires s.Object? && i <= |s.fields|
    ensures forall x | x in r :: path <= x.path
    decreases s, 1, |s.fields| - i
  {
    if i == |s.fields| then []
    else
      var f := s.fields[i];
      var here: seq<Violation> :=
        if f.name in members then Violations(strict, f.schema, members[f.name], path + [Key(f.name)])
        else if f.required then [Violation(path + [Key(f.name)], Missing)]
        else [];
      assert forall x | x in here :: path <= x.path;
      here + FieldViolations(strict, s, i + 1, members, path)
  }

  /** In strict mode, one violation per undeclared key. */
  function UnknownKeys(strict: bool, fs: seq<Field>, keys: seq<string>, path: seq<Segment>): (r: seq<Violation>)
    ensures r == [] <==> (strict ==> forall j | 0 <= j < |keys| :: keys[j] in Names(fs))
    ensures forall x | x in r :: x.reason == UnknownKey && path <= x.path && |x.path| == |path| + 1
  {
    if !strict || keys == [] then []
    else
      (if keys[0] in Names(fs) then [] else [Violation(path + [Key(keys[0])], UnknownKey)])
      + UnknownKeys(strict, fs, keys[1..], path)
  }
}
