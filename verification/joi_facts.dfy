/** Facts about the interpreted Joi semantics that hold for every schema: the
    violation list agrees with `Valid`, strict mode only rejects more, and how
    validity of an object or open map responds to replacing, removing or adding one
    member. The Swagger-specific facts are instances of these. */
module JoiFacts {
  import opened Joi

  /** The violation list is empty exactly when the value is accepted. */
  lemma {:induction false} ViolationsEmptyIffValid(strict: bool, s: Schema, v: Value, path: seq<Segment>)
    ensures Violations(strict, s, v, path) == [] <==> Valid(strict, s, v)
    decreases s, 3
  {
    match s
    case ArrayOf(_) => if v.Seq? { ArrayViolationsEmptyIffValid(strict, s, v.items, path); }
    case MapOf(_) => if v.Map? { MapViolationsEmptyIffValid(strict, s, v.fields, path); }
    case Object(_) => if v.Map? { ObjectViolationsEmptyIffValid(strict, s, v.fields, path); }
    case _ =>
  }

  lemma {:induction false} ArrayViolationsEmptyIffValid(strict: bool, s: Schema, items: seq<Value>, path: seq<Segment>)
    requires s.ArrayOf?
    ensures Violations(strict, s, Seq(items), path) == [] <==> Valid(strict, s, Seq(items))
    decreases s, 2
  {
    var entries := IndexEntries(items);
    ItemViolationsEmptyIffValid(strict, s, entries, path);
    assert (forall j | 0 <= j < |entries| :: Valid(strict, s.elem, entries[j].1))
       <==> (forall i | 0 <= i < |items| :: Valid(strict, s.elem, items[i]));
  }

  lemma {:induction false} MapViolationsEmptyIffValid(strict: bool, s: Schema, members: map<string, Value>, path: seq<Segment>)
    requires s.MapOf?
    ensures Violations(strict, s, Map(members), path) == [] <==> Valid(strict, s, Map(members))
    decreases s, 2
  {
    var entries := KeyEntries(members);
    ItemViolationsEmptyIffValid(strict, s, entries, path);
    if forall j | 0 <= j < |entries| :: Valid(strict, s.elem, entries[j].1) {
      forall k | k in members
        ensures Valid(strict, s.elem, members[k])
      {
        var j :| 0 <= j < |entries| && entries[j].0 == Key(k);
        assert entries[j].1 == members[k];
      }
    }
  }

  lemma {:induction false} ObjectViolationsEmptyIffValid(strict: bool, s: Schema, members: map<string, Value>, path: seq<Segment>)
    requires s.Object?
    ensures Violations(strict, s, Map(members), path) == [] <==> Valid(strict, s, Map(members))
    decreases s, 2
  {
    ObjectViolations(strict, s, members, path);
    FieldViolationsEmptyIffValid(strict, s, 0, members, path);
    ConcatEmpty(FieldViolations(strict, s, 0, members, path), UnknownKeys(strict, s.fields, KeySeq(members.Keys), path));
    UnknownKeysEmptyIffDeclared(strict, s.fields, members, path);
  }

  /** A concatenation is empty exactly when both parts are. */
  lemma ConcatEmpty<T>(a: seq<T>, b: seq<T>)
    ensures a + b == [] <==> a == [] && b == []
  {
    if a + b == [] { assert |a + b| == |a| + |b|; }
  }

  /** The undeclared-key report of an object is empty exactly when undeclared keys
      are ignored or every key of the object is declared. */
  lemma UnknownKeysEmptyIffDeclared(strict: bool, fs: seq<Field>, members: map<string, Value>, path: seq<Segment>)
    ensures UnknownKeys(strict, fs, KeySeq(members.Keys), path) == []
        <==> (strict ==> forall k | k in members :: k in Names(fs))
  {
    var keys := KeySeq(members.Keys);
    assert (forall j | 0 <= j < |keys| :: keys[j] in Names(fs))
       <==> (forall k | k in members :: k in Names(fs));
  }

  lemma {:induction false} ItemViolationsEmptyIffValid(strict: bool, s: Schema, entries: seq<(Segment, Value)>, path: seq<Segment>)
    requires s.ArrayOf? || s.MapOf?
    ensures ItemViolations(strict, s, entries, path) == []
        <==> forall j | 0 <= j < |entries| :: Valid(strict, s.elem, entries[j].1)
    decreases s, 1, |entries|
  {
    if entries != [] {
      ViolationsEmptyIffValid(strict, s.elem, entries[0].1, path + [entries[0].0]);
      ItemViolationsEmptyIffValid(strict, s, entries[1..], path);
      assert forall j | 1 <= j < |entries| :: entries[j] == entries[1..][j - 1];
    }
  }

  lemma {:induction false} FieldViolationsEmptyIffValid(strict: bool, s: Schema, i: nat, members: map<string, Value>, path: seq<Segment>)
    requires s.Object? && i <= |s.fields|
    ensures FieldViolations(strict, s, i, members, path) == []
        <==> forall j | i <= j < |s.fields| :: FieldAccepted(strict, s.fields[j], members)
    decreases s, 1, |s.fields| - i
  {
    if i < |s.fields| {
      var f := s.fields[i];
      if f.name in members {
        ViolationsEmptyIffValid(strict, f.schema, members[f.name], path + [Key(f.name)]);
      }
      FieldViolationsEmptyIffValid(strict, s, i + 1, members, path);
    }
  }

  /** The violations of an object value: those of its declared fields, then its
      undeclared keys. */
  lemma ObjectViolations(strict: bool, s: Schema, members: map<string, Value>, path: seq<Segment>)
    requires s.Object?
    ensures Violations(strict, s, Map(members), path)
         == FieldViolations(strict, s, 0, members, path) + UnknownKeys(strict, s.fields, KeySeq(members.Keys), path)
  {
  }

  /** Strict mode (undeclared keys rejected) accepts only values that permissive
      mode accepts too. */
  lemma {:induction false} StrictImpliesPermissive(s: Schema, v: Value)
    requires Valid(true, s, v)
    ensures Valid(false, s, v)
    decreases s
  {
    match s
    case ArrayOf(e) =>
      forall i | 0 <= i < |v.items| ensures Valid(false, e, v.items[i]) {
        StrictImpliesPermissive(e, v.items[i]);
      }
    case MapOf(e) =>
      forall k | k in v.fields ensures Valid(false, e, v.fields[k]) {
        StrictImpliesPermissive(e, v.fields[k]);
      }
    case Object(fs) =>
      forall i | 0 <= i < |fs| ensures FieldAccepted(false, fs[i], v.fields) {
        assert FieldAccepted(true, fs[i], v.fields);
        if fs[i].name in v.fields {
          StrictImpliesPermissive(fs[i].schema, v.fields[fs[i].name]);
        }
      }
    case _ =>
  }

  /** An object value is accepted when every declared field is satisfied and, in
      strict mode, every key is declared. */
  lemma ObjectAccepted(strict: bool, fs: seq<Field>, members: map<string, Value>)
    requires forall i | 0 <= i < |fs| :: FieldAccepted(strict, fs[i], members)
    requires strict ==> forall k | k in members :: k in Names(fs)
    ensures Valid(strict, Object(fs), Map(members))
  {
  }

  /** What an accepted object promises about one declared field: a required field is
      present, and a present field satisfies its schema. */
  lemma FieldOf(strict: bool, fs: seq<Field>, members: map<string, Value>, i: nat)
    requires Valid(strict, Object(fs), Map(members)) && i < |fs|
    ensures fs[i].required ==> fs[i].name in members
    ensures fs[i].name in members ==> Valid(strict, fs[i].schema, members[fs[i].name])
  {
    assert FieldAccepted(strict, fs[i], members);
  }

  /** In an accepted object, replacing (or adding) the value of a declared field
      keeps the object accepted exactly when the new value satisfies that field. */
  lemma FieldReplaced(strict: bool, fs: seq<Field>, members: map<string, Value>, i: nat, x: Value)
    requires DistinctNames(fs) && i < |fs|
    requires Valid(strict, Object(fs), Map(members))
    ensures Valid(strict, Object(fs), Map(members[fs[i].name := x])) <==> Valid(strict, fs[i].schema, x)
  {
    var n := fs[i].name;
    var after := members[n := x];
    forall j | 0 <= j < |fs| && j != i
      ensures FieldAccepted(strict, fs[j], after) == FieldAccepted(strict, fs[j], members)
    {
      assert fs[j].name != n;
    }
    assert FieldAccepted(strict, fs[i], after) == Valid(strict, fs[i].schema, x);
    assert n in Names(fs);
  }

  /** In an accepted object, giving an array field a new array keeps the object
      accepted exactly when every new element satisfies the element schema; an empty
      array is always accepted there. */
  lemma ArrayFieldReplaced(strict: bool, fs: seq<Field>, members: map<string, Value>, i: nat, items: seq<Value>)
    requires DistinctNames(fs) && i < |fs| && fs[i].schema.ArrayOf?
    requires Valid(strict, Object(fs), Map(members))
    ensures Valid(strict, Object(fs), Map(members[fs[i].name := Seq(items)]))
        <==> forall j | 0 <= j < |items| :: Valid(strict, fs[i].schema.elem, items[j])
    ensures Valid(strict, Object(fs), Map(members[fs[i].name := Seq([])]))
  {
    FieldReplaced(strict, fs, members, i, Seq(items));
    FieldReplaced(strict, fs, members, i, Seq([]));
  }

  /** In an accepted object, removing a declared field keeps the object accepted
      exactly when the field is optional. */
  lemma FieldRemoved(strict: bool, fs: seq<Field>, members: map<string, Value>, i: nat)
    requires DistinctNames(fs) && i < |fs|
    requires Valid(strict, Object(fs), Map(members))
    ensures Valid(strict, Object(fs), Map(members - {fs[i].name})) <==> !fs[i].required
  {
    var n := fs[i].name;
    var after := members - {n};
    forall j | 0 <= j < |fs| && j != i
      ensures FieldAccepted(strict, fs[j], after) == FieldAccepted(strict, fs[j], members)
    {
      assert fs[j].name != n;
    }
    assert FieldAccepted(strict, fs[i], after) == !fs[i].required;
  }

  /** Adding an undeclared key to an accepted object keeps it accepted exactly in
      permissive mode. */
  lemma UndeclaredKeyAdded(strict: bool, fs: seq<Field>, members: map<string, Value>, k: string, x: Value)
    requires k !in Names(fs)
    requires Valid(strict, Object(fs), Map(members))
    ensures Valid(strict, Object(fs), Map(members[k := x])) <==> !strict
  {
    var after := members[k := x];
    forall j | 0 <= j < |fs|
      ensures FieldAccepted(strict, fs[j], after) == FieldAccepted(strict, fs[j], members)
    {
      assert fs[j].name != k by { assert Names(fs)[j] == fs[j].name; }
    }
    assert k in after;
  }

  /** An open map accepts every key: setting any key of an accepted map keeps it
      accepted exactly when the new value satisfies the element schema. */
  lemma MapEntrySet(strict: bool, e: Schema, members: map<string, Value>, k: string, x: Value)
    requires Valid(strict, MapOf(e), Map(members))
    ensures Valid(strict, MapOf(e), Map(members[k := x])) <==> Valid(strict, e, x)
  {
    assert k in members[k := x];
  }

  /** Removing any entry of an accepted open map keeps it accepted. */
  lemma MapEntryRemoved(strict: bool, e: Schema, members: map<string, Value>, k: string)
    requires Valid(strict, MapOf(e), Map(members))
    ensures Valid(strict, MapOf(e), Map(members - {k}))
  {
  }

  /** Appending to an accepted array keeps it accepted exactly when the new element
      satisfies the element schema; the empty array is accepted by every array
      schema. */
  lemma ArrayAppended(strict: bool, e: Schema, items: seq<Value>, x: Value)
    requires Valid(strict, ArrayOf(e), Seq(items))
    ensures Valid(strict, ArrayOf(e), Seq(items + [x])) <==> Valid(strict, e, x)
    ensures Valid(strict, ArrayOf(e), Seq([]))
  {
    assert (items + [x])[|items|] == x;
    assert forall i | 0 <= i < |items| :: (items + [x])[i] == items[i];
  }
}
