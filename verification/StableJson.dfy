/** stableValue of the cloud provider sync (apps/server/src/cloud-provider-sync.ts): JSON
    values with every object's keys in order, so that comparing the text compares the
    values without regard to key order. */
module StableJson {
  import opened Strings

  datatype Json =
    | Null
    | Bool(b: bool)
    | Number(n: int)
    | Text(s: string)
    | Arr(items: seq<Json>)
    | Obj(fields: seq<Field>)

  datatype Field = Field(key: string, value: Json)

  /** Object keys are unique, all the way down. */
  ghost predicate WellFormed(v: Json) {
    match v
    case Arr(items) => forall i :: 0 <= i < |items| ==> WellFormed(items[i])
    case Obj(fields) =>
      && (forall i, j :: 0 <= i < j < |fields| ==> fields[i].key != fields[j].key)
      && (forall i :: 0 <= i < |fields| ==> WellFormed(fields[i].value))
    case _ => true
  }

  function Insert(f: Field, fields: seq<Field>): seq<Field> {
    if fields == [] || Before(f.key, fields[0].key) then [f] + fields
    else [fields[0]] + Insert(f, fields[1..])
  }

  /** `keys.sort()` on the fields. */
  function Sorted(fields: seq<Field>): seq<Field> {
    if fields == [] then [] else Insert(fields[0], Sorted(fields[1..]))
  }

  function StableValue(v: Json): Json {
    match v
    case Arr(items) => Arr(StableItems(items))
    case Obj(fields) => Obj(Sorted(StableFields(fields)))
    case _ => v
  }

  function StableItems(items: seq<Json>): (r: seq<Json>)
    ensures |r| == |items| && forall i :: 0 <= i < |items| ==> r[i] == StableValue(items[i])
  {
    if items == [] then [] else [StableValue(items[0])] + StableItems(items[1..])
  }

  function StableFields(fields: seq<Field>): (r: seq<Field>)
    ensures |r| == |fields|
    ensures forall i :: 0 <= i < |fields| ==> r[i] == Field(fields[i].key, StableValue(fields[i].value))
  {
    if fields == [] then []
    else [Field(fields[0].key, StableValue(fields[0].value))] + StableFields(fields[1..])
  }

  /** The same value but for the order of keys. */
  ghost predicate Same(v: Json, w: Json)
    decreases v
  {
    match v
    case Arr(items) =>
      w.Arr? && |w.items| == |items| && forall i :: 0 <= i < |items| ==> Same(items[i], w.items[i])
    case Obj(fields) =>
      && w.Obj? && |w.fields| == |fields|
      && forall i :: 0 <= i < |fields| ==> Matched(fields[i], w.fields)
    case _ => v == w
  }

  ghost predicate Matched(f: Field, fields: seq<Field>)
    decreases f, 1
  {
    exists j :: 0 <= j < |fields| && SameField(f, fields[j])
  }

  ghost predicate SameField(f: Field, g: Field)
    decreases f, 0
  {
    f.key == g.key && Same(f.value, g.value)
  }

  // Sorting

  /** Keys strictly in order. */
  ghost predicate Ordered(fields: seq<Field>) {
    forall i, j :: 0 <= i < j < |fields| ==> Before(fields[i].key, fields[j].key)
  }

  ghost predicate UniqueKeys(fields: seq<Field>) {
    forall i, j :: 0 <= i < j < |fields| ==> fields[i].key != fields[j].key
  }

  lemma {:induction false} InsertHolds(f: Field, fields: seq<Field>, g: Field)
    ensures g in Insert(f, fields) <==> g == f || g in fields
    ensures |Insert(f, fields)| == |fields| + 1
  {
    hide Before;
    if !(fields == [] || Before(f.key, fields[0].key)) {
      InsertHolds(f, fields[1..], g);
      assert fields == [fields[0]] + fields[1..];
    }
  }

  lemma {:induction false} SortedHolds(fields: seq<Field>, g: Field)
    ensures g in Sorted(fields) <==> g in fields
    ensures |Sorted(fields)| == |fields|
  {
    if fields != [] {
      SortedHolds(fields[1..], g);
      InsertHolds(fields[0], Sorted(fields[1..]), g);
      assert fields == [fields[0]] + fields[1..];
    }
  }

  lemma {:induction false} InsertOrdered(f: Field, fields: seq<Field>)
    requires Ordered(fields) && forall g :: g in fields ==> g.key != f.key
    ensures Ordered(Insert(f, fields))
  {
    hide Before;
    if fields != [] {
      if Before(f.key, fields[0].key) {
        forall i | 0 < i < |fields| ensures Before(f.key, fields[i].key) {
          BeforeTransitive(f.key, fields[0].key, fields[i].key);
        }
      } else {
        var rest := Insert(f, fields[1..]);
        InsertOrdered(f, fields[1..]);
        BeforeTotal(f.key, fields[0].key);
        forall g | g in rest ensures Before(fields[0].key, g.key) {
          InsertHolds(f, fields[1..], g);
        }
      }
    }
  }

  lemma {:induction false} SortedOrdered(fields: seq<Field>)
    requires UniqueKeys(fields)
    ensures Ordered(Sorted(fields))
  {
    if fields != [] {
      SortedOrdered(fields[1..]);
      forall g | g in Sorted(fields[1..]) ensures g.key != fields[0].key {
        SortedHolds(fields[1..], g);
      }
      InsertOrdered(fields[0], Sorted(fields[1..]));
    }
  }

  /** Ordered lists with the same fields are the same list. */
  lemma {:induction false} OrderedUnique(a: seq<Field>, b: seq<Field>)
    requires Ordered(a) && Ordered(b) && |a| == |b|
    requires forall f :: f in a ==> f in b
    ensures a == b
  {
    hide Before;
    if a != [] {
      FirstAgrees(a, b);
      forall f | f in a[1..] ensures f in b[1..] {
        var i :| 0 <= i < |a[1..]| && a[1..][i] == f;
        assert a[i + 1] == f && f in b;
        BeforeAsymmetric(a[0].key, f.key);
        assert b == [b[0]] + b[1..];
      }
      OrderedUnique(a[1..], b[1..]);
    }
  }

  /** As many fields of `a` are in `b` as it holds, so its first field is in `a` too. */
  lemma HeadIn(a: seq<Field>, b: seq<Field>)
    requires b != [] && Ordered(a) && |a| == |b|
    requires forall f :: f in a ==> f in b
    ensures b[0] in a
  {
    if b[0] !in a {
      forall f | f in a ensures f in b[1..] {
        assert b == [b[0]] + b[1..];
      }
      NoRoom(a, b[1..]);
    }
  }

  lemma FirstAgrees(a: seq<Field>, b: seq<Field>)
    requires a != [] && Ordered(a) && Ordered(b) && |a| == |b|
    requires forall f :: f in a ==> f in b
    ensures a[0] == b[0]
  {
    hide Before;
    HeadIn(a, b);
    var i :| 0 <= i < |a| && a[i] == b[0];
    assert a[0] in a && a[0] in b;
    var j :| 0 <= j < |b| && b[j] == a[0];
    if i > 0 {
      BeforeAsymmetric(a[0].key, b[0].key);
    }
  }

  /** Ordered fields, each found in a shorter list: impossible. */
  lemma {:induction false} NoRoom(a: seq<Field>, b: seq<Field>)
    requires Ordered(a) && (forall f :: f in a ==> f in b)
    ensures |a| <= |b|
  {
    hide Before;
    if a != [] {
      assert a[0] in a && a[0] in b;
      var j :| 0 <= j < |b| && b[j] == a[0];
      var rest := b[..j] + b[j + 1..];
      forall f | f in a[1..] ensures f in rest {
        var i :| 0 <= i < |a[1..]| && a[1..][i] == f;
        BeforeAsymmetric(a[0].key, a[i + 1].key);
        assert a[i + 1] in b;
        var k :| 0 <= k < |b| && b[k] == f;
        assert k != j;
        assert f == if k < j then rest[k] else rest[k - 1];
      }
      NoRoom(a[1..], rest);
    }
  }

  // The theorem

  lemma {:induction false} StableIffSame(v: Json, w: Json)
    requires WellFormed(v) && WellFormed(w)
    ensures StableValue(v) == StableValue(w) <==> Same(v, w)
    decreases v
  {
    match v
    case Arr(items) =>
      if w.Arr? && |w.items| == |items| {
        forall i | 0 <= i < |items| ensures StableValue(items[i]) == StableValue(w.items[i]) <==> Same(items[i], w.items[i]) {
          StableIffSame(items[i], w.items[i]);
        }
        if StableValue(v) == StableValue(w) {
          assert forall i :: 0 <= i < |items| ==> StableItems(items)[i] == StableItems(w.items)[i];
        }
      }
    case Obj(fields) =>
      if w.Obj? && |w.fields| == |fields| {
        forall i, j | 0 <= i < |fields| && 0 <= j < |w.fields|
          ensures StableFields(fields)[i] == StableFields(w.fields)[j] <==> SameField(fields[i], w.fields[j])
        {
          StableIffSame(fields[i].value, w.fields[j].value);
        }
        SortedAgree(StableFields(fields), StableFields(w.fields));
        ObjIff(fields, w.fields);
      } else if w.Obj? {
        SortedLengths(StableFields(fields), StableFields(w.fields));
      }
    case _ =>
  }

  lemma SortedLengths(a: seq<Field>, b: seq<Field>)
    ensures Sorted(a) == Sorted(b) ==> |a| == |b|
  {
    SortedHolds(a, Field("", Null));
    SortedHolds(b, Field("", Null));
  }

  /** Sorting two lists of unique keys and one length gives one list exactly when each field
      of the first is in the second. */
  lemma SortedAgree(a: seq<Field>, b: seq<Field>)
    requires UniqueKeys(a) && UniqueKeys(b) && |a| == |b|
    ensures Sorted(a) == Sorted(b) <==> forall f :: f in a ==> f in b
  {
    SortedLengths(a, b);
    SortedHolds(a, Field("", Null));
    SortedHolds(b, Field("", Null));
    forall f ensures (f in Sorted(a) <==> f in a) && (f in Sorted(b) <==> f in b) {
      SortedHolds(a, f);
      SortedHolds(b, f);
    }
    SortedOrdered(a);
    SortedOrdered(b);
    hide Sorted, Ordered;
    if forall f :: f in a ==> f in b {
      OrderedUnique(Sorted(a), Sorted(b));
    }
  }

  lemma MatchedIff(a: Field, b: seq<Field>, f: Field, others: seq<Field>)
    requires |b| == |others|
    requires forall j :: 0 <= j < |others| ==> (a == b[j] <==> SameField(f, others[j]))
    ensures a in b <==> Matched(f, others)
  {
    hide SameField;
  }

  lemma ObjIff(fields: seq<Field>, others: seq<Field>)
    requires |fields| == |others|
    requires forall i, j :: 0 <= i < |fields| && 0 <= j < |others| ==>
      (StableFields(fields)[i] == StableFields(others)[j] <==> SameField(fields[i], others[j]))
    ensures (forall f :: f in StableFields(fields) ==> f in StableFields(others)) <==> Same(Obj(fields), Obj(others))
  {
    hide SameField, Matched, StableFields;
    var a, b := StableFields(fields), StableFields(others);
    forall i | 0 <= i < |fields| ensures a[i] in b <==> Matched(fields[i], others) {
      MatchedIff(a[i], b, fields[i], others);
    }
    if Same(Obj(fields), Obj(others)) {
      forall f | f in a ensures f in b {
        var i :| 0 <= i < |a| && a[i] == f;
        assert Matched(fields[i], others);
      }
    } else {
      var i :| 0 <= i < |fields| && !Matched(fields[i], others);
      assert a[i] in a;
    }
  }
}
