/** Canonical text decides equality up to the order of object keys. */
module CanonicalNormalization {
  import opened Basics
  import opened CanonicalJson
  import opened CanonicalPrinting

  // ---------------------------------------------------------------- rebuilding an object

  predicate SortedByUnits(fields: seq<Field>) {
    forall i, j :: 0 <= i < j < |fields| ==> Less(fields[i].key, fields[j].key)
  }

  lemma {:induction false} SortInserts(fields: seq<Field>, x: Field)
    requires SortedByUnits(fields) && forall i :: 0 <= i < |fields| ==> fields[i].key != x.key
    ensures SortedByUnits(SortInsert(fields, x))
    ensures forall y :: y in SortInsert(fields, x) <==> y in fields || y == x
  {
    if |fields| > 0 {
      LessTotal(fields[0].key, x.key);
      var rest := fields[1..];
      assert fields == [fields[0]] + rest;
      if Less(fields[0].key, x.key) {
        SortInserts(rest, x);
        var tail := SortInsert(rest, x);
        forall i | 0 <= i < |tail| ensures Less(fields[0].key, tail[i].key) {
          assert tail[i] in tail;
        }
      } else {
        forall i | 0 <= i < |fields| ensures Less(x.key, fields[i].key) {
          if i > 0 { LessOrder(x.key, fields[0].key, fields[i].key); }
        }
      }
    }
  }

  lemma {:induction false} Sorts(fields: seq<Field>)
    requires DistinctKeys(fields)
    ensures SortedByUnits(SortFields(fields))
    ensures forall y :: y in SortFields(fields) <==> y in fields
  {
    if |fields| > 0 {
      var init, x := fields[..|fields| - 1], fields[|fields| - 1];
      Sorts(init);
      assert fields == init + [x];
      forall i | 0 <= i < |SortFields(init)| ensures SortFields(init)[i].key != x.key {
        assert SortFields(init)[i] in init;
      }
      SortInserts(SortFields(init), x);
    }
  }

  lemma {:induction false} IndexInserts(fields: seq<Field>, x: Field)
    requires Ordered(fields) && IsIndex(x.key) && forall i :: 0 <= i < |fields| ==> fields[i].key != x.key
    ensures Ordered(InsertIndex(fields, x))
    ensures forall y :: y in InsertIndex(fields, x) <==> y in fields || y == x
  {
    if |fields| > 0 {
      BeforeTotal(fields[0].key, x.key);
      var rest := fields[1..];
      assert fields == [fields[0]] + rest;
      hide Less, IsIndex, Decimal;
      if Before(fields[0].key, x.key) {
        IndexBefore(fields[0].key, x.key);
        IndexInserts(rest, x);
        var tail := InsertIndex(rest, x);
        forall i | 0 <= i < |tail| ensures Before(fields[0].key, tail[i].key) {
          assert tail[i] in tail;
        }
      } else {
        IndexBefore(fields[0].key, x.key);
        forall i | 0 <= i < |fields| ensures Before(x.key, fields[i].key) {
          if i > 0 { BeforeOrder(x.key, fields[0].key, fields[i].key); }
        }
      }
    }
  }

  lemma IndexBefore(s: Text, t: Text)
    requires IsIndex(t)
    ensures Before(s, t) <==> IsIndex(s) && Decimal(s) < Decimal(t)
  {
  }

  /** Assigning in code unit order keeps the enumeration order. */
  lemma Assigns(fields: seq<Field>, x: Field)
    requires Ordered(fields) && forall i :: 0 <= i < |fields| ==> Less(fields[i].key, x.key)
    ensures Ordered(Assign(fields, x))
    ensures forall y :: y in Assign(fields, x) <==> y in fields || (y == x && x.key != PROTO)
  {
    forall i | 0 <= i < |fields| ensures fields[i].key != x.key {
      LessOrder(fields[i].key, x.key, x.key);
    }
    hide Less, IsIndex, PROTO;
    if x.key != PROTO {
      if IsIndex(x.key) { IndexInserts(fields, x); }
    }
  }

  lemma {:induction false} AssignsAll(fields: seq<Field>)
    requires SortedByUnits(fields)
    ensures Ordered(AssignAll(fields))
    ensures forall y :: y in AssignAll(fields) <==> y in fields && y.key != PROTO
  {
    if |fields| > 0 {
      var init, x := fields[..|fields| - 1], fields[|fields| - 1];
      AssignsAll(init);
      assert fields == init + [x];
      forall i | 0 <= i < |AssignAll(init)| ensures Less(AssignAll(init)[i].key, x.key) {
        assert AssignAll(init)[i] in init;
      }
      Assigns(AssignAll(init), x);
    }
  }

  /** The rebuilt object has the same properties in enumeration order, except for the prototype key. */
  lemma Rebuilds(fields: seq<Field>)
    requires DistinctKeys(fields)
    ensures Ordered(Rebuild(fields))
    ensures forall y :: y in Rebuild(fields) <==> y in fields && y.key != PROTO
  {
    Sorts(fields);
    AssignsAll(SortFields(fields));
  }

  /** An ordered listing is determined by its members. */
  lemma {:induction false} OrderedUnique(xs: seq<Field>, ys: seq<Field>)
    requires Ordered(xs) && Ordered(ys) && forall y :: y in xs <==> y in ys
    ensures xs == ys
  {
    hide Before;
    SameEmptiness(xs, ys);
    if |xs| > 0 {
      FirstSame(xs, ys);
      forall y ensures y in xs[1..] <==> y in ys[1..] {
        RestMembers(xs, y);
        RestMembers(ys, y);
      }
      OrderedUnique(xs[1..], ys[1..]);
      assert xs == [xs[0]] + xs[1..] && ys == [ys[0]] + ys[1..];
    }
  }

  lemma SameEmptiness(xs: seq<Field>, ys: seq<Field>)
    requires forall y :: y in xs <==> y in ys
    ensures |xs| == 0 <==> |ys| == 0
  {
    if |xs| > 0 { assert xs[0] in ys; }
    if |ys| > 0 { assert ys[0] in xs; }
  }

  lemma RestMembers(xs: seq<Field>, y: Field)
    requires Ordered(xs) && |xs| > 0
    ensures y in xs[1..] <==> y in xs && y != xs[0]
  {
    if y in xs[1..] {
      var i :| 1 <= i < |xs| && xs[i] == y;
      BeforeOrder(xs[0].key, xs[i].key, xs[i].key);
    }
  }

  lemma FirstSame(xs: seq<Field>, ys: seq<Field>)
    requires Ordered(xs) && Ordered(ys) && |xs| > 0 && |ys| > 0 && forall y :: y in xs <==> y in ys
    ensures xs[0] == ys[0]
  {
    hide Before;
    assert xs[0] in ys && ys[0] in xs;
    var i :| 0 <= i < |ys| && ys[i] == xs[0];
    var j :| 0 <= j < |xs| && xs[j] == ys[0];
    BeforeOrder(xs[0].key, ys[0].key, xs[0].key);
  }

  // ---------------------------------------------------------------- equality up to key order

  /** As every JavaScript object: no two properties under one key, at any depth. */
  predicate WellFormed(v: Value) {
    match v
    case List(items) => forall i :: 0 <= i < |items| ==> WellFormed(items[i])
    case Object(fields) => DistinctKeys(fields) && forall i :: 0 <= i < |fields| ==> WellFormed(fields[i].value)
    case _ => true
  }

  predicate HasKey(fields: seq<Field>, key: Text) { exists i :: 0 <= i < |fields| && fields[i].key == key }

  /** Equal up to the order of object keys, leaving out prototype keys. */
  ghost predicate Equivalent(v: Value, w: Value) {
    match v
    case List(items) => w.List? && |items| == |w.items| && forall i :: 0 <= i < |items| ==>
      Equivalent(items[i], w.items[i])
    case Object(fields) =>
      && w.Object?
      && (forall i :: 0 <= i < |fields| && fields[i].key != PROTO ==> HasKey(w.fields, fields[i].key))
      && (forall j :: 0 <= j < |w.fields| && w.fields[j].key != PROTO ==> HasKey(fields, w.fields[j].key))
      && (forall i, j :: 0 <= i < |fields| && 0 <= j < |w.fields| && fields[i].key == w.fields[j].key
                         && fields[i].key != PROTO ==>
            Equivalent(fields[i].value, w.fields[j].value))
    case _ => v == w
  }

  lemma {:induction false} NormItemsAre(items: seq<Value>)
    ensures |NormItems(items)| == |items| && forall i :: 0 <= i < |items| ==> NormItems(items)[i] == Norm(items[i])
  {
    if |items| > 0 { NormItemsAre(items[..|items| - 1]); }
  }

  lemma {:induction false} NormFieldsAre(fields: seq<Field>)
    ensures |NormFields(fields)| == |fields|
    ensures forall i :: 0 <= i < |fields| ==> NormFields(fields)[i] == Field(fields[i].key, Norm(fields[i].value))
  {
    if |fields| > 0 { NormFieldsAre(fields[..|fields| - 1]); }
  }

  /** The properties of a normalized object. */
  lemma NormObject(fields: seq<Field>)
    requires DistinctKeys(fields)
    ensures Ordered(Rebuild(NormFields(fields)))
    ensures forall y :: y in Rebuild(NormFields(fields)) <==>
              exists i :: 0 <= i < |fields| && fields[i].key != PROTO
                          && y == Field(fields[i].key, Norm(fields[i].value))
  {
    hide Rebuild, Ordered, Norm;
    NormFieldsAre(fields);
    var xs := NormFields(fields);
    Rebuilds(xs);
    forall y ensures y in xs && y.key != PROTO <==>
                     exists i :: 0 <= i < |fields| && fields[i].key != PROTO
                                 && y == Field(fields[i].key, Norm(fields[i].value))
    {
      if y in xs && y.key != PROTO {
        var i :| 0 <= i < |xs| && xs[i] == y;
        assert y == Field(fields[i].key, Norm(fields[i].value));
      }
      if i :| 0 <= i < |fields| && fields[i].key != PROTO && y == Field(fields[i].key, Norm(fields[i].value)) {
        assert xs[i] == y;
      }
    }
  }

  /** Equivalent values have the same normal form, and only they. */
  lemma {:induction false} NormDecides(v: Value, w: Value)
    requires WellFormed(v) && WellFormed(w)
    ensures Norm(v) == Norm(w) <==> Equivalent(v, w)
    decreases v
  {
    if v.List? && w.List? {
      NormItemsAre(v.items);
      NormItemsAre(w.items);
      forall i | 0 <= i < |v.items| && i < |w.items| ensures Norm(v.items[i]) == Norm(w.items[i])
        <==> Equivalent(v.items[i], w.items[i]) {
        NormDecides(v.items[i], w.items[i]);
      }
      hide Norm, NormItems;
      ListDecides(v, w);
    } else if v.Object? && w.Object? {
      forall i, j | 0 <= i < |v.fields| && 0 <= j < |w.fields|
        ensures Norm(v.fields[i].value) == Norm(w.fields[j].value) <==> Equivalent(v.fields[i].value, w.fields[j].value)
      {
        NormDecides(v.fields[i].value, w.fields[j].value);
      }
      hide Norm, WellFormed;
      ObjectDecides(v, w);
    }
  }

  lemma ListDecides(v: Value, w: Value)
    requires v.List? && w.List?
    requires forall i :: 0 <= i < |v.items| && i < |w.items| ==>
             (Norm(v.items[i]) == Norm(w.items[i]) <==> Equivalent(v.items[i], w.items[i]))
    ensures Norm(v) == Norm(w) <==> Equivalent(v, w)
  {
    NormItemsAre(v.items);
    NormItemsAre(w.items);
    if NormItems(v.items) == NormItems(w.items) {
      assert |v.items| == |w.items|;
      forall i | 0 <= i < |v.items| ensures Norm(v.items[i]) == Norm(w.items[i]) {
        assert NormItems(v.items)[i] == NormItems(w.items)[i];
      }
    }
  }

  /** Objects with the same normal form have the same property, up to normal form, under each key. */
  lemma Matched(v: Value, w: Value, i: nat)
    requires v.Object? && w.Object? && DistinctKeys(v.fields) && DistinctKeys(w.fields) && Norm(v) == Norm(w)
    requires i < |v.fields| && v.fields[i].key != PROTO
    ensures exists j :: 0 <= j < |w.fields| && w.fields[j].key == v.fields[i].key
                        && Norm(w.fields[j].value) == Norm(v.fields[i].value)
  {
    hide Norm, Rebuild, NormFields, Ordered, DistinctKeys;
    NormOf(v);
    NormOf(w);
    NormObject(v.fields);
    NormObject(w.fields);
    var y := Field(v.fields[i].key, Norm(v.fields[i].value));
    assert y in Rebuild(NormFields(v.fields));
    var j :| 0 <= j < |w.fields| && w.fields[j].key != PROTO && y == Field(w.fields[j].key, Norm(w.fields[j].value));
  }

  lemma ObjectSame(v: Value, w: Value)
    requires v.Object? && w.Object? && DistinctKeys(v.fields) && DistinctKeys(w.fields)
    requires forall i, j :: 0 <= i < |v.fields| && 0 <= j < |w.fields| ==>
               (Equivalent(v.fields[i].value, w.fields[j].value)
                <==> Norm(v.fields[i].value) == Norm(w.fields[j].value))
    requires Norm(v) == Norm(w)
    ensures Equivalent(v, w)
  {
    hide Norm, PROTO;
    forall i | 0 <= i < |v.fields| && v.fields[i].key != PROTO ensures HasKey(w.fields, v.fields[i].key) {
      Matched(v, w, i);
    }
    forall j | 0 <= j < |w.fields| && w.fields[j].key != PROTO ensures HasKey(v.fields, w.fields[j].key) {
      Matched(w, v, j);
    }
    forall i, j | 0 <= i < |v.fields| && 0 <= j < |w.fields| && v.fields[i].key == w.fields[j].key
           && v.fields[i].key != PROTO
      ensures Equivalent(v.fields[i].value, w.fields[j].value)
    {
      Matched(v, w, i);
      var k :| 0 <= k < |w.fields| && w.fields[k].key == v.fields[i].key
        && Norm(w.fields[k].value) == Norm(v.fields[i].value);
      assert k == j;
    }
  }

  lemma NormOf(v: Value)
    requires v.Object?
    ensures Norm(v) == Object(Rebuild(NormFields(v.fields)))
  {
  }

  /** Every property of `xs`, up to normal form, is one of `ys`. */
  ghost predicate Covers(xs: seq<Field>, ys: seq<Field>) {
    forall i :: 0 <= i < |xs| && xs[i].key != PROTO ==>
      exists j :: 0 <= j < |ys| && ys[j].key == xs[i].key && Norm(ys[j].value) == Norm(xs[i].value)
  }

  lemma Included(xs: seq<Field>, ys: seq<Field>, y: Field)
    requires DistinctKeys(xs) && DistinctKeys(ys) && Covers(xs, ys) && y in Rebuild(NormFields(xs))
    ensures y in Rebuild(NormFields(ys))
  {
    hide Norm, Rebuild, NormFields, Ordered, DistinctKeys, PROTO;
    NormObject(xs);
    NormObject(ys);
    var i :| 0 <= i < |xs| && xs[i].key != PROTO && y == Field(xs[i].key, Norm(xs[i].value));
    var j :| 0 <= j < |ys| && ys[j].key == xs[i].key && Norm(ys[j].value) == Norm(xs[i].value);
    assert y == Field(ys[j].key, Norm(ys[j].value));
  }

  lemma CoveredSame(xs: seq<Field>, ys: seq<Field>)
    requires DistinctKeys(xs) && DistinctKeys(ys) && Covers(xs, ys) && Covers(ys, xs)
    ensures Rebuild(NormFields(xs)) == Rebuild(NormFields(ys))
  {
    hide Rebuild, NormFields, Ordered, Covers, DistinctKeys;
    forall y ensures y in Rebuild(NormFields(xs)) <==> y in Rebuild(NormFields(ys)) {
      if y in Rebuild(NormFields(xs)) { Included(xs, ys, y); }
      if y in Rebuild(NormFields(ys)) { Included(ys, xs, y); }
    }
    NormObject(xs);
    NormObject(ys);
    OrderedUnique(Rebuild(NormFields(xs)), Rebuild(NormFields(ys)));
  }

  lemma ObjectDecides(v: Value, w: Value)
    requires v.Object? && w.Object? && DistinctKeys(v.fields) && DistinctKeys(w.fields)
    requires forall i, j :: 0 <= i < |v.fields| && 0 <= j < |w.fields| ==>
               (Equivalent(v.fields[i].value, w.fields[j].value)
                <==> Norm(v.fields[i].value) == Norm(w.fields[j].value))
    ensures Norm(v) == Norm(w) <==> Equivalent(v, w)
  {
    hide Norm, PROTO;
    if Norm(v) == Norm(w) {
      hide Equivalent;
      ObjectSame(v, w);
    }
    if Equivalent(v, w) {
      EquivalentCovers(v, w);
      hide Equivalent, Covers, DistinctKeys;
      CoveredSame(v.fields, w.fields);
      NormOf(v);
      NormOf(w);
    }
  }

  lemma EquivalentCovers(v: Value, w: Value)
    requires v.Object? && w.Object? && Equivalent(v, w)
    requires forall i, j :: 0 <= i < |v.fields| && 0 <= j < |w.fields| ==>
               (Equivalent(v.fields[i].value, w.fields[j].value)
                <==> Norm(v.fields[i].value) == Norm(w.fields[j].value))
    ensures Covers(v.fields, w.fields) && Covers(w.fields, v.fields)
  {
    hide Norm, PROTO;
    forall i | 0 <= i < |v.fields| && v.fields[i].key != PROTO
      ensures exists j :: 0 <= j < |w.fields| && w.fields[j].key == v.fields[i].key
                          && Norm(w.fields[j].value) == Norm(v.fields[i].value)
    {
      assert HasKey(w.fields, v.fields[i].key);
      var j :| 0 <= j < |w.fields| && w.fields[j].key == v.fields[i].key;
    }
    forall j | 0 <= j < |w.fields| && w.fields[j].key != PROTO
      ensures exists i :: 0 <= i < |v.fields| && v.fields[i].key == w.fields[j].key
                          && Norm(v.fields[i].value) == Norm(w.fields[j].value)
    {
      assert HasKey(v.fields, w.fields[j].key);
      var i :| 0 <= i < |v.fields| && v.fields[i].key == w.fields[j].key;
    }
  }

  // ---------------------------------------------------------------- the main results

  /** Two values print the same canonical text exactly when they are equal up to key order, not counting
      prototype keys. */
  lemma CanonicalDecides(v: Value, w: Value)
    requires WellFormed(v) && WellFormed(w)
    ensures Canonicalize(v) == Canonicalize(w) <==> Equivalent(v, w)
  {
    hide Norm, Print, Equivalent;
    NormDecides(v, w);
    PrintInjective(Norm(v), Norm(w));
  }

  lemma {:induction false} NormWellFormed(v: Value)
    requires WellFormed(v)
    ensures WellFormed(Norm(v)) && Equivalent(v, Norm(v))
    decreases v
  {
    if v.List? {
      NormItemsAre(v.items);
      forall i | 0 <= i < |v.items| ensures WellFormed(Norm(v.items[i])) && Equivalent(v.items[i], Norm(v.items[i])) {
        NormWellFormed(v.items[i]);
      }
    } else if v.Object? {
      forall i | 0 <= i < |v.fields|
        ensures WellFormed(Norm(v.fields[i].value)) && Equivalent(v.fields[i].value, Norm(v.fields[i].value)) {
        NormWellFormed(v.fields[i].value);
      }
      hide Norm;
      ObjectWellFormed(v);
    }
  }

  lemma OrderedDistinct(xs: seq<Field>)
    requires Ordered(xs)
    ensures DistinctKeys(xs)
  {
    forall i, j | 0 <= i < j < |xs| ensures xs[i].key != xs[j].key {
      BeforeOrder(xs[i].key, xs[j].key, xs[j].key);
    }
  }

  lemma ObjectWellFormed(v: Value)
    requires v.Object? && DistinctKeys(v.fields)
    requires forall i :: 0 <= i < |v.fields| ==>
             WellFormed(Norm(v.fields[i].value)) && Equivalent(v.fields[i].value, Norm(v.fields[i].value))
    ensures WellFormed(Norm(v)) && Equivalent(v, Norm(v))
  {
    hide Norm, Rebuild, NormFields, Before;
    NormOf(v);
    NormObject(v.fields);
    var ys := Rebuild(NormFields(v.fields));
    OrderedDistinct(ys);
    hide Ordered;
    forall j | 0 <= j < |ys|
      ensures WellFormed(ys[j].value) && HasKey(v.fields, ys[j].key)
      ensures forall i :: 0 <= i < |v.fields| && v.fields[i].key == ys[j].key ==>
              Equivalent(v.fields[i].value, ys[j].value)
    {
      assert ys[j] in ys;
    }
    forall i | 0 <= i < |v.fields| && v.fields[i].key != PROTO ensures HasKey(ys, v.fields[i].key) {
      assert Field(v.fields[i].key, Norm(v.fields[i].value)) in ys;
    }
  }

  /** On own properties normalizing is idempotent. */
  lemma OwnIdempotent(v: Value)
    requires WellFormed(v)
    ensures Norm(Norm(v)) == Norm(v)
  {
    hide Norm, Equivalent, WellFormed;
    NormWellFormed(v);
    NormDecides(v, Norm(v));
  }

  /** The prototype key is the exception: it is dropped, so an object with it and one without print the
      same. */
  lemma PrototypeKeyIsLost(v: Value)
    requires WellFormed(v)
    ensures Object([Field(PROTO, v)]) != Object([])
            && Canonicalize(Object([Field(PROTO, v)])) == Canonicalize(Object([]))
  {
    hide Norm, Print, PROTO;
    CanonicalDecides(Object([Field(PROTO, v)]), Object([]));
  }
}
