/** What normalizing leaves besides own properties: assigning `__proto__` to the rebuilt object sets its
    prototype instead of adding a property.  That decides whether the result can be normalized again. */
module CanonicalPrototypes {
  import opened Basics
  import opened CanonicalJson
  import opened CanonicalNormalization

  /** What is neither array nor object. */
  type Atom = v: Value | !v.List? && !v.Object? witness Null

  /** A normalized value with the prototypes of its objects. */
  datatype Made = Plain(value: Atom) | Elements(items: seq<Made>)
      | Record(fields: seq<Member<Made>>, prototype: Prototype)

  /** The prototype of plain objects, none, or the object that was assigned. */
  datatype Prototype = Standard | NoPrototype | Inherits(object: Made)

  // ---------------------------------------------------------------- normalizing

  /** What assigning the members in turn does to the prototype: an object or array becomes it, null
      removes it, anything else is ignored. */
  function PrototypeOf(ms: seq<Member<Made>>): Prototype {
    if |ms| == 0 then Standard
    else
      var x := ms[|ms| - 1];
      if x.key == PROTO && !x.value.Plain? then Inherits(x.value)
      else if x.key == PROTO && x.value.value.Null? then NoPrototype
      else PrototypeOf(ms[..|ms| - 1])
  }

  function MakeRecord(ms: seq<Member<Made>>): Made { Record(Rebuild(ms), PrototypeOf(ms)) }

  /** `norm` of a value as it is parsed: objects with the standard prototype. */
  function Make(v: Value): Made {
    match v
    case List(items) => Elements(MakeItems(items))
    case Object(fields) => MakeRecord(MakeFields(fields))
    case _ => Plain(v)
  }

  function MakeItems(items: seq<Value>): seq<Made> {
    if |items| == 0 then [] else MakeItems(items[..|items| - 1]) + [Make(items[|items| - 1])]
  }

  function MakeFields(fields: seq<Field>): seq<Member<Made>> {
    if |fields| == 0 then []
    else MakeFields(fields[..|fields| - 1]) + [Member.Field(fields[|fields| - 1].key, Make(fields[|fields| - 1].value))]
  }

  /** `norm` of what `norm` returned: an object with another prototype than the standard one or none is
      refused. */
  function Remake(m: Made): Option<Made> {
    match m
    case Plain(_) => Some(m)
    case Elements(items) => if RemakeItems(items).Some? then Some(Elements(RemakeItems(items).value)) else None
    case Record(fields, prototype) =>
      if prototype.Inherits? || RemakeFields(fields).None? then None else Some(MakeRecord(RemakeFields(fields).value))
  }

  function RemakeItems(items: seq<Made>): Option<seq<Made>> {
    if |items| == 0 then Some([])
    else
      var init, last := RemakeItems(items[..|items| - 1]), Remake(items[|items| - 1]);
      if init.Some? && last.Some? then Some(init.value + [last.value]) else None
  }

  function RemakeFields(fields: seq<Member<Made>>): Option<seq<Member<Made>>> {
    if |fields| == 0 then Some([])
    else
      var init, last := RemakeFields(fields[..|fields| - 1]), Remake(fields[|fields| - 1].value);
      if init.Some? && last.Some? then Some(init.value + [Member.Field(fields[|fields| - 1].key, last.value)]) else None
  }

  // ---------------------------------------------------------------- own properties

  /** The own properties, which are all that printing shows. */
  function Own(m: Made): Value {
    match m
    case Plain(v) => v
    case Elements(items) => List(OwnItems(items))
    case Record(fields, _) => Object(OwnFields(fields))
  }

  function OwnItems(items: seq<Made>): seq<Value> {
    if |items| == 0 then [] else OwnItems(items[..|items| - 1]) + [Own(items[|items| - 1])]
  }

  function OwnField(x: Member<Made>): Field { Member.Field(x.key, Own(x.value)) }

  function OwnFields(fields: seq<Member<Made>>): (xs: seq<Field>)
    ensures |xs| == |fields|
  {
    if |fields| == 0 then []
    else OwnFields(fields[..|fields| - 1]) + [Member.Field(fields[|fields| - 1].key, Own(fields[|fields| - 1].value))]
  }

  lemma {:induction false} OwnAt(fields: seq<Member<Made>>, i: nat)
    requires i < |fields|
    ensures OwnFields(fields)[i] == OwnField(fields[i])
  {
    if i < |fields| - 1 { OwnAt(fields[..|fields| - 1], i); }
  }

  lemma OwnSplits(xs: seq<Member<Made>>, ys: seq<Member<Made>>)
    ensures OwnFields(xs + ys) == OwnFields(xs) + OwnFields(ys)
  {
    forall i | 0 <= i < |xs + ys| ensures OwnFields(xs + ys)[i] == (OwnFields(xs) + OwnFields(ys))[i] {
      OwnAt(xs + ys, i);
      if i < |xs| { OwnAt(xs, i); } else { OwnAt(ys, i - |xs|); }
    }
  }

  lemma OwnOne(x: Member<Made>)
    ensures OwnFields([x]) == [OwnField(x)]
  {
    OwnAt([x], 0);
  }

  lemma {:induction false} OwnSortInserts(fields: seq<Member<Made>>, x: Member<Made>)
    ensures OwnFields(SortInsert(fields, x)) == SortInsert(OwnFields(fields), OwnField(x))
  {
    OwnOne(x);
    if |fields| > 0 {
      OwnAt(fields, 0);
      var rest := fields[1..];
      assert fields == [fields[0]] + rest;
      OwnSplits([fields[0]], rest);
      OwnOne(fields[0]);
      assert OwnFields(fields)[1..] == OwnFields(rest);
      if Less(fields[0].key, x.key) {
        OwnSortInserts(rest, x);
        OwnSplits([fields[0]], SortInsert(rest, x));
      } else {
        OwnSplits([x], fields);
      }
    }
  }

  lemma {:induction false} OwnSorts(fields: seq<Member<Made>>)
    ensures OwnFields(SortFields(fields)) == SortFields(OwnFields(fields))
  {
    if |fields| > 0 {
      OwnSorts(fields[..|fields| - 1]);
      OwnSortInserts(SortFields(fields[..|fields| - 1]), fields[|fields| - 1]);
      assert OwnFields(fields)[..|fields| - 1] == OwnFields(fields[..|fields| - 1]);
    }
  }

  lemma {:induction false} OwnIndexInserts(fields: seq<Member<Made>>, x: Member<Made>)
    requires IsIndex(x.key)
    ensures OwnFields(InsertIndex(fields, x)) == InsertIndex(OwnFields(fields), OwnField(x))
  {
    OwnOne(x);
    if |fields| > 0 {
      OwnAt(fields, 0);
      var rest := fields[1..];
      assert fields == [fields[0]] + rest;
      OwnSplits([fields[0]], rest);
      OwnOne(fields[0]);
      assert OwnFields(fields)[1..] == OwnFields(rest);
      if IsIndex(fields[0].key) && Decimal(fields[0].key) < Decimal(x.key) {
        OwnIndexInserts(rest, x);
        OwnSplits([fields[0]], InsertIndex(rest, x));
      } else {
        OwnSplits([x], fields);
      }
    }
  }

  lemma {:induction false} OwnAssigns(fields: seq<Member<Made>>)
    ensures OwnFields(AssignAll(fields)) == AssignAll(OwnFields(fields))
  {
    hide IsIndex, PROTO;
    if |fields| > 0 {
      var init, x := fields[..|fields| - 1], fields[|fields| - 1];
      OwnAssigns(init);
      assert OwnFields(fields)[..|fields| - 1] == OwnFields(init);
      OwnOne(x);
      if x.key != PROTO {
        if IsIndex(x.key) { OwnIndexInserts(AssignAll(init), x); } else { OwnSplits(AssignAll(init), [x]); }
      }
    }
  }

  lemma OwnRebuilds(fields: seq<Member<Made>>)
    ensures OwnFields(Rebuild(fields)) == Rebuild(OwnFields(fields))
  {
    hide SortFields, AssignAll;
    OwnSorts(fields);
    OwnAssigns(SortFields(fields));
  }

  /** Normalizing with prototypes shows the own properties of the normal form. */
  lemma {:induction false} MakeOwns(v: Value)
    ensures Own(Make(v)) == Norm(v)
    decreases v, 1
  {
    match v
    case List(items) => MakeItemsOwn(items);
    case Object(fields) => MakeFieldsOwn(fields); OwnRebuilds(MakeFields(fields));
    case _ =>
  }

  lemma {:induction false} MakeItemsOwn(items: seq<Value>)
    ensures OwnItems(MakeItems(items)) == NormItems(items)
    decreases items, 0
  {
    if |items| > 0 {
      MakeItemsOwn(items[..|items| - 1]);
      MakeOwns(items[|items| - 1]);
    }
  }

  lemma {:induction false} MakeFieldsOwn(fields: seq<Field>)
    ensures OwnFields(MakeFields(fields)) == NormFields(fields)
    decreases fields, 0
  {
    if |fields| > 0 {
      MakeFieldsOwn(fields[..|fields| - 1]);
      MakeOwns(fields[|fields| - 1].value);
    }
  }

  /** A second pass that is not refused normalizes the own properties. */
  lemma {:induction false} RemakeOwns(m: Made)
    requires Remake(m).Some?
    ensures Own(Remake(m).value) == Norm(Own(m))
    decreases m, 1
  {
    match m
    case Plain(_) =>
    case Elements(items) => RemakeItemsOwn(items);
    case Record(fields, _) =>
      RemakeFieldsOwn(fields);
      OwnRebuilds(RemakeFields(fields).value);
  }

  lemma {:induction false} RemakeItemsOwn(items: seq<Made>)
    requires RemakeItems(items).Some?
    ensures OwnItems(RemakeItems(items).value) == NormItems(OwnItems(items))
    decreases items, 0
  {
    if |items| > 0 {
      RemakeItemsOwn(items[..|items| - 1]);
      RemakeOwns(items[|items| - 1]);
    }
  }

  lemma {:induction false} RemakeFieldsOwn(fields: seq<Member<Made>>)
    requires RemakeFields(fields).Some?
    ensures OwnFields(RemakeFields(fields).value) == NormFields(OwnFields(fields))
    decreases fields, 0
  {
    if |fields| > 0 {
      var init, x := fields[..|fields| - 1], fields[|fields| - 1];
      RemakeFieldsOwn(init);
      RemakeOwns(x.value);
      var y: Member<Made> := Member.Field(x.key, Remake(x.value).value);
      OwnSplits(RemakeFields(init).value, [y]);
      OwnOne(y);
      assert OwnFields(fields)[..|fields| - 1] == OwnFields(init);
    }
  }

  // ---------------------------------------------------------------- when a second pass succeeds

  predicate Container(v: Value) { v.List? || v.Object? }

  /** No `__proto__` property at any depth is bound to an object or array. */
  predicate Clean(v: Value) {
    match v
    case List(items) => forall i :: 0 <= i < |items| ==> Clean(items[i])
    case Object(fields) => forall i :: 0 <= i < |fields| ==>
      if fields[i].key == PROTO then !Container(fields[i].value) else Clean(fields[i].value)
    case _ => true
  }

  predicate Remakes(ms: seq<Member<Made>>) { forall i :: 0 <= i < |ms| ==> Remake(ms[i].value).Some? }

  predicate RemakesButProto(ms: seq<Member<Made>>) {
    forall i :: 0 <= i < |ms| && ms[i].key != PROTO ==> Remake(ms[i].value).Some?
  }

  lemma {:induction false} FieldsRemake(ms: seq<Member<Made>>)
    ensures RemakeFields(ms).Some? <==> Remakes(ms)
  {
    hide Remake;
    if |ms| > 0 {
      var init := ms[..|ms| - 1];
      FieldsRemake(init);
      if Remakes(ms) {
        assert forall i :: 0 <= i < |init| ==> init[i] == ms[i];
      }
      if Remakes(init) && Remake(ms[|ms| - 1].value).Some? {
        forall i | 0 <= i < |ms| ensures Remake(ms[i].value).Some? {
          if i < |init| { assert init[i] == ms[i]; }
        }
      }
    }
  }

  lemma {:induction false} ItemsRemake(ms: seq<Made>)
    ensures RemakeItems(ms).Some? <==> forall i :: 0 <= i < |ms| ==> Remake(ms[i]).Some?
  {
    hide Remake;
    if |ms| > 0 {
      var init := ms[..|ms| - 1];
      ItemsRemake(init);
      assert forall i :: 0 <= i < |init| ==> init[i] == ms[i];
    }
  }

  lemma RemakesJoin(xs: seq<Member<Made>>, ys: seq<Member<Made>>)
    ensures RemakesButProto(xs + ys) <==> RemakesButProto(xs) && RemakesButProto(ys)
    ensures Remakes(xs + ys) <==> Remakes(xs) && Remakes(ys)
  {
    hide Remake, PROTO;
    assert forall i :: 0 <= i < |xs| ==> (xs + ys)[i] == xs[i];
    assert forall i :: 0 <= i < |ys| ==> (xs + ys)[|xs| + i] == ys[i];
  }

  lemma {:induction false} SortInsertRemakes(ms: seq<Member<Made>>, x: Member<Made>)
    ensures RemakesButProto(SortInsert(ms, x)) <==> RemakesButProto(ms) && RemakesButProto([x])
  {
    hide RemakesButProto, Less;
    if |ms| > 0 {
      assert ms == [ms[0]] + ms[1..];
      RemakesJoin([ms[0]], ms[1..]);
      SortInsertRemakes(ms[1..], x);
      RemakesJoin([ms[0]], SortInsert(ms[1..], x));
      RemakesJoin([x], ms);
    } else {
      RemakesJoin([], [x]);
      assert [] + [x] == [x] && ms == [];
    }
  }

  lemma {:induction false} SortRemakes(ms: seq<Member<Made>>)
    ensures RemakesButProto(SortFields(ms)) <==> RemakesButProto(ms)
  {
    hide RemakesButProto;
    if |ms| > 0 {
      var init, x := ms[..|ms| - 1], ms[|ms| - 1];
      SortRemakes(init);
      SortInsertRemakes(SortFields(init), x);
      assert ms == init + [x];
      RemakesJoin(init, [x]);
    } else {
      assert SortFields(ms) == ms;
    }
  }

  lemma {:induction false} InsertRemakes(ms: seq<Member<Made>>, x: Member<Made>)
    requires IsIndex(x.key)
    ensures Remakes(InsertIndex(ms, x)) <==> Remakes(ms) && Remakes([x])
  {
    hide Remakes, IsIndex, Decimal;
    if |ms| > 0 {
      assert ms == [ms[0]] + ms[1..];
      RemakesJoin([ms[0]], ms[1..]);
      InsertRemakes(ms[1..], x);
      RemakesJoin([ms[0]], InsertIndex(ms[1..], x));
      RemakesJoin([x], ms);
    } else {
      RemakesJoin([], [x]);
      assert [] + [x] == [x] && ms == [];
    }
  }

  lemma OneRemakes(x: Member<Made>)
    ensures Remakes([x]) <==> Remake(x.value).Some?
    ensures RemakesButProto([x]) <==> x.key == PROTO || Remake(x.value).Some?
  {
    hide Remake, PROTO;
    assert [x][0] == x;
  }

  lemma {:induction false} AssignRemakes(ms: seq<Member<Made>>)
    ensures Remakes(AssignAll(ms)) <==> RemakesButProto(ms)
  {
    hide Remakes, RemakesButProto, IsIndex, PROTO, Remake;
    if |ms| > 0 {
      var init, x := ms[..|ms| - 1], ms[|ms| - 1];
      AssignRemakes(init);
      assert ms == init + [x];
      RemakesJoin(init, [x]);
      OneRemakes(x);
      if x.key != PROTO {
        if IsIndex(x.key) { InsertRemakes(AssignAll(init), x); } else { RemakesJoin(AssignAll(init), [x]); }
      }
    } else {
      EmptyRemakes(ms);
    }
  }

  lemma EmptyRemakes(ms: seq<Member<Made>>)
    requires |ms| == 0
    ensures Remakes(AssignAll(ms)) && RemakesButProto(ms)
  {
  }

  /** The rebuilt members can be normalized again exactly when all but a prototype could. */
  lemma RebuildRemakes(ms: seq<Member<Made>>)
    ensures RemakeFields(Rebuild(ms)).Some? <==> RemakesButProto(ms)
  {
    hide Remakes, RemakesButProto, SortFields, AssignAll;
    SortRemakes(ms);
    AssignRemakes(SortFields(ms));
    FieldsRemake(Rebuild(ms));
  }

  lemma {:induction false} MakeFieldsAre(fields: seq<Field>)
    ensures |MakeFields(fields)| == |fields|
    ensures forall i :: 0 <= i < |fields| ==>
            MakeFields(fields)[i] == Member.Field(fields[i].key, Make(fields[i].value))
  {
    if |fields| > 0 { MakeFieldsAre(fields[..|fields| - 1]); }
  }

  lemma {:induction false} MakeItemsAre(items: seq<Value>)
    ensures |MakeItems(items)| == |items|
    ensures forall i :: 0 <= i < |items| ==> MakeItems(items)[i] == Make(items[i])
  {
    if |items| > 0 { MakeItemsAre(items[..|items| - 1]); }
  }

  /** The prototype is an assigned object exactly when some `__proto__` member is one. */
  lemma {:induction false} PrototypeInherits(ms: seq<Member<Made>>)
    requires forall i, j :: 0 <= i < j < |ms| ==> ms[i].key != ms[j].key
    ensures PrototypeOf(ms).Inherits? <==> exists i :: 0 <= i < |ms| && ms[i].key == PROTO && !ms[i].value.Plain?
  {
    hide PROTO;
    if |ms| > 0 {
      var init := ms[..|ms| - 1];
      PrototypeInherits(init);
      assert forall i :: 0 <= i < |init| ==> init[i] == ms[i];
    }
  }

  lemma PlainWhenMade(v: Value)
    ensures Make(v).Plain? <==> !Container(v)
  {
  }

  lemma ObjectRemakes(fields: seq<Field>)
    requires DistinctKeys(fields)
    ensures Remake(Make(Object(fields))).Some?
            <==> forall i :: 0 <= i < |fields| ==>
              if fields[i].key == PROTO then !Container(fields[i].value) else Remake(Make(fields[i].value)).Some?
  {
    var ms := MakeFields(fields);
    assert Make(Object(fields)) == MakeRecord(ms);
    RecordRemakes(ms);
    hide Make, Remake, Rebuild, PROTO, MakeFields;
    MakeFieldsAre(fields);
    PrototypeInherits(ms);
    RebuildRemakes(ms);
    forall i | 0 <= i < |fields| ensures ms[i].value.Plain? <==> !Container(fields[i].value) {
      PlainWhenMade(fields[i].value);
    }
    if PrototypeOf(ms).Inherits? {
      var i :| 0 <= i < |ms| && ms[i].key == PROTO && !ms[i].value.Plain?;
      assert fields[i].key == PROTO && Container(fields[i].value);
    }
  }

  lemma RecordRemakes(ms: seq<Member<Made>>)
    ensures Remake(MakeRecord(ms)).Some? <==> !PrototypeOf(ms).Inherits? && RemakeFields(Rebuild(ms)).Some?
  {
    hide Rebuild, PrototypeOf, RemakeFields;
  }

  /** What was normalized can be normalized again exactly when no `__proto__` property at any depth was
      bound to an object or array. */
  lemma {:induction false} RemakesIff(v: Value)
    requires WellFormed(v)
    ensures Remake(Make(v)).Some? <==> Clean(v)
    decreases v
  {
    if v.List? {
      MakeItemsAre(v.items);
      ItemsRemake(MakeItems(v.items));
      forall i | 0 <= i < |v.items| ensures Remake(Make(v.items[i])).Some? <==> Clean(v.items[i]) {
        RemakesIff(v.items[i]);
      }
      ListRemakes(v.items);
    } else if v.Object? {
      forall i | 0 <= i < |v.fields| ensures Remake(Make(v.fields[i].value)).Some? <==> Clean(v.fields[i].value) {
        RemakesIff(v.fields[i].value);
      }
      ObjectRemakes(v.fields);
      hide Remake, Make;
    }
  }

  lemma ListRemakes(items: seq<Value>)
    ensures Remake(Make(List(items))).Some? <==> RemakeItems(MakeItems(items)).Some?
  {
  }

  /** Normalizing is idempotent exactly there: otherwise the second pass throws. */
  lemma NormIdempotentIff(v: Value)
    requires WellFormed(v)
    ensures Own(Make(v)) == Norm(v)
    ensures (Remake(Make(v)).Some? && Own(Remake(Make(v)).value) == Own(Make(v))) <==> Clean(v)
    ensures Remake(Make(v)).Some? <==> Clean(v)
  {
    hide Make, Remake, Own, Norm, Clean, WellFormed;
    MakeOwns(v);
    RemakesIff(v);
    if Remake(Make(v)).Some? {
      RemakeOwns(Make(v));
      OwnIdempotent(v);
    }
  }

  /** The input `{"__proto__":{}}`: its canonical text is that of the empty object, and normalizing it
      twice throws. */
  lemma PrototypeObjectThrows()
    ensures var v := Object([Member.Field(PROTO, Object([]))]);
            WellFormed(v) && Canonicalize(v) == Canonicalize(Object([])) && Remake(Make(v)).None?
  {
    hide Make, Remake, Canonicalize, PROTO;
    var v := Object([Member.Field(PROTO, Object([]))]);
    PrototypeKeyIsLost(Object([]));
    RemakesIff(v);
    assert v.fields[0].key == PROTO && Container(v.fields[0].value);
  }
}
