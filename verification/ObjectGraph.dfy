/** The traversal of an object graph, which may share and may be cyclic: it ends, it fails exactly on
    cycles, and sharing does not show in its result. */
module ObjectGraph {
  import opened Basics
  import opened CanonicalJson
  import opened CanonicalPrinting
  import opened CanonicalNormalization

  /** A JavaScript value: a primitive, something JSON has no form for, or a reference. */
  datatype Ref = Primitive(value: Value) | Foreign | At(id: Id)

  /** An object on the heap; `Exotic` objects have another prototype than plain ones. */
  datatype Node = Elements(items: seq<Ref>) | Members(members: seq<Member<Ref>>) | Exotic

  type Heap = map<Id, Node>

  datatype Outcome<+T> = Ok(value: T) | Cyclic | Unsupported

  function RefsOf(members: seq<Member<Ref>>): seq<Ref> {
    if |members| == 0 then [] else RefsOf(members[..|members| - 1]) + [members[|members| - 1].value]
  }

  /** The members with their values replaced. */
  function Zip(members: seq<Member<Ref>>, values: seq<Value>): seq<Field>
    requires |values| == |members|
  {
    if |members| == 0 then []
    else Zip(members[..|members| - 1], values[..|values| - 1])
         + [Field(members[|members| - 1].key, values[|values| - 1])]
  }

  lemma RefsLength(members: seq<Member<Ref>>)
    ensures |RefsOf(members)| == |members|
    ensures forall i :: 0 <= i < |members| ==> RefsOf(members)[i] == members[i].value
  {
    if |members| > 0 { RefsLength(members[..|members| - 1]); }
  }

  /** `norm` with the set of objects on the current path. */
  function NormRef(h: Heap, r: Ref, path: set<Id>): Outcome<Value>
    decreases |h.Keys - path|, 0, 0
  {
    match r
    case Primitive(v) => if v.List? || v.Object? then Unsupported else Ok(v)
    case Foreign => Unsupported
    case At(n) =>
      if n !in h then Unsupported
      else if n in path then Cyclic
      else
        match h[n]
        case Exotic => Unsupported
        case Elements(items) =>
          Smaller(h, path, n);
          (match NormRefs(h, items, path + {n})
           case Ok(values) => Ok(List(values))
           case Cyclic => Cyclic
           case Unsupported => Unsupported)
        case Members(members) =>
          Smaller(h, path, n);
          var sorted := SortFields(members);
          (match NormRefs(h, RefsOf(sorted), path + {n})
           case Ok(values) => RefsLength(sorted); Ok(Object(AssignAll(Zip(sorted, values))))
           case Cyclic => Cyclic
           case Unsupported => Unsupported)
  }

  /** Items from the left; the first failure is the result. */
  function NormRefs(h: Heap, rs: seq<Ref>, path: set<Id>): (result: Outcome<seq<Value>>)
    ensures result.Ok? ==> |result.value| == |rs|
    decreases |h.Keys - path|, 1, |rs|
  {
    if |rs| == 0 then Ok([])
    else
      match NormRefs(h, rs[..|rs| - 1], path)
      case Cyclic => Cyclic
      case Unsupported => Unsupported
      case Ok(values) =>
        match NormRef(h, rs[|rs| - 1], path)
        case Cyclic => Cyclic
        case Unsupported => Unsupported
        case Ok(value) => Ok(values + [value])
  }

  lemma Smaller(h: Heap, path: set<Id>, n: Id)
    requires n in h && n !in path
    ensures |h.Keys - (path + {n})| < |h.Keys - path|
  {
    assert h.Keys - path == (h.Keys - (path + {n})) + {n};
  }

  // ---------------------------------------------------------------- cycles

  function Children(node: Node): seq<Ref> {
    match node
    case Elements(items) => items
    case Members(members) => RefsOf(SortFields(members))
    case Exotic => []
  }

  /** A path of references. */
  predicate Walk(h: Heap, p: seq<Id>) {
    && |p| > 0 && (forall i :: 0 <= i < |p| ==> p[i] in h)
    && forall i :: 0 <= i < |p| - 1 ==> At(p[i + 1]) in Children(h[p[i]])
  }

  /** The walk comes back to an object it has passed. */
  predicate Returns(p: seq<Id>) { |p| > 0 && p[|p| - 1] in p[..|p| - 1] }

  lemma {:induction false} ItemOk(h: Heap, rs: seq<Ref>, path: set<Id>, r: Ref)
    requires NormRefs(h, rs, path).Ok? && r in rs
    ensures NormRef(h, r, path).Ok?
  {
    if rs[|rs| - 1] != r { ItemOk(h, rs[..|rs| - 1], path, r); }
  }

  lemma {:induction false} CyclicItem(h: Heap, rs: seq<Ref>, path: set<Id>) returns (r: Ref)
    requires NormRefs(h, rs, path).Cyclic?
    ensures r in rs && NormRef(h, r, path).Cyclic?
  {
    if NormRefs(h, rs[..|rs| - 1], path).Cyclic? {
      r := CyclicItem(h, rs[..|rs| - 1], path);
    } else {
      r := rs[|rs| - 1];
    }
  }

  lemma NodeOk(h: Heap, n: Id, path: set<Id>)
    requires NormRef(h, At(n), path).Ok?
    ensures n in h && n !in path && NormRefs(h, Children(h[n]), path + {n}).Ok?
  {
  }

  lemma RestWalks(h: Heap, p: seq<Id>)
    requires Walk(h, p) && |p| > 1
    ensures Walk(h, p[1..]) && At(p[1]) in Children(h[p[0]])
  {
    hide Children;
    var q := p[1..];
    forall i | 0 <= i < |q| - 1 ensures At(q[i + 1]) in Children(h[q[i]]) {
      assert At(p[i + 1 + 1]) in Children(h[p[i + 1]]);
    }
  }

  lemma RestReturns(p: seq<Id>)
    requires |p| > 1
    ensures p[|p| - 1] == p[1..][|p| - 2]
    ensures Returns(p) <==> Returns(p[1..]) || p[|p| - 1] == p[0]
  {
    assert p[..|p| - 1] == [p[0]] + p[1..][..|p| - 2];
  }

  /** Where the traversal succeeds, no walk meets the path or itself again. */
  lemma {:induction false} OkNeverReturns(h: Heap, n: Id, path: set<Id>, p: seq<Id>)
    requires NormRef(h, At(n), path).Ok? && Walk(h, p) && p[0] == n
    ensures p[|p| - 1] !in path && !Returns(p)
    decreases |p|
  {
    NodeOk(h, n, path);
    hide NormRef, NormRefs, Children;
    if |p| > 1 {
      RestWalks(h, p);
      ItemOk(h, Children(h[n]), path + {n}, At(p[1]));
      OkNeverReturns(h, p[1], path + {n}, p[1..]);
      RestReturns(p);
    }
  }

  lemma NodeCyclic(h: Heap, n: Id, path: set<Id>)
    requires NormRef(h, At(n), path).Cyclic? && n !in path
    ensures n in h && NormRefs(h, Children(h[n]), path + {n}).Cyclic?
  {
  }

  lemma Prepends(h: Heap, n: Id, q: seq<Id>)
    requires n in h && Walk(h, q) && At(q[0]) in Children(h[n])
    ensures Walk(h, [n] + q) && ([n] + q)[|q|] == q[|q| - 1]
  {
    hide Children;
    var p := [n] + q;
    forall i | 0 <= i < |p| - 1 ensures At(p[i + 1]) in Children(h[p[i]]) {
      if i > 0 { assert At(q[i - 1 + 1]) in Children(h[q[i - 1]]); }
    }
  }

  /** A cyclic verdict has a walk to show for it. */
  lemma {:induction false} CyclicReturns(h: Heap, n: Id, path: set<Id>) returns (p: seq<Id>)
    requires NormRef(h, At(n), path).Cyclic?
    ensures Walk(h, p) && p[0] == n && (p[|p| - 1] in path || Returns(p))
    decreases |h.Keys - path|
  {
    if n in path {
      p := [n];
    } else {
      NodeCyclic(h, n, path);
      var r := CyclicItem(h, Children(h[n]), path + {n});
      Smaller(h, path, n);
      var q := CyclicReturns(h, r.id, path + {n});
      p := [n] + q;
      assert p[|p| - 1] == q[|q| - 1] && p[..|p| - 1] == [n] + q[..|q| - 1];
      Prepends(h, n, q);
    }
  }

  predicate RefSupported(h: Heap, r: Ref) {
    match r
    case Primitive(v) => !v.List? && !v.Object?
    case Foreign => false
    case At(n) => n in h
  }

  /** A plain object or array whose own parts are values, plain objects and arrays. */
  predicate NodeSupported(h: Heap, n: Id) {
    n in h && !h[n].Exotic? && forall i :: 0 <= i < |Children(h[n])| ==> RefSupported(h, Children(h[n])[i])
  }

  lemma {:induction false} UnsupportedItem(h: Heap, rs: seq<Ref>, path: set<Id>) returns (i: nat)
    requires NormRefs(h, rs, path).Unsupported?
    ensures i < |rs| && NormRef(h, rs[i], path).Unsupported?
  {
    if NormRefs(h, rs[..|rs| - 1], path).Unsupported? {
      i := UnsupportedItem(h, rs[..|rs| - 1], path);
    } else {
      i := |rs| - 1;
    }
  }

  /** A verdict of an unsupported value has a walk to show for it. */
  lemma {:induction false} UnsupportedReached(h: Heap, n: Id, path: set<Id>) returns (p: seq<Id>)
    requires NormRef(h, At(n), path).Unsupported? && n in h
    ensures Walk(h, p) && p[0] == n && !NodeSupported(h, p[|p| - 1])
    decreases |h.Keys - path|
  {
    p := [n];
    if NodeSupported(h, n) {
      assert NormRefs(h, Children(h[n]), path + {n}).Unsupported?;
      var i := UnsupportedItem(h, Children(h[n]), path + {n});
      Smaller(h, path, n);
      assert RefSupported(h, Children(h[n])[i]);
      var q := UnsupportedReached(h, Children(h[n])[i].id, path + {n});
      p := [n] + q;
      Prepends(h, n, q);
    }
  }

  /** Where the traversal succeeds, every object it can reach is supported. */
  lemma {:induction false} OkSupported(h: Heap, n: Id, path: set<Id>, p: seq<Id>)
    requires NormRef(h, At(n), path).Ok? && Walk(h, p) && p[0] == n
    ensures NodeSupported(h, p[|p| - 1])
    decreases |p|
  {
    NodeOk(h, n, path);
    forall i | 0 <= i < |Children(h[n])| ensures RefSupported(h, Children(h[n])[i]) {
      ItemOk(h, Children(h[n]), path + {n}, Children(h[n])[i]);
    }
    if |p| > 1 {
      hide NormRef, NormRefs, Children;
      RestWalks(h, p);
      ItemOk(h, Children(h[n]), path + {n}, At(p[1]));
      OkSupported(h, p[1], path + {n}, p[1..]);
    }
  }

  predicate Cycle(h: Heap, n: Id, p: seq<Id>) { Walk(h, p) && p[0] == n && Returns(p) }

  predicate Strange(h: Heap, n: Id, p: seq<Id>) { Walk(h, p) && p[0] == n && !NodeSupported(h, p[|p| - 1]) }

  /** On any finite graph the traversal succeeds exactly when neither a cycle nor an unsupported value can be
      reached, and it fails with the error of one that can; where all that is reached is supported, it reports a
      cycle exactly when there is one. */
  lemma CycleCheckIsExact(h: Heap, n: Id)
    requires n in h
    ensures var outcome := NormRef(h, At(n), {});
            var cyclic, strange := exists p :: Cycle(h, n, p), exists p :: Strange(h, n, p);
            && (outcome.Ok? <==> !cyclic && !strange)
            && (outcome.Cyclic? ==> cyclic) && (outcome.Unsupported? ==> strange)
            && (!strange ==> (outcome.Cyclic? <==> cyclic))
  {
    var outcome := NormRef(h, At(n), {});
    if outcome.Cyclic? {
      var p := CyclicReturns(h, n, {});
      assert Cycle(h, n, p);
    } else if outcome.Unsupported? {
      var p := UnsupportedReached(h, n, {});
      assert Strange(h, n, p);
    } else {
      forall p ensures !Cycle(h, n, p) && !Strange(h, n, p) {
        if Walk(h, p) && p[0] == n {
          OkNeverReturns(h, n, {}, p);
          OkSupported(h, n, {}, p);
        }
      }
    }
  }

  // ---------------------------------------------------------------- sharing

  /** `v` is what `r` stands for when every shared object is written out at each place. */
  predicate Unfolds(h: Heap, r: Ref, v: Value)
    decreases v
  {
    match r
    case Primitive(p) => v == p && !v.List? && !v.Object?
    case Foreign => false
    case At(n) =>
      n in h
      && match h[n]
         case Exotic => false
         case Elements(items) =>
           v.List? && |v.items| == |items| && forall i :: 0 <= i < |items| ==> Unfolds(h, items[i], v.items[i])
         case Members(members) =>
           v.Object? && |v.fields| == |members|
           && forall i :: 0 <= i < |members| ==>
              v.fields[i].key == members[i].key && Unfolds(h, members[i].value, v.fields[i].value)
  }

  lemma {:induction false} UnfoldsOnce(h: Heap, r: Ref, v: Value, w: Value)
    requires Unfolds(h, r, v) && Unfolds(h, r, w)
    ensures v == w
    decreases v
  {
    if v.List? {
      forall i | 0 <= i < |v.items| ensures v.items[i] == w.items[i] {
        UnfoldsOnce(h, h[r.id].items[i], v.items[i], w.items[i]);
      }
    } else if v.Object? {
      forall i | 0 <= i < |v.fields| ensures v.fields[i] == w.fields[i] {
        UnfoldsOnce(h, h[r.id].members[i].value, v.fields[i].value, w.fields[i].value);
      }
    }
  }

  lemma {:induction false} ItemSmaller(items: seq<Value>, i: nat)
    requires i < |items|
    ensures Size(items[i]) < SizeItems(items)
  {
    if i > 0 { ItemSmaller(items[1..], i - 1); }
  }

  lemma {:induction false} FieldSmaller(fields: seq<Field>, i: nat)
    requires i < |fields|
    ensures Size(fields[i].value) < SizeFields(fields)
  {
    if i > 0 { FieldSmaller(fields[1..], i - 1); }
  }

  /** Every object on the path unfolds to something larger than `size`. */
  ghost predicate Above(h: Heap, path: set<Id>, size: nat) {
    forall n :: n in path ==> exists v :: Unfolds(h, At(n), v) && size < Size(v)
  }

  lemma NotAbove(h: Heap, n: Id, path: set<Id>, v: Value)
    requires Unfolds(h, At(n), v) && Above(h, path, Size(v))
    ensures n !in path
  {
    if n in path {
      var w :| Unfolds(h, At(n), w) && Size(v) < Size(w);
      UnfoldsOnce(h, At(n), v, w);
    }
  }

  lemma AboveNext(h: Heap, n: Id, path: set<Id>, v: Value, size: nat)
    requires Above(h, path, Size(v)) && Unfolds(h, At(n), v) && size < Size(v)
    ensures Above(h, path + {n}, size)
  {
    forall m | m in path + {n} ensures exists w :: Unfolds(h, At(m), w) && size < Size(w) {
      if m in path { var w :| Unfolds(h, At(m), w) && Size(v) < Size(w); }
    }
  }

  lemma {:induction false} ItemsNormalize(h: Heap, rs: seq<Ref>, vs: seq<Value>, path: set<Id>)
    requires |rs| == |vs| && forall i :: 0 <= i < |rs| ==> NormRef(h, rs[i], path) == Ok(Norm(vs[i]))
    ensures NormRefs(h, rs, path) == Ok(NormItems(vs))
  {
    if |rs| > 0 { ItemsNormalize(h, rs[..|rs| - 1], vs[..|vs| - 1], path); }
  }

  function ValuesOf(fields: seq<Field>): seq<Value> {
    if |fields| == 0 then [] else ValuesOf(fields[..|fields| - 1]) + [fields[|fields| - 1].value]
  }

  /** Members and fields carry the same keys, and each field unfolds its member. */
  predicate Mirrors(h: Heap, members: seq<Member<Ref>>, fields: seq<Field>) {
    |members| == |fields|
    && forall i :: 0 <= i < |members| ==>
       fields[i].key == members[i].key && Unfolds(h, members[i].value, fields[i].value)
  }

  lemma {:induction false} InsertMirrors(h: Heap, members: seq<Member<Ref>>, fields: seq<Field>, m: Member<Ref>,
      x: Field)
    requires Mirrors(h, members, fields) && x.key == m.key && Unfolds(h, m.value, x.value)
    ensures Mirrors(h, SortInsert(members, m), SortInsert(fields, x))
  {
    hide Unfolds, Less;
    if |members| > 0 {
      if Less(members[0].key, m.key) {
        InsertMirrors(h, members[1..], fields[1..], m, x);
      }
    }
  }

  lemma {:induction false} SortMirrors(h: Heap, members: seq<Member<Ref>>, fields: seq<Field>)
    requires Mirrors(h, members, fields)
    ensures Mirrors(h, SortFields(members), SortFields(fields))
  {
    hide Unfolds;
    if |members| > 0 {
      SortMirrors(h, members[..|members| - 1], fields[..|fields| - 1]);
      InsertMirrors(h, SortFields(members[..|members| - 1]), SortFields(fields[..|fields| - 1]), members[|members| - 1],
        fields[|fields| - 1]);
    }
  }

  /** Normalizing values and sorting members commute. */
  lemma {:induction false} InsertNormalizes(fields: seq<Field>, normal: seq<Field>, x: Field)
    requires |normal| == |fields| && forall i :: 0 <= i < |fields| ==>
             normal[i] == Field(fields[i].key, Norm(fields[i].value))
    ensures |SortInsert(normal, Field(x.key, Norm(x.value)))| == |SortInsert(fields, x)|
    ensures forall i :: 0 <= i < |SortInsert(fields, x)| ==>
              SortInsert(normal, Field(x.key, Norm(x.value)))[i]
                == Field(SortInsert(fields, x)[i].key, Norm(SortInsert(fields, x)[i].value))
  {
    hide Norm, Less;
    if |fields| > 0 {
      if Less(fields[0].key, x.key) { InsertNormalizes(fields[1..], normal[1..], x); }
    }
  }

  lemma {:induction false} SortNormalizes(fields: seq<Field>)
    ensures |SortFields(NormFields(fields))| == |SortFields(fields)|
    ensures forall i :: 0 <= i < |SortFields(fields)| ==>
              SortFields(NormFields(fields))[i] == Field(SortFields(fields)[i].key, Norm(SortFields(fields)[i].value))
  {
    hide Norm;
    if |fields| > 0 {
      var init, x := fields[..|fields| - 1], fields[|fields| - 1];
      SortNormalizes(init);
      assert NormFields(fields)[..|fields| - 1] == NormFields(init) by { NormFieldsAre(init); }
      NormFieldsAre(fields);
      InsertNormalizes(SortFields(init), SortFields(NormFields(init)), x);
    }
  }

  lemma {:induction false} ZipIs(members: seq<Member<Ref>>, values: seq<Value>)
    requires |values| == |members|
    ensures |Zip(members, values)| == |members|
    ensures forall i :: 0 <= i < |members| ==> Zip(members, values)[i] == Field(members[i].key, values[i])
  {
    if |members| > 0 { ZipIs(members[..|members| - 1], values[..|values| - 1]); }
  }

  lemma {:induction false} ValuesAre(fields: seq<Field>)
    ensures |ValuesOf(fields)| == |fields| && forall i :: 0 <= i < |fields| ==> ValuesOf(fields)[i] == fields[i].value
  {
    if |fields| > 0 { ValuesAre(fields[..|fields| - 1]); }
  }

  /** The assigned members of a node are those of the normalized object. */
  lemma MembersNormalize(h: Heap, members: seq<Member<Ref>>, fields: seq<Field>, values: seq<Value>)
    requires Mirrors(h, members, fields) && values == NormItems(ValuesOf(SortFields(fields)))
    ensures |values| == |SortFields(members)|
    ensures AssignAll(Zip(SortFields(members), values)) == Rebuild(NormFields(fields))
  {
    SortMirrors(h, members, fields);
    ValuesAre(SortFields(fields));
    NormItemsAre(ValuesOf(SortFields(fields)));
    ZipIs(SortFields(members), values);
    SortNormalizes(fields);
    assert Zip(SortFields(members), values) == SortFields(NormFields(fields));
  }

  /** Sharing does not show: a graph that unfolds normalizes to the normal form of its unfolding. */
  lemma {:induction false} SharingIsInvisible(h: Heap, r: Ref, v: Value, path: set<Id>)
    requires Unfolds(h, r, v) && Above(h, path, Size(v))
    ensures NormRef(h, r, path) == Ok(Norm(v))
    decreases Size(v)
  {
    if r.At? {
      NotAbove(h, r.id, path, v);
      hide Above, NormItems, NormFields, AssignAll, Rebuild, SortFields;
      match h[r.id]
      case Elements(items) =>
        forall i | 0 <= i < |items| ensures NormRef(h, items[i], path + {r.id}) == Ok(Norm(v.items[i])) {
          ItemSmaller(v.items, i);
          AboveNext(h, r.id, path, v, Size(v.items[i]));
          SharingIsInvisible(h, items[i], v.items[i], path + {r.id});
        }
        hide NormRefs;
        ItemsNormalize(h, items, v.items, path + {r.id});
      case Members(members) =>
        assert Mirrors(h, members, v.fields);
        MembersUnfold(h, r.id, v, path);
        hide NormRefs;
        MembersNormalize(h, members, v.fields, NormItems(ValuesOf(SortFields(v.fields))));
    }
  }

  lemma {:induction false} MembersUnfold(h: Heap, n: Id, v: Value, path: set<Id>)
    requires n in h && h[n].Members? && v.Object? && Mirrors(h, h[n].members, v.fields) && Unfolds(h, At(n), v)
             && Above(h, path, Size(v))
    ensures NormRefs(h, RefsOf(SortFields(h[n].members)), path + {n}) == Ok(NormItems(ValuesOf(SortFields(v.fields))))
    decreases Size(v), 0
  {
    var ms, fs := SortFields(h[n].members), SortFields(v.fields);
    SortMirrors(h, h[n].members, v.fields);
    RefsLength(ms);
    ValuesAre(fs);
    forall i | 0 <= i < |ms| ensures NormRef(h, RefsOf(ms)[i], path + {n}) == Ok(Norm(ValuesOf(fs)[i])) {
      SortedIn(v.fields, i);
      var k :| 0 <= k < |v.fields| && v.fields[k] == fs[i];
      FieldSmaller(v.fields, k);
      AboveNext(h, n, path, v, Size(fs[i].value));
      hide NormRef, Norm;
      SharingIsInvisible(h, ms[i].value, fs[i].value, path + {n});
    }
    hide NormRef, Norm;
    ItemsNormalize(h, RefsOf(ms), ValuesOf(fs), path + {n});
  }

  lemma InsertedIn<T>(fields: seq<Member<T>>, x: Member<T>)
    ensures forall y :: y in SortInsert(fields, x) ==> y in fields || y == x
  {
    if |fields| > 0 { InsertedIn(fields[1..], x); }
  }

  lemma {:induction false} SortedMembers<T>(fields: seq<Member<T>>)
    ensures forall y :: y in SortFields(fields) ==> y in fields
  {
    if |fields| > 0 {
      SortedMembers(fields[..|fields| - 1]);
      InsertedIn(SortFields(fields[..|fields| - 1]), fields[|fields| - 1]);
    }
  }

  lemma SortedIn(fields: seq<Field>, i: nat)
    requires i < |SortFields(fields)|
    ensures exists k :: 0 <= k < |fields| && fields[k] == SortFields(fields)[i]
  {
    SortedMembers(fields);
    assert SortFields(fields)[i] in fields;
  }

  /** From the root, with nothing on the path. */
  lemma SharedAsUnshared(h: Heap, n: Id, v: Value)
    requires Unfolds(h, At(n), v)
    ensures NormRef(h, At(n), {}) == Ok(Norm(v))
  {
    SharingIsInvisible(h, At(n), v, {});
  }

  lemma {:induction false} InsertKeeps<T>(fields: seq<Member<T>>, x: Member<T>)
    ensures x in SortInsert(fields, x) && forall y :: y in fields ==> y in SortInsert(fields, x)
  {
    if |fields| > 0 {
      InsertKeeps(fields[1..], x);
      assert fields == [fields[0]] + fields[1..];
    }
  }

  lemma {:induction false} SortKeeps<T>(fields: seq<Member<T>>)
    ensures forall y :: y in fields ==> y in SortFields(fields)
  {
    if |fields| > 0 {
      var init := fields[..|fields| - 1];
      SortKeeps(init);
      InsertKeeps(SortFields(init), fields[|fields| - 1]);
      assert fields == init + [fields[|fields| - 1]];
    }
  }

  lemma AcceptedForm(h: Heap, r: Ref, path: set<Id>)
    requires NormRef(h, r, path).Ok?
    ensures r.Primitive? ==> !r.value.List? && !r.value.Object?
    ensures !r.Primitive? ==> r.At? && r.id in h && !h[r.id].Exotic?
  {
  }

  /** Whatever is accepted has an unfolding. */
  lemma {:induction false} AcceptedUnfolds(h: Heap, r: Ref, path: set<Id>) returns (v: Value)
    requires NormRef(h, r, path).Ok?
    ensures Unfolds(h, r, v)
    decreases |h.Keys - path|, 0, 0
  {
    AcceptedForm(h, r, path);
    hide NormRef, NormRefs, SortFields;
    if r.Primitive? {
      v := r.value;
    } else {
      NodeOk(h, r.id, path);
      Smaller(h, path, r.id);
      match h[r.id]
      case Elements(items) =>
        var values := AllUnfold(h, items, items, path + {r.id});
        v := List(values);
      case Members(members) =>
        RefsLength(members);
        RefsLength(SortFields(members));
        SortKeeps(members);
        forall i | 0 <= i < |members| ensures RefsOf(members)[i] in Children(h[r.id]) {
          assert members[i] in SortFields(members);
        }
        var values := AllUnfold(h, RefsOf(members), Children(h[r.id]), path + {r.id});
        ZipIs(members, values);
        v := Object(Zip(members, values));
    }
  }

  lemma {:induction false} AllUnfold(h: Heap, rs: seq<Ref>, among: seq<Ref>, path: set<Id>) returns (vs: seq<Value>)
    requires NormRefs(h, among, path).Ok? && forall i :: 0 <= i < |rs| ==> rs[i] in among
    ensures |vs| == |rs| && forall i :: 0 <= i < |rs| ==> Unfolds(h, rs[i], vs[i])
    decreases |h.Keys - path|, 1, |rs|
  {
    if |rs| == 0 {
      vs := [];
    } else {
      var init := AllUnfold(h, rs[..|rs| - 1], among, path);
      ItemOk(h, among, path, rs[|rs| - 1]);
      var last := AcceptedUnfolds(h, rs[|rs| - 1], path);
      vs := init + [last];
    }
  }

  /** A graph is accepted exactly when it unfolds to a finite value, and the result is the normal form of
      that value. */
  lemma AcceptedIffUnfolds(h: Heap, n: Id)
    ensures NormRef(h, At(n), {}).Ok? <==> exists v :: Unfolds(h, At(n), v)
    ensures forall v :: Unfolds(h, At(n), v) ==> NormRef(h, At(n), {}) == Ok(Norm(v))
  {
    hide NormRef, Unfolds, Norm;
    if NormRef(h, At(n), {}).Ok? {
      var v := AcceptedUnfolds(h, At(n), {});
      assert Unfolds(h, At(n), v);
    }
    forall v | Unfolds(h, At(n), v) ensures NormRef(h, At(n), {}) == Ok(Norm(v)) {
      SharedAsUnshared(h, n, v);
    }
  }

  // ---------------------------------------------------------------- the traversal as it runs

  class Normalizer {
    const heap: Heap
    var seen: set<Id>

    constructor (heap: Heap)
      ensures this.heap == heap && seen == {}
    {
      this.heap, this.seen := heap, {};
    }

    /** Adds the object to the path, visits its children, and takes it off again on every exit. */
    method Normalize(r: Ref) returns (result: Outcome<Value>)
      modifies this
      ensures result == NormRef(heap, r, old(seen)) && seen == old(seen)
      decreases |heap.Keys - seen|, 0, 0
    {
      if r.Primitive? {
        return if r.value.List? || r.value.Object? then Unsupported else Ok(r.value);
      }
      if r.Foreign? || r.id !in heap {
        return Unsupported;
      }
      if r.id in seen {
        return Cyclic;
      }
      if heap[r.id].Exotic? {
        return Unsupported;
      }
      ghost var before := seen;
      Smaller(heap, seen, r.id);
      seen := seen + {r.id};
      if heap[r.id].Elements? {
        var values := NormalizeAll(heap[r.id].items);
        result := match values case Ok(vs) => Ok(List(vs)) case Cyclic => Cyclic case Unsupported => Unsupported;
      } else {
        var sorted := SortFields(heap[r.id].members);
        RefsLength(sorted);
        var values := NormalizeAll(RefsOf(sorted));
        if values.Ok? {
          var output := BuildObject(sorted, values.value);
          result := Ok(Object(output));
        } else {
          result := if values.Cyclic? then Cyclic else Unsupported;
        }
      }
      seen := seen - {r.id};
      assert seen == before;
    }

    method NormalizeAll(rs: seq<Ref>) returns (result: Outcome<seq<Value>>)
      modifies this
      ensures result == NormRefs(heap, rs, old(seen)) && seen == old(seen)
      decreases |heap.Keys - seen|, 1, |rs|
    {
      var values: seq<Value> := [];
      for i := 0 to |rs|
        invariant Ok(values) == NormRefs(heap, rs[..i], old(seen)) && seen == old(seen)
      {
        assert rs[..i + 1][..i] == rs[..i];
        var one := Normalize(rs[i]);
        if !one.Ok? {
          result := if one.Cyclic? then Cyclic else Unsupported;
          FirstFailure(heap, rs, i, seen);
          return;
        }
        values := values + [one.value];
      }
      assert rs[..|rs|] == rs;
      result := Ok(values);
    }

    method BuildObject(sorted: seq<Member<Ref>>, values: seq<Value>) returns (output: seq<Field>)
      requires |values| == |sorted|
      ensures output == AssignAll(Zip(sorted, values))
    {
      output := [];
      ZipIs(sorted, values);
      for i := 0 to |sorted|
        invariant output == AssignAll(Zip(sorted, values)[..i])
      {
        assert Zip(sorted, values)[..i + 1][..i] == Zip(sorted, values)[..i];
        output := Assign(output, Field(sorted[i].key, values[i]));
      }
      assert Zip(sorted, values)[..|sorted|] == Zip(sorted, values);
    }
  }

  lemma {:induction false} FirstFailure(h: Heap, rs: seq<Ref>, i: nat, path: set<Id>)
    requires i < |rs| && NormRefs(h, rs[..i], path).Ok? && !NormRef(h, rs[i], path).Ok?
    ensures NormRefs(h, rs, path) == (if NormRef(h, rs[i], path).Cyclic? then Cyclic else Unsupported)
    decreases |rs| - i
  {
    if i + 1 < |rs| {
      assert rs[..|rs| - 1][..i] == rs[..i];
      FirstFailure(h, rs[..|rs| - 1], i, path);
    } else {
      assert rs[..|rs| - 1] == rs[..i];
    }
  }
}
