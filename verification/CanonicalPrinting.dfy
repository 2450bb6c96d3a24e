/** The printed text determines the value: nesting, separators and string escapes can be read in only
    one way. */
module CanonicalPrinting {
  import opened CanonicalJson

  /** What may follow a value inside a text. */
  predicate Terminated(x: Text) { |x| == 0 || x[0] == COMMA || x[0] == 93 || x[0] == 125 }

  lemma DropPrefix(a: Text, x: Text, b: Text, y: Text)
    requires a + x == b + y && |a| == |b|
    ensures a == b && x == y
  {
    assert a == (a + x)[..|a|] && b == (b + y)[..|b|];
    assert x == (a + x)[|a|..] && y == (b + y)[|b|..];
  }

  // ---------------------------------------------------------------- strings

  lemma HexInjective(m: int, n: int)
    requires 0 <= m < 16 && 0 <= n < 16 && Hex(m) == Hex(n)
    ensures m == n
  {
  }

  lemma UnitOfDigits(u: Unit)
    ensures u == 0x1000 * (u / 0x1000) + 0x100 * (u / 0x100 % 0x10) + 0x10 * (u / 0x10 % 0x10) + u % 0x10
  {
    var a, b, c: int := u / 0x10, u / 0x100, u / 0x1000;
    assert u == 0x10 * a + u % 0x10;
    assert b == a / 0x10 && a == 0x10 * b + a % 0x10;
    assert c == b / 0x10 && b == 0x10 * c + b % 0x10;
  }

  lemma EscapeInjective(u: Unit, v: Unit)
    requires EscapeUnit(u) == EscapeUnit(v)
    ensures u == v
  {
    assert EscapeUnit(u)[2] == EscapeUnit(v)[2] && EscapeUnit(u)[3] == EscapeUnit(v)[3]
      && EscapeUnit(u)[4] == EscapeUnit(v)[4] && EscapeUnit(u)[5] == EscapeUnit(v)[5];
    HexInjective(u / 0x1000, v / 0x1000);
    HexInjective(u / 0x100 % 0x10, v / 0x100 % 0x10);
    HexInjective(u / 0x10 % 0x10, v / 0x10 % 0x10);
    HexInjective(u % 0x10, v % 0x10);
    UnitOfDigits(u);
    UnitOfDigits(v);
  }

  /** The form of a printed unit: itself, a short escape, or a long one. */
  lemma QuoteUnitForm(u: Unit)
    ensures |QuoteUnit(u)| == 1 ==> QuoteUnit(u) == [u] && u != QUOTE && u != BACKSLASH && !Surrogate(u)
    ensures |QuoteUnit(u)| == 2 ==> QuoteUnit(u)[0] == BACKSLASH && QuoteUnit(u)[1] != 117
    ensures |QuoteUnit(u)| != 1 && |QuoteUnit(u)| != 2 ==> QuoteUnit(u) == EscapeUnit(u) && |QuoteUnit(u)| == 6
    ensures |QuoteUnit(u)| > 0 && QuoteUnit(u)[0] != QUOTE && !Surrogate(QuoteUnit(u)[0])
    ensures EscapeUnit(u)[0] == BACKSLASH && EscapeUnit(u)[1] == 117
  {
  }

  lemma ShortInjective(u: Unit, v: Unit)
    requires |QuoteUnit(u)| == 2 == |QuoteUnit(v)| && QuoteUnit(u)[1] == QuoteUnit(v)[1]
    ensures u == v
  {
  }

  lemma QuoteUnitPrefix(u: Unit, v: Unit, x: Text, y: Text)
    requires QuoteUnit(u) + x == QuoteUnit(v) + y
    ensures u == v && x == y
  {
    QuoteUnitForm(u);
    QuoteUnitForm(v);
    assert (QuoteUnit(u) + x)[0] == QuoteUnit(u)[0] == QuoteUnit(v)[0];
    hide EscapeUnit, Hex, Surrogate;
    if |QuoteUnit(u)| == 1 || |QuoteUnit(v)| == 1 {
      assert |QuoteUnit(u)| == |QuoteUnit(v)|;
    } else {
      assert (QuoteUnit(u) + x)[1] == QuoteUnit(u)[1] == QuoteUnit(v)[1];
      assert |QuoteUnit(u)| == |QuoteUnit(v)|;
      DropPrefix(QuoteUnit(u), x, QuoteUnit(v), y);
      if |QuoteUnit(u)| == 2 { ShortInjective(u, v); } else { EscapeInjective(u, v); }
    }
    DropPrefix(QuoteUnit(u), x, QuoteUnit(v), y);
  }

  /** How many units the first printed piece of a string stands for. */
  function Taken(s: Text): nat
    requires |s| > 0
    ensures 1 <= Taken(s) <= |s|
  {
    if |s| > 1 && Pair(s[0], s[1]) then 2 else 1
  }

  function Piece(s: Text): Text
    requires |s| > 0
  {
    if |s| > 1 && Pair(s[0], s[1]) then [s[0], s[1]] else QuoteUnit(s[0])
  }

  lemma PieceForm(s: Text)
    requires |s| > 0
    ensures QuoteUnits(s) == Piece(s) + QuoteUnits(s[Taken(s)..])
    ensures |Piece(s)| > 0 && Piece(s)[0] != QUOTE
    ensures Surrogate(Piece(s)[0]) <==> Taken(s) == 2
  {
    QuoteUnitForm(s[0]);
  }

  lemma PiecePrefix(s: Text, t: Text, x: Text, y: Text)
    requires |s| > 0 && |t| > 0 && Piece(s) + x == Piece(t) + y
    ensures Taken(s) == Taken(t) && s[..Taken(s)] == t[..Taken(t)] && x == y
  {
    PieceForm(s);
    PieceForm(t);
    assert (Piece(s) + x)[0] == Piece(s)[0] == Piece(t)[0];
    if Taken(s) == 2 {
      assert (Piece(s) + x)[1] == Piece(s)[1] == Piece(t)[1];
      DropPrefix(Piece(s), x, Piece(t), y);
    } else {
      QuoteUnitPrefix(s[0], t[0], x, y);
    }
  }

  lemma {:induction false} QuotedPrefix(s: Text, t: Text, x: Text, y: Text)
    requires QuoteUnits(s) + ([QUOTE] + x) == QuoteUnits(t) + ([QUOTE] + y)
    ensures s == t && x == y
    decreases |s|
  {
    hide QuoteUnit, QuoteUnits, Piece, Taken, Surrogate;
    if |s| > 0 { PieceForm(s); }
    if |t| > 0 { PieceForm(t); }
    assert QuoteUnits([]) == [] by { EmptyString(); }
    var left := QuoteUnits(s) + ([QUOTE] + x);
    if |s| == 0 || |t| == 0 {
      FirstUnit(s, x);
      FirstUnit(t, y);
      assert |s| == |t| == 0;
      DropPrefix([], [QUOTE] + x, [], [QUOTE] + y);
      DropPrefix([QUOTE], x, [QUOTE], y);
    } else {
      var s', t' := s[Taken(s)..], t[Taken(t)..];
      assert left == Piece(s) + (QuoteUnits(s') + ([QUOTE] + x));
      assert left == Piece(t) + (QuoteUnits(t') + ([QUOTE] + y));
      PiecePrefix(s, t, QuoteUnits(s') + ([QUOTE] + x), QuoteUnits(t') + ([QUOTE] + y));
      QuotedPrefix(s', t', x, y);
      assert s == s[..Taken(s)] + s' && t == t[..Taken(t)] + t';
    }
  }

  lemma EmptyString()
    ensures QuoteUnits([]) == []
  {
  }

  lemma FirstUnit(s: Text, x: Text)
    ensures (QuoteUnits(s) + ([QUOTE] + x))[0] == QUOTE <==> |s| == 0
  {
    if |s| > 0 {
      PieceForm(s);
      assert (QuoteUnits(s) + ([QUOTE] + x))[0] == Piece(s)[0];
    }
  }

  lemma QuotePrefix(s: Text, t: Text, x: Text, y: Text)
    requires Quote(s) + x == Quote(t) + y
    ensures s == t && x == y
  {
    hide QuoteUnits;
    assert Quote(s) + x == [QUOTE] + (QuoteUnits(s) + ([QUOTE] + x));
    assert Quote(t) + y == [QUOTE] + (QuoteUnits(t) + ([QUOTE] + y));
    DropPrefix([QUOTE], QuoteUnits(s) + ([QUOTE] + x), [QUOTE], QuoteUnits(t) + ([QUOTE] + y));
    QuotedPrefix(s, t, x, y);
  }

  // ---------------------------------------------------------------- values

  lemma NumberPrefix(s: NumberText, t: NumberText, x: Text, y: Text)
    requires s + x == t + y && Terminated(x) && Terminated(y)
    ensures s == t && x == y
  {
    NumberEnds(s, t, x, y);
    NumberEnds(t, s, y, x);
    DropPrefix(s, x, t, y);
  }

  lemma NumberEnds(s: NumberText, t: NumberText, x: Text, y: Text)
    requires s + x == t + y && Terminated(x)
    ensures |t| <= |s|
  {
    assert forall i :: 0 <= i < |t| ==> NumberUnit((t + y)[i]);
    assert |x| > 0 ==> (s + x)[|s|] == x[0];
  }

  /** The first unit tells the kind of a value. */
  function Kind(u: Unit): nat {
    if u == 110 then 0 else if u == 116 then 1 else if u == 102 then 2 else if u == QUOTE then 3
    else if u == 91 then 4 else if u == 123 then 5 else if NumberUnit(u) then 6 else 7
  }

  function KindOf(v: Value): nat {
    match v
    case Null => 0
    case Bool(b) => if b then 1 else 2
    case String(_) => 3
    case List(_) => 4
    case Object(_) => 5
    case Number(_) => 6
  }

  lemma FirstKind(v: Value)
    ensures |Print(v)| > 0 && Kind(Print(v)[0]) == KindOf(v) && !Terminated(Print(v))
  {
    hide QuoteUnits, PrintItems, PrintFields;
    if v.Number? { assert NumberUnit(v.digits[0]); }
  }

  function Size(v: Value): nat {
    match v
    case List(items) => 1 + SizeItems(items)
    case Object(fields) => 1 + SizeFields(fields)
    case _ => 0
  }

  function SizeItems(items: seq<Value>): nat {
    if |items| == 0 then 0 else 1 + Size(items[0]) + SizeItems(items[1..])
  }

  function SizeFields(fields: seq<Field>): nat {
    if |fields| == 0 then 0 else 1 + Size(fields[0].value) + SizeFields(fields[1..])
  }

  /** Two values whose texts begin the same text, each followed by nothing or a delimiter, are equal. */
  lemma {:induction false} PrintPrefix(v: Value, w: Value, x: Text, y: Text)
    requires Print(v) + x == Print(w) + y && Terminated(x) && Terminated(y)
    ensures v == w && x == y
    decreases Size(v), 1
  {
    hide Print, KindOf, Terminated, Size;
    SameKind(v, w, x, y);
    if v.List? { ListPrefix(v, w, x, y); }
    else if v.Object? { ObjectPrefix(v, w, x, y); }
    else { AtomPrefix(v, w, x, y); }
  }

  lemma SameKind(v: Value, w: Value, x: Text, y: Text)
    requires Print(v) + x == Print(w) + y
    ensures KindOf(v) == KindOf(w) && v.List? == w.List? && v.Object? == w.Object? && v.Number? == w.Number?
            && v.String? == w.String?
  {
    hide Print;
    FirstKind(v);
    FirstKind(w);
    assert (Print(v) + x)[0] == Print(v)[0] == Print(w)[0];
  }

  lemma AtomPrefix(v: Value, w: Value, x: Text, y: Text)
    requires Print(v) + x == Print(w) + y && Terminated(x) && Terminated(y) && !v.List? && !v.Object?
    requires KindOf(v) == KindOf(w)
    ensures v == w && x == y
  {
    hide QuoteUnits, PrintItems, PrintFields, IsNumberText;
    match v
    case Number(s) => NumberPrefix(s, w.digits, x, y);
    case String(s) => hide Quote; QuotePrefix(s, w.text, x, y);
    case _ => DropPrefix(Print(v), x, Print(w), y);
  }

  lemma {:induction false} ListPrefix(v: Value, w: Value, x: Text, y: Text)
    requires v.List? && w.List? && Print(v) + x == Print(w) + y
    ensures v == w && x == y
    decreases Size(v), 0
  {
    hide PrintItems;
    Bracketed(91, PrintItems(v.items), 93, x);
    Bracketed(91, PrintItems(w.items), 93, y);
    DropPrefix([91], PrintItems(v.items) + ([93] + x), [91], PrintItems(w.items) + ([93] + y));
    ItemsPrefix(v.items, w.items, x, y);
  }

  lemma {:induction false} ObjectPrefix(v: Value, w: Value, x: Text, y: Text)
    requires v.Object? && w.Object? && Print(v) + x == Print(w) + y
    ensures v == w && x == y
    decreases Size(v), 0
  {
    hide PrintFields;
    Bracketed(123, PrintFields(v.fields), 125, x);
    Bracketed(123, PrintFields(w.fields), 125, y);
    DropPrefix([123], PrintFields(v.fields) + ([125] + x), [123], PrintFields(w.fields) + ([125] + y));
    FieldsPrefix(v.fields, w.fields, x, y);
  }

  lemma Bracketed(open: Unit, inner: Text, close: Unit, x: Text)
    ensures [open] + inner + [close] + x == [open] + (inner + ([close] + x))
  {
  }

  lemma Regroup(a: Text, b: Text, c: Text)
    ensures (a + b) + c == a + (b + c)
  {
  }

  /** What follows the first item. */
  function AfterItem(items: seq<Value>): Text
    requires |items| > 0
  {
    if |items| == 1 then [] else [COMMA] + PrintItems(items[1..])
  }

  lemma ItemsForm(items: seq<Value>)
    requires |items| > 0
    ensures PrintItems(items) == Print(items[0]) + AfterItem(items)
  {
    hide Print;
    if |items| > 1 { Regroup(Print(items[0]), [COMMA], PrintItems(items[1..])); }
  }

  /** The rest of a list after an item: its end, or a comma and the rest. */
  lemma RestForm(rest: Text, x: Text, close: Unit)
    ensures ([COMMA] + rest) + ([close] + x) == [COMMA] + (rest + ([close] + x))
    ensures [] + ([close] + x) == [close] + x
  {
  }

  lemma AfterTerminated(rest: Text, x: Text, close: Unit)
    requires rest == [] || rest[0] == COMMA
    requires close == 93 || close == 125
    ensures Terminated(rest + ([close] + x))
    ensures (rest + ([close] + x))[0] == COMMA <==> rest != []
  {
  }

  lemma ItemsNonempty(items: seq<Value>, x: Text)
    ensures (PrintItems(items) + ([93] + x))[0] == 93 <==> |items| == 0
  {
    if |items| > 0 {
      FirstKind(items[0]);
      ItemsForm(items);
      hide Print, PrintItems;
      assert (PrintItems(items) + ([93] + x))[0] == Print(items[0])[0];
    }
  }

  lemma {:induction false} ItemsPrefix(xs: seq<Value>, ys: seq<Value>, x: Text, y: Text)
    requires PrintItems(xs) + ([93] + x) == PrintItems(ys) + ([93] + y)
    ensures xs == ys && x == y
    decreases SizeItems(xs), 0
  {
    hide Print, Terminated, PrintItems, AfterItem;
    ItemsNonempty(xs, x);
    ItemsNonempty(ys, y);
    if |xs| == 0 {
      NoItems();
      RestForm([], x, 93);
      RestForm([], y, 93);
      DropPrefix([93], x, [93], y);
    } else {
      ItemsForm(xs);
      ItemsForm(ys);
      Regroup(Print(xs[0]), AfterItem(xs), [93] + x);
      Regroup(Print(ys[0]), AfterItem(ys), [93] + y);
      AfterItemForm(xs);
      AfterItemForm(ys);
      AfterTerminated(AfterItem(xs), x, 93);
      AfterTerminated(AfterItem(ys), y, 93);
      PrintPrefix(xs[0], ys[0], AfterItem(xs) + ([93] + x), AfterItem(ys) + ([93] + y));
      if |xs| == 1 {
        RestForm([], x, 93);
        RestForm([], y, 93);
        DropPrefix([93], x, [93], y);
        assert xs == [xs[0]] && ys == [ys[0]];
      } else {
        RestForm(PrintItems(xs[1..]), x, 93);
        RestForm(PrintItems(ys[1..]), y, 93);
        DropPrefix([COMMA], PrintItems(xs[1..]) + ([93] + x), [COMMA], PrintItems(ys[1..]) + ([93] + y));
        ItemsPrefix(xs[1..], ys[1..], x, y);
        assert xs == [xs[0]] + xs[1..] && ys == [ys[0]] + ys[1..];
      }
    }
  }

  lemma NoItems()
    ensures PrintItems([]) == [] && PrintFields([]) == []
  {
  }

  lemma AfterItemForm(items: seq<Value>)
    requires |items| > 0
    ensures AfterItem(items) == [] || AfterItem(items)[0] == COMMA
    ensures AfterItem(items) == [] <==> |items| == 1
    ensures |items| > 1 ==> AfterItem(items) == [COMMA] + PrintItems(items[1..])
  {
    hide PrintItems;
  }

  function AfterField(fields: seq<Field>): Text
    requires |fields| > 0
  {
    if |fields| == 1 then [] else [COMMA] + PrintFields(fields[1..])
  }

  lemma FieldParts(q: Text, v: Text, rest: Text)
    ensures q + [COLON] + v + [COMMA] + rest == q + ([COLON] + (v + ([COMMA] + rest)))
    ensures q + [COLON] + v == q + ([COLON] + (v + []))
  {
  }

  lemma FieldsForm(fields: seq<Field>)
    requires |fields| > 0
    ensures PrintFields(fields) == Quote(fields[0].key) + ([COLON] + (Print(fields[0].value) + AfterField(fields)))
  {
    hide Print, Quote;
    FieldParts(Quote(fields[0].key), Print(fields[0].value), if |fields| > 1 then PrintFields(fields[1..]) else []);
  }

  lemma FieldsNonempty(fields: seq<Field>, x: Text)
    ensures (PrintFields(fields) + ([125] + x))[0] == 125 <==> |fields| == 0
  {
    if |fields| > 0 {
      FieldsForm(fields);
      hide Print, PrintFields, QuoteUnits;
      assert (PrintFields(fields) + ([125] + x))[0] == QUOTE;
    }
  }

  lemma AfterFieldForm(fields: seq<Field>)
    requires |fields| > 0
    ensures AfterField(fields) == [] || AfterField(fields)[0] == COMMA
    ensures AfterField(fields) == [] <==> |fields| == 1
    ensures |fields| > 1 ==> AfterField(fields) == [COMMA] + PrintFields(fields[1..])
  {
    hide PrintFields;
  }

  lemma FieldText(q: Text, v: Text, rest: Text, end: Text)
    ensures (q + ([COLON] + (v + rest))) + end == q + ([COLON] + (v + (rest + end)))
  {
  }

  lemma {:induction false} FieldsPrefix(xs: seq<Field>, ys: seq<Field>, x: Text, y: Text)
    requires PrintFields(xs) + ([125] + x) == PrintFields(ys) + ([125] + y)
    ensures xs == ys && x == y
    decreases SizeFields(xs), 0
  {
    hide Print, Terminated, PrintFields, AfterField, Quote;
    FieldsNonempty(xs, x);
    FieldsNonempty(ys, y);
    if |xs| == 0 {
      NoItems();
      RestForm([], x, 125);
      RestForm([], y, 125);
      DropPrefix([125], x, [125], y);
    } else {
      FieldsForm(xs);
      FieldsForm(ys);
      FieldText(Quote(xs[0].key), Print(xs[0].value), AfterField(xs), [125] + x);
      FieldText(Quote(ys[0].key), Print(ys[0].value), AfterField(ys), [125] + y);
      AfterFieldForm(xs);
      AfterFieldForm(ys);
      AfterTerminated(AfterField(xs), x, 125);
      AfterTerminated(AfterField(ys), y, 125);
      var a, b := AfterField(xs) + ([125] + x), AfterField(ys) + ([125] + y);
      QuotePrefix(xs[0].key, ys[0].key, [COLON] + (Print(xs[0].value) + a), [COLON] + (Print(ys[0].value) + b));
      DropPrefix([COLON], Print(xs[0].value) + a, [COLON], Print(ys[0].value) + b);
      PrintPrefix(xs[0].value, ys[0].value, a, b);
      if |xs| == 1 {
        RestForm([], x, 125);
        RestForm([], y, 125);
        DropPrefix([125], x, [125], y);
        assert xs == [xs[0]] && ys == [ys[0]];
      } else {
        RestForm(PrintFields(xs[1..]), x, 125);
        RestForm(PrintFields(ys[1..]), y, 125);
        DropPrefix([COMMA], PrintFields(xs[1..]) + ([125] + x), [COMMA], PrintFields(ys[1..]) + ([125] + y));
        FieldsPrefix(xs[1..], ys[1..], x, y);
        assert xs == [xs[0]] + xs[1..] && ys == [ys[0]] + ys[1..];
      }
    }
  }

  /** Equal texts come from equal values. */
  lemma PrintInjective(v: Value, w: Value)
    ensures Print(v) == Print(w) <==> v == w
  {
    if Print(v) == Print(w) {
      assert Print(v) + [] == Print(w) + [];
      PrintPrefix(v, w, [], []);
    }
  }
}
