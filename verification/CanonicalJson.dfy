/** Canonical JSON: objects are rebuilt with sorted keys and printed as ECMAScript prints them.  Strings
    are sequences of UTF-16 code units; a finite number is the text ECMAScript gives it, which is the
    same for two numbers only if they are equal (0 and -0 are one number here). */
module CanonicalJson {
  import opened Basics

  type Unit = u: int | 0 <= u < 0x10000 witness 0

  type Text = seq<Unit>

  const QUOTE: Unit := 34
  const COMMA: Unit := 44
  const ZERO: Unit := 48
  const COLON: Unit := 58
  const BACKSLASH: Unit := 92

  /** The characters of number texts: digits, signs, point and exponent. */
  predicate NumberUnit(u: Unit) {
    (ZERO <= u <= 57) || u == 45 || u == 43 || u == 46 || u == 101
  }

  predicate IsNumberText(s: Text) { |s| > 0 && forall i :: 0 <= i < |s| ==> NumberUnit(s[i]) }

  type NumberText = s: Text | IsNumberText(s) witness [48]

  /** A JSON value; an object is its own properties in enumeration order. */
  datatype Value =
    | Null
    | Bool(value: bool)
    | Number(digits: NumberText)
    | String(text: Text)
    | List(items: seq<Value>)
    | Object(fields: seq<Field>)

  datatype Member<T> = Field(key: Text, value: T)

  type Field = Member<Value>

  // ---------------------------------------------------------------- key order

  predicate Less(s: Text, t: Text) {
    if |t| == 0 then false
    else if |s| == 0 then true
    else s[0] < t[0] || (s[0] == t[0] && Less(s[1..], t[1..]))
  }

  predicate Digit(u: Unit) { ZERO <= u <= 57 }

  function Decimal(s: Text): nat
    requires forall i :: 0 <= i < |s| ==> Digit(s[i])
  {
    if |s| == 0 then 0
    else
      assert Digit(s[|s| - 1]);
      10 * Decimal(s[..|s| - 1]) + (s[|s| - 1] - ZERO)
  }

  /** The names of array elements, which enumeration puts first and in numeric order. */
  predicate IsIndex(s: Text) {
    && |s| > 0 && (forall i :: 0 <= i < |s| ==> Digit(s[i]))
    && (s[0] == ZERO ==> |s| == 1)
    && Decimal(s) < 0xFFFF_FFFF
  }

  /** The enumeration order of an object whose keys were inserted in code unit order. */
  predicate Before(s: Text, t: Text) {
    if IsIndex(s) then (if IsIndex(t) then Decimal(s) < Decimal(t) else true)
    else !IsIndex(t) && Less(s, t)
  }

  lemma {:induction false} LessTotal(s: Text, t: Text)
    ensures s == t || Less(s, t) || Less(t, s)
  {
    if |s| > 0 && |t| > 0 && s[0] == t[0] {
      LessTotal(s[1..], t[1..]);
      assert s == [s[0]] + s[1..] && t == [t[0]] + t[1..];
    }
  }

  lemma {:induction false} LessOrder(s: Text, t: Text, u: Text)
    ensures Less(s, t) && Less(t, u) ==> Less(s, u)
    ensures Less(s, t) ==> !Less(t, s) && s != t
  {
    if |s| > 0 && |t| > 0 {
      LessOrder(s[1..], t[1..], if |u| > 0 then u[1..] else u);
    }
  }

  lemma {:induction false} LongerIsLarger(s: Text, t: Text)
    requires forall i :: 0 <= i < |s| ==> Digit(s[i])
    requires forall i :: 0 <= i < |t| ==> Digit(t[i])
    requires |s| > |t| && s[0] != ZERO
    ensures Decimal(s) > Decimal(t)
  {
    if |s| > 1 && |t| > 0 { LongerIsLarger(s[..|s| - 1], t[..|t| - 1]); }
    else if |s| > 1 { LongerIsLarger(s[..|s| - 1], t); }
  }

  lemma {:induction false} DecimalInjective(s: Text, t: Text)
    requires forall i :: 0 <= i < |s| ==> Digit(s[i])
    requires forall i :: 0 <= i < |t| ==> Digit(t[i])
    requires |s| == |t| && Decimal(s) == Decimal(t)
    ensures s == t
  {
    if |s| > 0 {
      DecimalInjective(s[..|s| - 1], t[..|t| - 1]);
      assert s == s[..|s| - 1] + [s[|s| - 1]] && t == t[..|t| - 1] + [t[|t| - 1]];
    }
  }

  lemma IndexInjective(s: Text, t: Text)
    requires IsIndex(s) && IsIndex(t) && Decimal(s) == Decimal(t)
    ensures s == t
  {
    if |s| == |t| { DecimalInjective(s, t); }
    else if |s| > |t| { LongerIsLarger(s, t); }
    else { LongerIsLarger(t, s); }
  }

  lemma BeforeTotal(s: Text, t: Text)
    ensures s == t || Before(s, t) || Before(t, s)
  {
    LessTotal(s, t);
    if IsIndex(s) && IsIndex(t) && Decimal(s) == Decimal(t) { IndexInjective(s, t); }
  }

  lemma BeforeOrder(s: Text, t: Text, u: Text)
    ensures Before(s, t) && Before(t, u) ==> Before(s, u)
    ensures Before(s, t) ==> !Before(t, s) && s != t
  {
    LessOrder(s, t, u);
    LessOrder(t, s, u);
  }

  // ---------------------------------------------------------------- objects

  const PROTO: Text := [95, 95, 112, 114, 111, 116, 111, 95, 95]

  predicate DistinctKeys(fields: seq<Field>) {
    forall i, j :: 0 <= i < j < |fields| ==> fields[i].key != fields[j].key
  }

  predicate Ordered(fields: seq<Field>) {
    forall i, j :: 0 <= i < j < |fields| ==> Before(fields[i].key, fields[j].key)
  }

  /** `output[key] = value` for a key that is not there yet: element names go in numeric order before
      all others, and assigning the prototype adds no property. */
  function Assign<T>(fields: seq<Member<T>>, x: Member<T>): seq<Member<T>> {
    if x.key == PROTO then fields
    else if IsIndex(x.key) then InsertIndex(fields, x)
    else fields + [x]
  }

  function InsertIndex<T>(fields: seq<Member<T>>, x: Member<T>): seq<Member<T>>
    requires IsIndex(x.key)
  {
    if |fields| == 0 then [x]
    else if IsIndex(fields[0].key)
         && Decimal(fields[0].key) < Decimal(x.key) then [fields[0]] + InsertIndex(fields[1..], x)
    else [x] + fields
  }

  /** `sort()` of the keys, in code unit order. */
  function SortInsert<T>(fields: seq<Member<T>>, x: Member<T>): seq<Member<T>> {
    if |fields| == 0 then [x]
    else if Less(fields[0].key, x.key) then [fields[0]] + SortInsert(fields[1..], x)
    else [x] + fields
  }

  function SortFields<T>(fields: seq<Member<T>>): seq<Member<T>> {
    if |fields| == 0 then [] else SortInsert(SortFields(fields[..|fields| - 1]), fields[|fields| - 1])
  }

  function AssignAll<T>(fields: seq<Member<T>>): seq<Member<T>> {
    if |fields| == 0 then [] else Assign(AssignAll(fields[..|fields| - 1]), fields[|fields| - 1])
  }

  /** What `norm` makes of the normalized members of an object. */
  function Rebuild<T>(fields: seq<Member<T>>): seq<Member<T>> { AssignAll(SortFields(fields)) }

  // ---------------------------------------------------------------- normalization

  function Norm(v: Value): Value {
    match v
    case List(items) => List(NormItems(items))
    case Object(fields) => Object(Rebuild(NormFields(fields)))
    case _ => v
  }

  function NormItems(items: seq<Value>): seq<Value> {
    if |items| == 0 then [] else NormItems(items[..|items| - 1]) + [Norm(items[|items| - 1])]
  }

  function NormFields(fields: seq<Field>): seq<Field> {
    if |fields| == 0 then []
    else NormFields(fields[..|fields| - 1]) + [Field(fields[|fields| - 1].key, Norm(fields[|fields| - 1].value))]
  }

  // ---------------------------------------------------------------- printing

  function Hex(n: int): Unit
    requires 0 <= n < 16
  {
    if n < 10 then ZERO + n else 97 + (n - 10)
  }

  predicate Surrogate(u: Unit) { 0xD800 <= u <= 0xDFFF }

  predicate Pair(u: Unit, v: Unit) { 0xD800 <= u <= 0xDBFF && 0xDC00 <= v <= 0xDFFF }

  function EscapeUnit(u: Unit): Text {
    [BACKSLASH, 117, Hex(u / 0x1000), Hex(u / 0x100 % 0x10), Hex(u / 0x10 % 0x10), Hex(u % 0x10)]
  }

  /** One code unit that is not part of a surrogate pair. */
  function QuoteUnit(u: Unit): Text {
    if u == QUOTE then [BACKSLASH, QUOTE]
    else if u == BACKSLASH then [BACKSLASH, BACKSLASH]
    else if u == 8 then [BACKSLASH, 98]
    else if u == 9 then [BACKSLASH, 116]
    else if u == 10 then [BACKSLASH, 110]
    else if u == 12 then [BACKSLASH, 102]
    else if u == 13 then [BACKSLASH, 114]
    else if u < 0x20 || Surrogate(u) then EscapeUnit(u)
    else [u]
  }

  function QuoteUnits(s: Text): Text {
    if |s| == 0 then []
    else if |s| > 1 && Pair(s[0], s[1]) then [s[0], s[1]] + QuoteUnits(s[2..])
    else QuoteUnit(s[0]) + QuoteUnits(s[1..])
  }

  function Quote(s: Text): Text { [QUOTE] + QuoteUnits(s) + [QUOTE] }

  function Print(v: Value): Text {
    match v
    case Null => [110, 117, 108, 108]
    case Bool(b) => if b then [116, 114, 117, 101] else [102, 97, 108, 115, 101]
    case Number(digits) => digits
    case String(text) => Quote(text)
    case List(items) => [91] + PrintItems(items) + [93]
    case Object(fields) => [123] + PrintFields(fields) + [125]
  }

  function PrintItems(items: seq<Value>): Text {
    if |items| == 0 then []
    else if |items| == 1 then Print(items[0])
    else Print(items[0]) + [COMMA] + PrintItems(items[1..])
  }

  function PrintField(x: Field): Text { Quote(x.key) + [COLON] + Print(x.value) }

  function PrintFields(fields: seq<Field>): Text {
    if |fields| == 0 then []
    else if |fields| == 1 then PrintField(fields[0])
    else PrintField(fields[0]) + [COMMA] + PrintFields(fields[1..])
  }

  function Canonicalize(v: Value): Text { Print(Norm(v)) }
}
