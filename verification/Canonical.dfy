// The canonical text of a JSON value, over UTF-16 code units: object keys sorted by code unit,
// strings encoded as section 7 of RFC 8259 requires with lone surrogates escaped.
module Canonical {
  import opened Wrappers
  import PriceText

  type Unit = n: nat | n < 0x10000
  type Text = seq<Unit>

  datatype Keyed<+T> = Keyed(key: Text, value: T)

  // A digit, a sign, a point or an exponent mark.
  predicate IsNumberUnit(u: Unit) {
    0x30 <= u <= 0x39 || u == MINUS || u == 0x2B || u == 0x2E || u == 0x65
  }

  predicate IsNumeral(t: Text) {
    t != [] && (t[0] == MINUS || 0x30 <= t[0] <= 0x39) && forall i :: 0 <= i < |t| ==> IsNumberUnit(t[i])
  }

  // A finite number is known by its ECMAScript text, fractions and exponents included.
  type Numeral = t: Text | IsNumeral(t) witness [0x30]

  datatype Json =
    | Null
    | Bool(b: bool)
    | Num(text: Numeral)
    | Str(s: Text)
    | Arr(items: seq<Json>)
    | Obj(fields: seq<Keyed<Json>>)

  const QUOTE: Unit := 0x22
  const BACKSLASH: Unit := 0x5C
  const COMMA: Unit := 0x2C
  const COLON: Unit := 0x3A
  const OPEN_ARRAY: Unit := 0x5B
  const CLOSE_ARRAY: Unit := 0x5D
  const OPEN_OBJECT: Unit := 0x7B
  const CLOSE_OBJECT: Unit := 0x7D
  const MINUS: Unit := 0x2D
  const LETTER_U: Unit := 0x75

  // ---- strings -------------------------------------------------------------------------------

  predicate High(u: Unit) {
    0xD800 <= u <= 0xDBFF
  }

  predicate Low(u: Unit) {
    0xDC00 <= u <= 0xDFFF
  }

  function HexDigit(d: nat): (u: Unit)
    requires d < 16
    ensures if d < 10 then u == 0x30 + d else u == 0x57 + d
  {
    if d < 10 then 0x30 + d else 0x57 + d
  }

  function Hex4(u: Unit): Text {
    [HexDigit(u / 16 / 16 / 16), HexDigit(u / 16 / 16 % 16), HexDigit(u / 16 % 16), HexDigit(u % 16)]
  }

  // The letter of a two-unit escape.
  function Short(u: Unit): Option<Unit> {
    if u == QUOTE then Some(QUOTE) else if u == BACKSLASH then Some(BACKSLASH)
    else if u == 8 then Some(0x62) else if u == 12 then Some(0x66) else if u == 10 then Some(0x6E)
    else if u == 13 then Some(0x72) else if u == 9 then Some(0x74) else None
  }

  // One unit that is not the first half of a surrogate pair.
  function EscapeUnit(u: Unit): Text {
    if Short(u).Some? then [BACKSLASH, Short(u).value]
    else if u < 0x20 || High(u) || Low(u) then [BACKSLASH, LETTER_U] + Hex4(u)
    else [u]
  }

  predicate Paired(s: Text) {
    |s| >= 2 && High(s[0]) && Low(s[1])
  }

  function HeadLength(s: Text): (n: nat)
    requires s != []
    ensures 1 <= n <= |s|
  {
    if Paired(s) then 2 else 1
  }

  function HeadText(s: Text): Text
    requires s != []
  {
    if Paired(s) then s[..2] else EscapeUnit(s[0])
  }

  function Escape(s: Text): Text {
    if s == [] then [] else HeadText(s) + Escape(s[HeadLength(s)..])
  }

  // JSON.stringify of a string.
  function Quoted(s: Text): Text {
    [QUOTE] + Escape(s) + [QUOTE]
  }

  // ---- numbers -------------------------------------------------------------------------------

  function Units(s: string): (t: Text)
    requires PriceText.AllDigits(s)
    ensures |t| == |s| && forall i :: 0 <= i < |s| ==> t[i] == s[i] as int && 0x30 <= t[i] <= 0x39
  {
    seq(|s|, i requires 0 <= i < |s| => s[i] as int)
  }

  // The text of an integer.
  function Integer(n: int): (t: Numeral) {
    if n < 0 then [MINUS] + Units(PriceText.Decimal(-n)) else Units(PriceText.Decimal(n))
  }

  // ---- sorting keys --------------------------------------------------------------------------

  predicate Less(a: Text, b: Text) {
    b != [] && (a == [] || a[0] < b[0] || (a[0] == b[0] && Less(a[1..], b[1..])))
  }

  function Insert<T>(s: seq<Keyed<T>>, e: Keyed<T>): seq<Keyed<T>> {
    if s == [] then [e]
    else if Less(e.key, s[0].key) then [e] + s
    else [s[0]] + Insert(s[1..], e)
  }

  function Sort<T>(s: seq<Keyed<T>>): seq<Keyed<T>> {
    if s == [] then [] else Insert(Sort(s[1..]), s[0])
  }

  // ---- canonical -----------------------------------------------------------------------------

  function Word(s: string): Text
    requires forall i :: 0 <= i < |s| ==> s[i] as int < 0x80
  {
    seq(|s|, i requires 0 <= i < |s| => s[i] as int)
  }

  function Scalar(v: Json): Text
    requires !v.Arr? && !v.Obj?
  {
    match v
    case Null => Word("null")
    case Bool(b) => if b then Word("true") else Word("false")
    case Num(text) => text
    case Str(s) => Quoted(s)
  }

  function Join(texts: seq<Text>): Text {
    if texts == [] then [] else if |texts| == 1 then texts[0] else texts[0] + [COMMA] + Join(texts[1..])
  }

  function Member(e: Keyed<Text>): Text {
    Quoted(e.key) + [COLON] + e.value
  }

  function Members(entries: seq<Keyed<Text>>): (r: seq<Text>)
    ensures |r| == |entries| && forall i :: 0 <= i < |r| ==> r[i] == Member(entries[i])
  {
    seq(|entries|, i requires 0 <= i < |entries| => Member(entries[i]))
  }

  function Canonical(v: Json): Text
    decreases v
  {
    match v
    case Arr(items) => [OPEN_ARRAY] + Join(CanonicalItems(items)) + [CLOSE_ARRAY]
    case Obj(fields) => [OPEN_OBJECT] + Join(Members(Sort(CanonicalFields(fields)))) + [CLOSE_OBJECT]
    case _ => Scalar(v)
  }

  function CanonicalItems(items: seq<Json>): seq<Text>
    decreases items
  {
    if items == [] then [] else [Canonical(items[0])] + CanonicalItems(items[1..])
  }

  function CanonicalFields(fields: seq<Keyed<Json>>): seq<Keyed<Text>>
    decreases fields
  {
    if fields == [] then [] else [Keyed(fields[0].key, Canonical(fields[0].value))] + CanonicalFields(fields[1..])
  }

  // ---- when two values are the same ------------------------------------------------------------

  // Keys of one object are distinct.
  predicate WellFormed(v: Json)
    decreases v
  {
    match v
    case Arr(items) => forall i :: 0 <= i < |items| ==> WellFormed(items[i])
    case Obj(fields) =>
      && (forall i, j :: 0 <= i < j < |fields| ==> fields[i].key != fields[j].key)
      && (forall i :: 0 <= i < |fields| ==> WellFormed(fields[i].value))
    case _ => true
  }

  // Equal up to the order of fields.
  predicate Same(v: Json, w: Json)
    decreases v
  {
    match v
    case Arr(items) => w.Arr? && |items| == |w.items| && forall i :: 0 <= i < |items| ==> Same(items[i], w.items[i])
    case Obj(fields) =>
      && w.Obj? && |fields| == |w.fields|
      && forall i :: 0 <= i < |fields| ==> exists j :: 0 <= j < |w.fields| && w.fields[j].key == fields[i].key
                                                       && Same(fields[i].value, w.fields[j].value)
    case _ => w == v
  }

  // ---- a value with its fields already in order ------------------------------------------------

  function Norm(v: Json): Json
    decreases v
  {
    match v
    case Arr(items) => Arr(NormItems(items))
    case Obj(fields) => Obj(Sort(NormFields(fields)))
    case _ => v
  }

  function NormItems(items: seq<Json>): (r: seq<Json>)
    ensures |r| == |items| && forall i :: 0 <= i < |items| ==> r[i] == Norm(items[i])
    decreases items
  {
    if items == [] then [] else [Norm(items[0])] + NormItems(items[1..])
  }

  function NormFields(fields: seq<Keyed<Json>>): (r: seq<Keyed<Json>>)
    ensures |r| == |fields| && forall i :: 0 <= i < |fields| ==> r[i] == Keyed(fields[i].key, Norm(fields[i].value))
    decreases fields
  {
    if fields == [] then [] else [Keyed(fields[0].key, Norm(fields[0].value))] + NormFields(fields[1..])
  }

  // The text of a value as it stands.
  function Render(v: Json): Text
    decreases v
  {
    match v
    case Arr(items) => [OPEN_ARRAY] + RenderItems(items) + [CLOSE_ARRAY]
    case Obj(fields) => [OPEN_OBJECT] + RenderFields(fields) + [CLOSE_OBJECT]
    case _ => Scalar(v)
  }

  function RenderItems(items: seq<Json>): Text
    decreases items
  {
    if items == [] then [] else if |items| == 1 then Render(items[0])
        else Render(items[0]) + [COMMA] + RenderItems(items[1..])
  }

  function RenderFields(fields: seq<Keyed<Json>>): Text
    decreases fields
  {
    if fields == [] then []
    else
      var member := Quoted(fields[0].key) + [COLON] + Render(fields[0].value);
      if |fields| == 1 then member else member + [COMMA] + RenderFields(fields[1..])
  }
}
