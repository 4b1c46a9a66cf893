// Unique readability: two requests have the same canonical text exactly when they are the same
// request up to the order of their fields.
module CanonicalText {
  import opened Wrappers
  import opened Canonical
  import PriceText

  // ---- canonical text is the rendering of the sorted value -----------------------------------

  function Texts(fields: seq<Keyed<Json>>): (r: seq<Keyed<Text>>)
    ensures |r| == |fields| && forall i :: 0 <= i < |r| ==> r[i] == Keyed(fields[i].key, Render(fields[i].value))
  {
    seq(|fields|, i requires 0 <= i < |fields| => Keyed(fields[i].key, Render(fields[i].value)))
  }

  lemma {:induction false} InsertCommutes(s: seq<Keyed<Json>>, e: Keyed<Json>)
    ensures Insert(Texts(s), Keyed(e.key, Render(e.value))) == Texts(Insert(s, e))
    decreases |s|
  {
    var t, r := Texts(s), Keyed(e.key, Render(e.value));
    if s == [] {
      assert Texts([e]) == [r];
    } else if Less(e.key, s[0].key) {
      assert Texts([e] + s) == [r] + t;
    } else {
      InsertCommutes(s[1..], e);
      assert Texts(s[1..]) == t[1..];
      assert Texts([s[0]] + Insert(s[1..], e)) == [t[0]] + Texts(Insert(s[1..], e));
    }
  }

  lemma {:induction false} SortCommutes(s: seq<Keyed<Json>>)
    ensures Sort(Texts(s)) == Texts(Sort(s))
    decreases |s|
  {
    if s == [] {
    } else {
      SortCommutes(s[1..]);
      assert Texts(s)[1..] == Texts(s[1..]);
      InsertCommutes(Sort(s[1..]), s[0]);
    }
  }

  lemma {:induction false} JoinedMembers(fields: seq<Keyed<Json>>)
    ensures Join(Members(Texts(fields))) == RenderFields(fields)
    decreases |fields|
  {
    if |fields| > 1 {
      JoinedMembers(fields[1..]);
      assert Members(Texts(fields))[1..] == Members(Texts(fields[1..]));
    }
  }

  lemma {:induction false} CanonicalIsRender(v: Json)
    ensures Canonical.Canonical(v) == Render(Norm(v))
    decreases v
  {
    match v
    case Arr(items) => ItemsAreRendered(items);
    case Obj(fields) =>
      FieldsAreRendered(fields);
      SortCommutes(NormFields(fields));
      JoinedMembers(Sort(NormFields(fields)));
    case _ =>
  }

  lemma {:induction false} ItemsAreRendered(items: seq<Json>)
    ensures Join(CanonicalItems(items)) == RenderItems(NormItems(items)) && |CanonicalItems(items)| == |items|
    decreases items
  {
    if items == [] {
    } else {
      CanonicalIsRender(items[0]);
      ItemsAreRendered(items[1..]);
      assert NormItems(items)[1..] == NormItems(items[1..]) && CanonicalItems(items)[1..] == CanonicalItems(items[1..]);
    }
  }

  lemma {:induction false} FieldsAreRendered(fields: seq<Keyed<Json>>)
    ensures CanonicalFields(fields) == Texts(NormFields(fields))
    decreases fields
  {
    if fields == [] {
    } else {
      CanonicalIsRender(fields[0].value);
      FieldsAreRendered(fields[1..]);
      assert NormFields(fields)[1..] == NormFields(fields[1..]);
      assert Texts(NormFields(fields))[1..] == Texts(NormFields(fields)[1..]);
    }
  }

  // ---- strings read back ---------------------------------------------------------------------

  lemma DigitIsInjective(a: nat, b: nat)
    requires a < 16 && b < 16 && HexDigit(a) == HexDigit(b)
    ensures a == b
  {
  }

  lemma Hex4IsInjective(a: Unit, b: Unit)
    requires Hex4(a) == Hex4(b)
    ensures a == b
  {
    var s, t := Hex4(a), Hex4(b);
    assert s[0] == t[0] && s[1] == t[1] && s[2] == t[2] && s[3] == t[3];
    DigitIsInjective(a / 16 / 16 / 16, b / 16 / 16 / 16);
    DigitIsInjective(a / 16 / 16 % 16, b / 16 / 16 % 16);
    DigitIsInjective(a / 16 % 16, b / 16 % 16);
    DigitIsInjective(a % 16, b % 16);
    hide HexDigit, Hex4;
  }

  // The first token of an encoded string tells the units it stands for.
  lemma HeadReads(s: Text, t: Text, x: Text, y: Text)
    requires s != [] && t != [] && HeadText(s) + x == HeadText(t) + y
    ensures HeadLength(s) == HeadLength(t) && s[..HeadLength(s)] == t[..HeadLength(t)] && x == y
  {
    var h, g := HeadText(s), HeadText(t);
    var all := h + x;
    assert all[0] == h[0] == g[0];
    if Paired(s) {
      assert all[1] == s[1];
      assert Paired(t);
      assert g == h;
    } else if h[0] == BACKSLASH {
      assert !Paired(t) && all[1] == h[1] == g[1];
      if h[1] == LETTER_U {
        assert |h| == |g| == 6 && h == all[..6] == g;
        assert h[2..] == Hex4(s[0]) && g[2..] == Hex4(t[0]);
        Hex4IsInjective(s[0], t[0]);
      } else {
        assert |h| == |g| == 2 && h == all[..2] == g;
      }
    } else {
      assert !Paired(t) && h == [s[0]] && g == [t[0]];
    }
    assert |h| == |g| && x == all[|h|..] && y == all[|g|..];
  }

  lemma Assoc(a: Text, b: Text, c: Text, d: Text)
    ensures (a + b) + c == a + (b + c) && ((a + b) + c) + d == a + ((b + c) + d)
  {
  }

  // What follows the opening quote of s.
  function Tail(s: Text, x: Text): Text {
    Escape(s) + [QUOTE] + x
  }

  lemma TailSplits(s: Text, x: Text)
    ensures s == [] ==> Tail(s, x) == [QUOTE] + x
    ensures s != [] ==> Tail(s, x) == HeadText(s) + Tail(s[HeadLength(s)..], x)
    ensures Tail(s, x) != [] && (Tail(s, x)[0] == QUOTE <==> s == [])
  {
    if s != [] {
      Assoc(HeadText(s), Escape(s[HeadLength(s)..]), [QUOTE], x);
      assert HeadText(s) != [] && HeadText(s)[0] != QUOTE;
    }
  }

  lemma {:induction false} StringReads(s: Text, t: Text, x: Text, y: Text)
    requires Tail(s, x) == Tail(t, y)
    ensures s == t && x == y
    decreases |s|
  {
    hide Tail, HeadText, HeadLength;
    TailSplits(s, x);
    TailSplits(t, y);
    if s == [] {
      assert x == ([QUOTE] + x)[1..] && y == ([QUOTE] + y)[1..];
    } else {
      var n, m := HeadLength(s), HeadLength(t);
      HeadReads(s, t, Tail(s[n..], x), Tail(t[m..], y));
      StringReads(s[n..], t[m..], x, y);
      assert s == s[..n] + s[n..] && t == t[..m] + t[m..];
    }
  }

  lemma QuotedReads(s: Text, t: Text, x: Text, y: Text)
    requires Quoted(s) + x == Quoted(t) + y
    ensures s == t && x == y
  {
    assert (Quoted(s) + x)[1..] == Tail(s, x) && (Quoted(t) + y)[1..] == Tail(t, y);
    hide Tail;
    StringReads(s, t, x, y);
  }

  // ---- numbers read back -----------------------------------------------------------------------

  // What may follow a value: nothing, a comma or a closing bracket.
  predicate Ends(x: Text) {
    x == [] || x[0] == COMMA || x[0] == CLOSE_ARRAY || x[0] == CLOSE_OBJECT
  }

  predicate IsDigitUnit(u: Unit) {
    0x30 <= u <= 0x39
  }

  // The digits at the start of a text are just those of the number it starts with.
  predicate StartsWithDigits(text: Text, k: nat) {
    k <= |text| && (forall i :: 0 <= i < k ==> IsDigitUnit(text[i])) && (k < |text| ==> !IsDigitUnit(text[k]))
  }

  lemma DigitsEnd(a: string, x: Text)
    requires PriceText.AllDigits(a) && Ends(x)
    ensures StartsWithDigits(Units(a) + x, |a|) && (Units(a) + x)[..|a|] == Units(a) && (Units(a) + x)[|a|..] == x
  {
    assert x != [] ==> (Units(a) + x)[|a|] == x[0];
  }

  lemma DigitCountIsUnique(text: Text, j: nat, k: nat)
    requires StartsWithDigits(text, j) && StartsWithDigits(text, k)
    ensures j == k
  {
  }

  lemma DigitsRead(a: string, b: string, x: Text, y: Text)
    requires PriceText.AllDigits(a) && PriceText.AllDigits(b) && Units(a) + x == Units(b) + y && Ends(x) && Ends(y)
    ensures a == b && x == y
  {
    DigitsEnd(a, x);
    DigitsEnd(b, y);
    DigitCountIsUnique(Units(a) + x, |a|, |b|);
    assert forall i :: 0 <= i < |a| ==> Units(a)[i] == Units(b)[i] && a[i] as int == b[i] as int;
    assert a == b;
  }

  lemma SignSplits(digits: Text, x: Text)
    requires digits != [] && IsDigitUnit(digits[0])
    ensures (digits + x)[0] != MINUS && ([MINUS] + digits + x)[0] == MINUS && ([MINUS] + digits + x)[1..] == digits + x
  {
  }

  lemma IntegerSplits(n: int, x: Text)
    ensures var text: Text := Integer(n) + x;
            && text != [] && (text[0] == MINUS <==> n < 0)
            && (if n < 0 then text[1..] == Units(PriceText.Decimal(-n)) + x
               else text == Units(PriceText.Decimal(n)) + x)
  {
    var digits := Units(PriceText.Decimal(if n < 0 then -n else n));
    hide PriceText.Decimal, Units;
    SignSplits(digits, x);
  }

  lemma IntegerReads(n: int, m: int, x: Text, y: Text)
    requires Integer(n) + x == Integer(m) + y && Ends(x) && Ends(y)
    ensures n == m && x == y
  {
    var i, j := if n < 0 then -n else n, if m < 0 then -m else m;
    hide PriceText.Decimal, PriceText.Parse, Ends, Integer, Units;
    PriceText.ParseDecimal(i);
    PriceText.ParseDecimal(j);
    IntegerSplits(n, x);
    IntegerSplits(m, y);
    DigitsRead(PriceText.Decimal(i), PriceText.Decimal(j), x, y);
  }

  // Different integers have different numerals.
  lemma IntegersAreNumerals(n: int, m: int)
    ensures Integer(n) == Integer(m) <==> n == m
  {
    if Integer(n) == Integer(m) {
      IntegerReads(n, m, [], []);
    }
  }

  predicate StartsWithNumeral(text: Text, k: nat) {
    k <= |text| && (forall i :: 0 <= i < k ==> IsNumberUnit(text[i])) && (k < |text| ==> !IsNumberUnit(text[k]))
  }

  lemma NumeralEnds(a: Numeral, x: Text)
    requires Ends(x)
    ensures StartsWithNumeral(a + x, |a|) && (a + x)[..|a|] == a && (a + x)[|a|..] == x
  {
    assert x != [] ==> (a + x)[|a|] == x[0];
  }

  // A numeral ends where no unit of a number follows.
  lemma NumeralReads(a: Numeral, b: Numeral, x: Text, y: Text)
    requires a + x == b + y && Ends(x) && Ends(y)
    ensures a == b && x == y
  {
    NumeralEnds(a, x);
    NumeralEnds(b, y);
    assert |a| == |b|;
  }

  // ---- values read back ------------------------------------------------------------------------

  // A code for the kind of a value, read off its first unit.
  function Kind(u: Unit): nat {
    if u == OPEN_ARRAY then 1 else if u == OPEN_OBJECT then 2 else if u == QUOTE then 3
    else if u == MINUS || IsDigitUnit(u) then 4 else if u == 0x74 then 5 else if u == 0x66 then 6
        else if u == 0x6E then 7 else 0
  }

  function KindOf(v: Json): nat {
    match v
    case Arr(_) => 1
    case Obj(_) => 2
    case Str(_) => 3
    case Num(_) => 4
    case Bool(b) => if b then 5 else 6
    case Null => 7
  }

  lemma FirstUnitTellsKind(v: Json)
    ensures Render(v) != [] && Kind(Render(v)[0]) == KindOf(v)
    ensures !Ends(Render(v))
  {
    match v
    case Bool(b) => assert Word("true")[0] == 0x74 && Word("false")[0] == 0x66;
    case Null => assert Word("null")[0] == 0x6E;
    case _ =>
  }

  function Closed(p: Text, close: Unit, x: Text): Text {
    p + [close] + x
  }

  lemma Opened(open: Unit, p: Text, close: Unit, x: Text)
    ensures ([open] + p + [close]) + x == [open] + Closed(p, close, x)
            && (([open] + p + [close]) + x)[1..] == Closed(p, close, x)
  {
    Assoc([open], p, [close], x);
  }

  // Two texts that agree with whatever follows them come from the same value.
  lemma {:induction false} Readable(v: Json, w: Json, x: Text, y: Text)
    requires Render(v) + x == Render(w) + y && Ends(x) && Ends(y)
    ensures v == w && x == y
    decreases v
  {
    SameKind(v, w, x, y);
    hide Closed, Ends;
    match v
    case Arr(items) =>
      Opened(OPEN_ARRAY, RenderItems(items), CLOSE_ARRAY, x);
      Opened(OPEN_ARRAY, RenderItems(w.items), CLOSE_ARRAY, y);
      ItemsRead(items, w.items, x, y);
    case Obj(fields) =>
      Opened(OPEN_OBJECT, RenderFields(fields), CLOSE_OBJECT, x);
      Opened(OPEN_OBJECT, RenderFields(w.fields), CLOSE_OBJECT, y);
      FieldsRead(fields, w.fields, x, y);
    case _ => ScalarsRead(v, w, x, y);
  }

  lemma SameKind(v: Json, w: Json, x: Text, y: Text)
    requires Render(v) + x == Render(w) + y
    ensures KindOf(v) == KindOf(w)
  {
    FirstUnitTellsKind(v);
    FirstUnitTellsKind(w);
    hide Render;
    assert (Render(v) + x)[0] == Render(v)[0] && (Render(w) + y)[0] == Render(w)[0];
  }

  lemma ScalarsRead(v: Json, w: Json, x: Text, y: Text)
    requires !v.Arr? && !v.Obj? && KindOf(v) == KindOf(w) && Scalar(v) + x == Scalar(w) + y && Ends(x) && Ends(y)
    ensures v == w && x == y
  {
    hide Quoted, Ends;
    if v.Str? {
      QuotedReads(v.s, w.s, x, y);
    } else if v.Num? {
      NumeralReads(v.text, w.text, x, y);
    } else {
      assert x == (Scalar(v) + x)[|Scalar(v)|..] && y == (Scalar(w) + y)[|Scalar(w)|..];
    }
  }

  // What is left after the first of several parts.
  function Rest(more: bool, rest: Text, close: Unit, x: Text): Text {
    if more then [COMMA] + Closed(rest, close, x) else [close] + x
  }

  lemma RestReads(a: bool, b: bool, p: Text, q: Text, close: Unit, x: Text, y: Text)
    requires Rest(a, p, close, x) == Rest(b, q, close, y) && close != COMMA
    ensures a == b && (a ==> Closed(p, close, x) == Closed(q, close, y)) && (!a ==> x == y)
  {
    var s, t := Rest(a, p, close, x), Rest(b, q, close, y);
    hide Closed;
    assert s[0] == t[0];
    if a {
      assert s[1..] == Closed(p, close, x) && t[1..] == Closed(q, close, y);
    } else {
      assert s[1..] == x && t[1..] == y;
    }
  }

  // A closed list starts with its closing bracket only when it is empty.
  lemma ItemsSplit(items: seq<Json>, x: Text)
    ensures var text := Closed(RenderItems(items), CLOSE_ARRAY, x);
            && text != [] && (text[0] == CLOSE_ARRAY <==> items == [])
            && (items == [] ==> text[1..] == x)
            && (items != [] ==> text == Render(items[0]) + Rest(|items| > 1, RenderItems(items[1..]), CLOSE_ARRAY, x))
  {
    if items != [] {
      FirstUnitTellsKind(items[0]);
      ListSplits(Render(items[0]), RenderItems(items[1..]), CLOSE_ARRAY, x);
      hide Render, Closed;
      assert RenderItems(items) == if |items| == 1 then Render(items[0])
          else Render(items[0]) + [COMMA] + RenderItems(items[1..]);
    }
  }

  lemma ListSplits(first: Text, rest: Text, close: Unit, x: Text)
    ensures Closed(first + [COMMA] + rest, close, x) == first + Rest(true, rest, close, x)
            && Closed(first, close, x) == first + Rest(false, rest, close, x)
  {
  }

  lemma {:induction false} ItemsRead(s: seq<Json>, t: seq<Json>, x: Text, y: Text)
    requires Closed(RenderItems(s), CLOSE_ARRAY, x) == Closed(RenderItems(t), CLOSE_ARRAY, y)
    ensures s == t && x == y
    decreases s
  {
    hide Closed, Render;
    ItemsSplit(s, x);
    ItemsSplit(t, y);
    if s == [] {
    } else {
      var p, q := Rest(|s| > 1, RenderItems(s[1..]), CLOSE_ARRAY, x),
          Rest(|t| > 1, RenderItems(t[1..]), CLOSE_ARRAY, y);
      Readable(s[0], t[0], p, q);
      RestReads(|s| > 1, |t| > 1, RenderItems(s[1..]), RenderItems(t[1..]), CLOSE_ARRAY, x, y);
      if |s| > 1 {
        ItemsRead(s[1..], t[1..], x, y);
      }
      assert s == [s[0]] + s[1..] && t == [t[0]] + t[1..];
    }
  }

  lemma FieldsSplit(fields: seq<Keyed<Json>>, x: Text)
    ensures var text := Closed(RenderFields(fields), CLOSE_OBJECT, x);
            && text != [] && (text[0] == CLOSE_OBJECT <==> fields == [])
            && (fields == [] ==> text[1..] == x)
            && (fields != [] ==>
                  text == Quoted(fields[0].key)
                          + ([COLON]
                             + (Render(fields[0].value)
                                + Rest(|fields| > 1, RenderFields(fields[1..]), CLOSE_OBJECT, x))))
  {
    if fields != [] {
      var k, v, rest := Quoted(fields[0].key), Render(fields[0].value), RenderFields(fields[1..]);
      assert k[0] == QUOTE;
      ListSplits(k + [COLON] + v, rest, CLOSE_OBJECT, x);
      MemberSplits(k, v, Rest(|fields| > 1, rest, CLOSE_OBJECT, x));
      hide Quoted, Render, Closed, Rest;
      assert RenderFields(fields) == if |fields| == 1 then k + [COLON] + v else k + [COLON] + v + [COMMA] + rest;
    }
  }

  lemma MemberSplits(k: Text, v: Text, z: Text)
    ensures (k + [COLON] + v) + z == k + ([COLON] + (v + z))
  {
  }

  lemma {:induction false} FieldsRead(s: seq<Keyed<Json>>, t: seq<Keyed<Json>>, x: Text, y: Text)
    requires Closed(RenderFields(s), CLOSE_OBJECT, x) == Closed(RenderFields(t), CLOSE_OBJECT, y)
    ensures s == t && x == y
    decreases s
  {
    hide Closed, Render, Quoted;
    FieldsSplit(s, x);
    FieldsSplit(t, y);
    if s == [] {
    } else {
      var p, q := Rest(|s| > 1, RenderFields(s[1..]), CLOSE_OBJECT, x),
          Rest(|t| > 1, RenderFields(t[1..]), CLOSE_OBJECT, y);
      var a, b := [COLON] + (Render(s[0].value) + p), [COLON] + (Render(t[0].value) + q);
      QuotedReads(s[0].key, t[0].key, a, b);
      assert a[1..] == Render(s[0].value) + p && b[1..] == Render(t[0].value) + q;
      Readable(s[0].value, t[0].value, p, q);
      RestReads(|s| > 1, |t| > 1, RenderFields(s[1..]), RenderFields(t[1..]), CLOSE_OBJECT, x, y);
      if |s| > 1 {
        FieldsRead(s[1..], t[1..], x, y);
      }
      assert s == [s[0]] + s[1..] && t == [t[0]] + t[1..];
    }
  }

  // ---- sorted fields ----------------------------------------------------------------------------

  lemma {:induction false} LessIsTotal(a: Text, b: Text)
    ensures !Less(a, a) && (Less(a, b) || Less(b, a) || a == b) && !(Less(a, b) && Less(b, a))
    decreases |a|
  {
    if a == [] {
    } else {
      LessIsTotal(a[1..], if b != [] then b[1..] else []);
      assert a == [a[0]] + a[1..] && (b != [] ==> b == [b[0]] + b[1..]);
    }
  }

  lemma {:induction false} LessIsTransitive(a: Text, b: Text, c: Text)
    requires Less(a, b) && Less(b, c)
    ensures Less(a, c)
    decreases |a|
  {
    if a != [] && a[0] == b[0] == c[0] {
      LessIsTransitive(a[1..], b[1..], c[1..]);
    }
  }

  predicate Distinct(s: seq<Keyed<Json>>) {
    forall i, j :: 0 <= i < j < |s| ==> s[i].key != s[j].key
  }

  predicate Ordered(s: seq<Keyed<Json>>) {
    forall i, j :: 0 <= i < j < |s| ==> Less(s[i].key, s[j].key)
  }

  lemma {:induction false} InsertAdds(s: seq<Keyed<Json>>, e: Keyed<Json>)
    ensures multiset(Insert(s, e)) == multiset(s) + multiset{e} && |Insert(s, e)| == |s| + 1
    decreases |s|
  {
    if s != [] && !Less(e.key, s[0].key) {
      InsertAdds(s[1..], e);
      assert s == [s[0]] + s[1..];
    }
  }

  lemma OrderedFront(e: Keyed<Json>, s: seq<Keyed<Json>>)
    requires Ordered(s) && forall x :: x in s ==> Less(e.key, x.key)
    ensures Ordered([e] + s)
  {
  }

  lemma LessThanAll(e: Keyed<Json>, s: seq<Keyed<Json>>)
    requires Ordered(s) && s != [] && Less(e.key, s[0].key)
    ensures forall x :: x in s ==> Less(e.key, x.key)
  {
    forall i | 0 < i < |s| ensures Less(e.key, s[i].key) {
      LessIsTransitive(e.key, s[0].key, s[i].key);
    }
  }

  lemma {:induction false} InsertKeepsOrder(s: seq<Keyed<Json>>, e: Keyed<Json>)
    requires Ordered(s) && forall x :: x in s ==> x.key != e.key
    ensures Ordered(Insert(s, e))
    decreases |s|
  {
    hide Less;
    if s == [] {
    } else {
      LessIsTotal(e.key, s[0].key);
      if Less(e.key, s[0].key) {
        LessThanAll(e, s);
        OrderedFront(e, s);
      } else {
        InsertKeepsOrder(s[1..], e);
        InsertAdds(s[1..], e);
        forall x | x in Insert(s[1..], e) ensures Less(s[0].key, x.key) {
          assert x in multiset(Insert(s[1..], e));
          assert x in s[1..] || x == e;
        }
        OrderedFront(s[0], Insert(s[1..], e));
      }
    }
  }

  lemma {:induction false} SortAdds(s: seq<Keyed<Json>>)
    ensures multiset(Sort(s)) == multiset(s) && |Sort(s)| == |s|
    decreases |s|
  {
    if s == [] {
    } else {
      SortAdds(s[1..]);
      InsertAdds(Sort(s[1..]), s[0]);
      assert s == [s[0]] + s[1..];
    }
  }

  lemma {:induction false} SortOrders(s: seq<Keyed<Json>>)
    requires Distinct(s)
    ensures Ordered(Sort(s)) && multiset(Sort(s)) == multiset(s) && |Sort(s)| == |s|
    decreases |s|
  {
    hide Less, Insert;
    SortAdds(s);
    if s == [] {
    } else {
      SortOrders(s[1..]);
      forall x | x in Sort(s[1..]) ensures x.key != s[0].key {
        assert x in multiset(Sort(s[1..])) && x in s[1..];
      }
      InsertKeepsOrder(Sort(s[1..]), s[0]);
    }
  }

  lemma {:induction false} OrderedIsUnique(a: seq<Keyed<Json>>, b: seq<Keyed<Json>>)
    requires Ordered(a) && Ordered(b) && multiset(a) == multiset(b)
    ensures a == b
    decreases |a|
  {
    assert |a| == |multiset(a)| == |multiset(b)| == |b|;
    if a == [] {
    } else {
      FirstIsLeast(a, b);
      FirstIsLeast(b, a);
      SameFirst(a, b);
      TailsAgree(a, b);
      OrderedIsUnique(a[1..], b[1..]);
      assert a == [a[0]] + a[1..] && b == [b[0]] + b[1..];
    }
  }

  lemma TailsAgree(a: seq<Keyed<Json>>, b: seq<Keyed<Json>>)
    requires a != [] && b != [] && a[0] == b[0] && multiset(a) == multiset(b)
    ensures multiset(a[1..]) == multiset(b[1..])
  {
    assert a == [a[0]] + a[1..] && b == [b[0]] + b[1..];
    assert multiset(a[1..]) == multiset(a) - multiset{a[0]};
  }

  lemma FirstIsLeast(a: seq<Keyed<Json>>, b: seq<Keyed<Json>>)
    requires Ordered(b) && multiset(a) == multiset(b) && a != [] && b != []
    ensures a[0] == b[0] || Less(b[0].key, a[0].key)
  {
    assert a[0] in multiset(b);
    var k :| 0 <= k < |b| && b[k] == a[0];
  }

  lemma SameFirst(a: seq<Keyed<Json>>, b: seq<Keyed<Json>>)
    requires a != [] && b != [] && (a[0] == b[0] || Less(b[0].key, a[0].key))
             && (a[0] == b[0] || Less(a[0].key, b[0].key))
    ensures a[0] == b[0]
  {
    LessIsTotal(a[0].key, b[0].key);
  }

  // ---- same values, same normal form --------------------------------------------------------------

  lemma RemoveOne(b: seq<Keyed<Json>>, k: nat)
    requires k < |b|
    ensures multiset(b[..k] + b[k + 1..]) == multiset(b) - multiset{b[k]} && |b[..k] + b[k + 1..]| == |b| - 1
    ensures forall x :: x in b && x != b[k] ==> x in b[..k] + b[k + 1..]
  {
    assert b == b[..k] + [b[k]] + b[k + 1..];
  }

  lemma {:induction false} AllIn(a: seq<Keyed<Json>>, b: seq<Keyed<Json>>)
    requires Distinct(a) && |a| == |b| && forall i :: 0 <= i < |a| ==> a[i] in b
    ensures multiset(a) == multiset(b)
    decreases |a|
  {
    if a == [] {
    } else {
      assert a[0] in b;
      var k :| 0 <= k < |b| && b[k] == a[0];
      var rest := b[..k] + b[k + 1..];
      RemoveOne(b, k);
      forall i | 0 <= i < |a[1..]| ensures a[1..][i] in rest {
        assert a[1..][i] == a[i + 1] && a[i + 1] in b && a[i + 1] != b[k];
      }
      AllIn(a[1..], rest);
      TailAdds(a);
      assert b[k] in multiset(b);
    }
  }

  lemma TailAdds(a: seq<Keyed<Json>>)
    requires a != []
    ensures multiset(a) == multiset{a[0]} + multiset(a[1..])
  {
    assert a == [a[0]] + a[1..];
  }

  lemma {:induction false} SameHasOneForm(v: Json, w: Json)
    requires WellFormed(v) && WellFormed(w)
    ensures Same(v, w) <==> Norm(v) == Norm(w)
    decreases v
  {
    match v
    case Arr(items) =>
      if w.Arr? && |items| == |w.items| {
        forall i | 0 <= i < |items| ensures Same(items[i], w.items[i])
            <==> NormItems(items)[i] == NormItems(w.items)[i] {
          SameHasOneForm(items[i], w.items[i]);
        }
      }
    case Obj(fields) =>
      if w.Obj? {
        assert ValuesDecided(fields, w.fields) by {
          forall i, j | 0 <= i < |fields| && 0 <= j < |w.fields|
            ensures Same(fields[i].value, w.fields[j].value) <==> Norm(fields[i].value) == Norm(w.fields[j].value) {
            SameHasOneForm(fields[i].value, w.fields[j].value);
          }
        }
        FieldsHaveOneForm(fields, w.fields);
      }
    case _ =>
  }

  ghost predicate Matched(e: Keyed<Json>, g: seq<Keyed<Json>>) {
    exists j :: 0 <= j < |g| && g[j].key == e.key && Same(e.value, g[j].value)
  }

  ghost predicate ValuesDecided(f: seq<Keyed<Json>>, g: seq<Keyed<Json>>) {
    forall i, j :: 0 <= i < |f| && 0 <= j < |g|
                   ==> (Same(f[i].value, g[j].value) <==> Norm(f[i].value) == Norm(g[j].value))
  }

  lemma MatchedIsIn(f: seq<Keyed<Json>>, g: seq<Keyed<Json>>, i: nat)
    requires i < |f| && ValuesDecided(f, g)
    ensures Matched(f[i], g) <==> NormFields(f)[i] in NormFields(g)
  {
    var a, b := NormFields(f), NormFields(g);
    hide Norm, Same, NormFields;
    if Matched(f[i], g) {
      var j :| 0 <= j < |g| && g[j].key == f[i].key && Same(f[i].value, g[j].value);
      assert b[j] == a[i];
    }
    if a[i] in b {
      var j :| 0 <= j < |b| && b[j] == a[i];
      assert g[j].key == f[i].key && Same(f[i].value, g[j].value);
    }
  }

  lemma SortedAlike(a: seq<Keyed<Json>>, b: seq<Keyed<Json>>)
    requires Distinct(a) && Distinct(b)
    ensures Sort(a) == Sort(b) <==> |a| == |b| && forall i :: 0 <= i < |a| ==> a[i] in b
  {
    SortOrders(a);
    SortOrders(b);
    hide Sort, Ordered, Distinct;
    if Sort(a) == Sort(b) {
      forall i | 0 <= i < |a| ensures a[i] in b {
        assert a[i] in multiset(a);
      }
    } else if |a| == |b| && forall i :: 0 <= i < |a| ==> a[i] in b {
      AllIn(a, b);
      OrderedIsUnique(Sort(a), Sort(b));
    }
  }

  lemma SameObjects(f: seq<Keyed<Json>>, g: seq<Keyed<Json>>)
    ensures Same(Obj(f), Obj(g)) <==> |f| == |g| && forall i :: 0 <= i < |f| ==> Matched(f[i], g)
  {
    ObjectsMatch(f, g);
    MatchedObjects(f, g);
  }

  lemma ObjectsMatch(f: seq<Keyed<Json>>, g: seq<Keyed<Json>>)
    ensures Same(Obj(f), Obj(g)) ==> |f| == |g| && forall i :: 0 <= i < |f| ==> Matched(f[i], g)
  {
    var v, w := Obj(f), Obj(g);
    if Same(v, w) {
      forall i | 0 <= i < |f| ensures Matched(f[i], g) {
        var j :| 0 <= j < |w.fields| && w.fields[j].key == v.fields[i].key
            && Same(v.fields[i].value, w.fields[j].value);
        assert g[j].key == f[i].key;
      }
    }
  }

  lemma MatchedObjects(f: seq<Keyed<Json>>, g: seq<Keyed<Json>>)
    ensures |f| == |g| && (forall i :: 0 <= i < |f| ==> Matched(f[i], g)) ==> Same(Obj(f), Obj(g))
  {
    var v, w := Obj(f), Obj(g);
    if |f| == |g| && forall i :: 0 <= i < |f| ==> Matched(f[i], g) {
      forall i | 0 <= i < |v.fields| ensures exists j :: 0 <= j < |w.fields| && w.fields[j].key == v.fields[i].key
                                                         && Same(v.fields[i].value, w.fields[j].value) {
        assert Matched(f[i], g);
        var j :| 0 <= j < |g| && g[j].key == f[i].key && Same(f[i].value, g[j].value);
        assert w.fields[j].key == v.fields[i].key;
      }
    }
  }

  // The condition on two objects, given it for their values.
  lemma FieldsHaveOneForm(f: seq<Keyed<Json>>, g: seq<Keyed<Json>>)
    requires Distinct(f) && Distinct(g) && ValuesDecided(f, g)
    ensures Same(Obj(f), Obj(g)) <==> Sort(NormFields(f)) == Sort(NormFields(g))
  {
    hide Same, Norm, Sort, Matched, NormFields, ValuesDecided;
    SortedAlike(NormFields(f), NormFields(g));
    SameObjects(f, g);
    forall i | 0 <= i < |f| ensures Matched(f[i], g) <==> NormFields(f)[i] in NormFields(g) {
      MatchedIsIn(f, g, i);
    }
  }

  // ---- the identity of requests ------------------------------------------------------------------

  // Two JSON values have the same canonical text exactly when they are equal up to the order of
  // their fields, at every depth.
  lemma CanonicalIsIdentity(v: Json, w: Json)
    requires WellFormed(v) && WellFormed(w)
    ensures Canonical.Canonical(v) == Canonical.Canonical(w) <==> Same(v, w)
  {
    CanonicalIsRender(v);
    CanonicalIsRender(w);
    SameHasOneForm(v, w);
    if Render(Norm(v)) == Render(Norm(w)) {
      Readable(Norm(v), Norm(w), [], []);
    }
  }

  lemma SameIsReflexive(v: Json)
    requires WellFormed(v)
    ensures Same(v, v)
  {
    SameHasOneForm(v, v);
  }

  // Writing an object's fields in another order changes nothing.
  lemma FieldOrderIsIrrelevant(f: seq<Keyed<Json>>, g: seq<Keyed<Json>>)
    requires WellFormed(Obj(f)) && WellFormed(Obj(g)) && multiset(f) == multiset(g)
    ensures Canonical.Canonical(Obj(f)) == Canonical.Canonical(Obj(g))
  {
    hide Canonical.Canonical, Same;
    assert |f| == |multiset(f)| == |multiset(g)| == |g|;
    forall i | 0 <= i < |f| ensures Matched(f[i], g) {
      assert f[i] in multiset(g);
      assert f[i] in g;
      var j :| 0 <= j < |g| && g[j] == f[i];
      SameIsReflexive(f[i].value);
    }
    SameObjects(f, g);
    CanonicalIsIdentity(Obj(f), Obj(g));
  }
}
