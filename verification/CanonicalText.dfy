/** The rendering of JSON values can be cut back apart: it is injective even with text following it. */
module CanonicalText {
  import opened CodeUnits
  import opened CanonicalJson

  function HexValue(d: Unit): int {
    if d < 58 then d as int - 48 else d as int - 87
  }

  lemma HexDigitValue(n: int)
    requires 0 <= n < 16
    ensures HexValue(HexDigit(n)) == n
  {
  }

  /** Four hexadecimal digits tell which code unit was escaped. */
  lemma HexInjective(u: Unit, w: Unit)
    requires UnicodeEscape(u) == UnicodeEscape(w)
    ensures u == w
  {
    var a, b := UnicodeEscape(u), UnicodeEscape(w);
    var n, m := u as int, w as int;
    assert a[2] == b[2] && a[3] == b[3] && a[4] == b[4] && a[5] == b[5];
    HexDigitValue(n / 4096); HexDigitValue(m / 4096);
    HexDigitValue(n / 256 % 16); HexDigitValue(m / 256 % 16);
    HexDigitValue(n / 16 % 16); HexDigitValue(m / 16 % 16);
    HexDigitValue(n % 16); HexDigitValue(m % 16);
    SameDigits(n, m);
  }

  lemma Split(n: int, step: int)
    requires 0 <= n && 0 < step
    ensures n / step == n / step / 16 * 16 + n / step % 16
  {
  }

  lemma Nested(n: int)
    requires 0 <= n
    ensures n / 16 / 16 == n / 256 && n / 256 / 16 == n / 4096
  {
  }

  lemma SameDigits(n: int, m: int)
    requires 0 <= n < 65536 && 0 <= m < 65536
    requires n / 4096 == m / 4096 && n / 256 % 16 == m / 256 % 16 && n / 16 % 16 == m / 16 % 16 && n % 16 == m % 16
    ensures n == m
  {
    Nested(n);
    Nested(m);
    Split(n, 256);
    Split(m, 256);
    Split(n, 16);
    Split(m, 16);
  }

  lemma Peel(p: Text, q: Text, x: Text, y: Text)
    requires p + x == q + y && |p| == |q|
    ensures p == q && x == y
  {
    assert p == (p + x)[..|p|] && q == (q + y)[..|q|];
    assert x == (p + x)[|p|..] && y == (q + y)[|q|..];
  }

  lemma EscapeShape(u: Unit)
    ensures Escape(u) != [] && Escape(u)[0] != QUOTE && !High(Escape(u)[0])
    ensures Escape(u)[0] == BACKSLASH <==> |Escape(u)| > 1
    ensures |Escape(u)| == 1 || |Escape(u)| == 2 || (|Escape(u)| == 6 && Escape(u) == UnicodeEscape(u))
    ensures |Escape(u)| == 2 ==> Escape(u)[1] != 117
    ensures |Escape(u)| == 1 ==> Escape(u) == [u]
  {
  }

  /** The letter of a two-character escape. */
  function ShortLetter(u: Unit): Unit {
    if u == 8 then 98 else if u == 9 then 116 else if u == 10 then 110 else if u == 12 then 102
    else if u == 13 then 114 else u
  }

  lemma ShortEscapeIs(u: Unit)
    requires |Escape(u)| == 2
    ensures Escape(u) == [BACKSLASH, ShortLetter(u)]
    ensures u == QUOTE || u == BACKSLASH || u == 8 || u == 9 || u == 10 || u == 12 || u == 13
  {
  }

  lemma ShortEscape(u: Unit, w: Unit)
    requires |Escape(u)| == 2 && Escape(u) == Escape(w)
    ensures u == w
  {
    ShortEscapeIs(u);
    ShortEscapeIs(w);
    assert Escape(u)[1] == ShortLetter(u) && Escape(w)[1] == ShortLetter(w);
  }

  /** Two different code units never have escapes one of which begins the other. */
  lemma EscapeCut(u: Unit, w: Unit, x: Text, y: Text)
    requires Escape(u) + x == Escape(w) + y
    ensures u == w && x == y
  {
    var a, b := Escape(u), Escape(w);
    EscapeShape(u);
    EscapeShape(w);
    assert (a + x)[0] == a[0] && (b + y)[0] == b[0];
    if a[0] == BACKSLASH {
      assert (a + x)[1] == a[1] && (b + y)[1] == b[1];
    }
    Peel(a, b, x, y);
    if |a| == 6 {
      HexInjective(u, w);
    } else if |a| == 2 {
      ShortEscape(u, w);
    }
  }

  lemma EscapedStart(s: Text)
    requires s != []
    ensures Escaped(s) != [] && Escaped(s)[0] != QUOTE && (High(Escaped(s)[0]) <==> StartsPair(s))
  {
    EscapeShape(s[0]);
  }

  /** Texts that agree past an opening quote are both empty, both start with a pair, or neither does. */
  lemma SameStart(s: Text, t: Text, x: Text, y: Text)
    requires x != [] && x[0] == QUOTE && y != [] && y[0] == QUOTE
    requires Escaped(s) + x == Escaped(t) + y
    ensures s == [] <==> t == []
    ensures StartsPair(s) <==> StartsPair(t)
  {
    assert (Escaped(s) + x)[0] == (Escaped(t) + y)[0];
    if s != [] { EscapedStart(s); }
    if t != [] { EscapedStart(t); }
  }

  lemma PairCut(s: Text, t: Text, x: Text, y: Text)
    requires StartsPair(s) && StartsPair(t) && Escaped(s) + x == Escaped(t) + y
    ensures s[..2] == t[..2] && Escaped(s[2..]) + x == Escaped(t[2..]) + y
  {
    var p, q := [s[0], s[1]], [t[0], t[1]];
    Regroup(p, Escaped(s[2..]), x);
    Regroup(q, Escaped(t[2..]), y);
    Peel(p, q, Escaped(s[2..]) + x, Escaped(t[2..]) + y);
    assert p == s[..2] && q == t[..2];
  }

  /** The closing quote is where the text says it is. */
  lemma {:induction false} EscapedCut(s: Text, t: Text, x: Text, y: Text)
    requires x != [] && x[0] == QUOTE && y != [] && y[0] == QUOTE
    requires Escaped(s) + x == Escaped(t) + y
    ensures s == t && x == y
    decreases |s|
  {
    SameStart(s, t, x, y);
    if s == [] {
      assert Escaped(s) + x == x && Escaped(t) + y == y;
    } else if StartsPair(s) {
      PairCut(s, t, x, y);
      EscapedCut(s[2..], t[2..], x, y);
      assert s == s[..2] + s[2..] && t == t[..2] + t[2..];
    } else {
      SingleCut(s, t, x, y);
      EscapedCut(s[1..], t[1..], x, y);
      assert s == [s[0]] + s[1..] && t == [t[0]] + t[1..];
    }
  }

  lemma SingleCut(s: Text, t: Text, x: Text, y: Text)
    requires s != [] && t != [] && !StartsPair(s) && !StartsPair(t) && Escaped(s) + x == Escaped(t) + y
    ensures s[0] == t[0] && Escaped(s[1..]) + x == Escaped(t[1..]) + y
  {
    var restS, restT := Escaped(s[1..]) + x, Escaped(t[1..]) + y;
    Regroup(Escape(s[0]), Escaped(s[1..]), x);
    Regroup(Escape(t[0]), Escaped(t[1..]), y);
    EscapeCut(s[0], t[0], restS, restT);
  }

  lemma Regroup(p: Text, q: Text, x: Text)
    ensures p + q + x == p + (q + x)
  {
  }

  lemma QuoteCut(s: Text, t: Text, x: Text, y: Text)
    requires Quote(s) + x == Quote(t) + y
    ensures s == t && x == y
  {
    var restX, restY := [QUOTE] + x, [QUOTE] + y;
    assert Quote(s) + x == [QUOTE] + (Escaped(s) + restX) && Quote(t) + y == [QUOTE] + (Escaped(t) + restY);
    Peel([QUOTE], [QUOTE], Escaped(s) + restX, Escaped(t) + restY);
    EscapedCut(s, t, restX, restY);
    Peel([QUOTE], [QUOTE], x, y);
  }

  /** What may follow a value. */
  predicate Follows(x: Text) {
    x == [] || x[0] == COMMA || x[0] == CLOSE_LIST || x[0] == CLOSE_DICT
  }

  lemma NumberCut(s: Text, t: Text, x: Text, y: Text)
    requires forall i :: 0 <= i < |s| ==> NumberUnit(s[i])
    requires forall i :: 0 <= i < |t| ==> NumberUnit(t[i])
    requires Follows(x) && Follows(y) && s + x == t + y
    ensures s == t && x == y
  {
    var all := s + x;
    assert all == t + y;
    assert forall i :: 0 <= i < |s| ==> all[i] == s[i];
    assert forall i :: 0 <= i < |t| ==> all[i] == t[i];
    assert |s| < |all| ==> all[|s|] == x[0] && !NumberUnit(all[|s|]);
    assert |t| < |all| ==> all[|t|] == y[0] && !NumberUnit(all[|t|]);
    Peel(s, t, x, y);
  }

  datatype Kind = KNull | KTrue | KFalse | KNumber | KString | KList | KDict | KNone

  function KindOf(v: Value): Kind {
    match v
    case Null => KNull
    case Bool(b) => if b then KTrue else KFalse
    case Number(_) => KNumber
    case String(_) => KString
    case List(_) => KList
    case Dict(_) => KDict
    case _ => KNone
  }

  function KindAt(u: Unit): Kind {
    if u == 110 then KNull
    else if u == 116 then KTrue
    else if u == 102 then KFalse
    else if u == QUOTE then KString
    else if u == OPEN_LIST then KList
    else if u == OPEN_DICT then KDict
    else if NumberUnit(u) then KNumber
    else KNone
  }

  /** The first code unit tells the kind of value. */
  lemma Start(v: Value)
    requires Plain(v)
    ensures Render(v) != [] && KindAt(Render(v)[0]) == KindOf(v) != KNone
  {
  }

  lemma SameKind(v: Value, w: Value, x: Text, y: Text)
    requires Plain(v) && Plain(w) && Render(v) + x == Render(w) + y
    ensures KindOf(v) == KindOf(w)
  {
    Start(v);
    Start(w);
    assert (Render(v) + x)[0] == Render(v)[0] && (Render(w) + y)[0] == Render(w)[0];
  }

  /** A rendering determines its value and where it ends. */
  lemma {:induction false} RenderCut(v: Value, w: Value, x: Text, y: Text)
    requires Plain(v) && Plain(w) && Follows(x) && Follows(y)
    requires Render(v) + x == Render(w) + y
    ensures v == w && x == y
    decreases v, 2
  {
    SameKind(v, w, x, y);
    match v
    case Number(s) => NumberCut(s, w.token, x, y);
    case String(s) => QuoteCut(s, w.text, x, y);
    case List(items) => ListCut(v, w, x, y);
    case Dict(fields) => DictCut(v, w, x, y);
    case _ => Peel(Render(v), Render(w), x, y);
  }

  lemma {:induction false} ListCut(v: Value, w: Value, x: Text, y: Text)
    requires v.List? && w.List? && Plain(v) && Plain(w) && Follows(x) && Follows(y)
    requires Render(v) + x == Render(w) + y
    ensures v == w && x == y
    decreases v, 1
  {
    ListOpen(v, w, x, y);
    var items, others := v.items, w.items;
    if items == [] {
      Peel([CLOSE_LIST], [CLOSE_LIST], x, y);
    } else {
      var restX, restY := RenderItems(items[1..]) + x, RenderItems(others[1..]) + y;
      ItemsFollow(items[1..], x);
      ItemsFollow(others[1..], y);
      RenderCut(items[0], others[0], restX, restY);
      ItemsCut(items[1..], others[1..], x, y);
      assert items == [items[0]] + items[1..] && others == [others[0]] + others[1..];
    }
  }

  function ListBody(items: seq<Value>, x: Text): Text {
    if items == [] then [CLOSE_LIST] + x else Render(items[0]) + (RenderItems(items[1..]) + x)
  }

  lemma ListOpen(v: Value, w: Value, x: Text, y: Text)
    requires v.List? && w.List? && Plain(v) && Plain(w) && Render(v) + x == Render(w) + y
    ensures ListBody(v.items, x) == ListBody(w.items, y) && (v.items == [] <==> w.items == [])
  {
    assert Render(v) + x == [OPEN_LIST] + ListBody(v.items, x);
    assert Render(w) + y == [OPEN_LIST] + ListBody(w.items, y);
    Peel([OPEN_LIST], [OPEN_LIST], ListBody(v.items, x), ListBody(w.items, y));
    BodyStart(v.items, x);
    BodyStart(w.items, y);
  }

  lemma BodyStart(items: seq<Value>, x: Text)
    requires forall i :: 0 <= i < |items| ==> Plain(items[i])
    ensures ListBody(items, x) != [] && (ListBody(items, x)[0] == CLOSE_LIST <==> items == [])
  {
    if items != [] {
      Start(items[0]);
      assert ListBody(items, x)[0] == Render(items[0])[0];
    }
  }

  lemma ItemsFollow(items: seq<Value>, x: Text)
    ensures Follows(RenderItems(items) + x)
  {
    assert (RenderItems(items) + x)[0] == RenderItems(items)[0];
  }

  lemma ItemsFirst(items: seq<Value>, x: Text)
    requires items != []
    ensures RenderItems(items) + x == [COMMA] + (Render(items[0]) + (RenderItems(items[1..]) + x))
  {
    Regroup([COMMA] + Render(items[0]), RenderItems(items[1..]), x);
    Regroup([COMMA], Render(items[0]), RenderItems(items[1..]) + x);
  }

  lemma {:induction false} ItemsCut(items: seq<Value>, others: seq<Value>, x: Text, y: Text)
    requires forall i :: 0 <= i < |items| ==> Plain(items[i])
    requires forall i :: 0 <= i < |others| ==> Plain(others[i])
    requires Follows(x) && Follows(y)
    requires RenderItems(items) + x == RenderItems(others) + y
    ensures items == others && x == y
    decreases items, 0
  {
    assert (RenderItems(items) + x)[0] == RenderItems(items)[0];
    assert (RenderItems(others) + y)[0] == RenderItems(others)[0];
    if items == [] {
      Peel([CLOSE_LIST], [CLOSE_LIST], x, y);
    } else {
      var restX, restY := RenderItems(items[1..]) + x, RenderItems(others[1..]) + y;
      ItemsFirst(items, x);
      ItemsFirst(others, y);
      Peel([COMMA], [COMMA], Render(items[0]) + restX, Render(others[0]) + restY);
      ItemsFollow(items[1..], x);
      ItemsFollow(others[1..], y);
      RenderCut(items[0], others[0], restX, restY);
      ItemsCut(items[1..], others[1..], x, y);
      assert items == [items[0]] + items[1..] && others == [others[0]] + others[1..];
    }
  }

  lemma {:induction false} DictCut(v: Value, w: Value, x: Text, y: Text)
    requires v.Dict? && w.Dict? && Plain(v) && Plain(w) && Follows(x) && Follows(y)
    requires Render(v) + x == Render(w) + y
    ensures v == w && x == y
    decreases v, 1
  {
    var a, b := RenderFields(v.fields, []) + x, RenderFields(w.fields, []) + y;
    Regroup([OPEN_DICT], RenderFields(v.fields, []), x);
    Regroup([OPEN_DICT], RenderFields(w.fields, []), y);
    Peel([OPEN_DICT], [OPEN_DICT], a, b);
    FieldsCut(v.fields, w.fields, [], x, y);
  }

  lemma FieldsFirst(fields: seq<Field>, separator: Text, x: Text)
    requires fields != [] && Plain(fields[0].value)
    ensures RenderFields(fields, separator) + x
         == separator + (Quote(fields[0].key) + ([COLON] + (Render(fields[0].value)
              + (RenderFields(fields[1..], [COMMA]) + x))))
  {
    var rest := RenderFields(fields[1..], [COMMA]);
    var q, r := Quote(fields[0].key), Render(fields[0].value);
    assert RenderFields(fields, separator) == separator + q + [COLON] + r + rest;
    assert separator + q + [COLON] + r + rest + x == separator + (q + ([COLON] + (r + (rest + x))));
  }

  lemma FieldsStart(fields: seq<Field>, separator: Text, x: Text)
    requires forall i :: 0 <= i < |fields| ==> Plain(fields[i].value)
    requires separator == [] || separator == [COMMA]
    ensures RenderFields(fields, separator) != []
    ensures (RenderFields(fields, separator) + x)[0]
         == if fields == [] then CLOSE_DICT else if separator == [] then QUOTE else COMMA
  {
    if fields != [] {
      FieldsFirst(fields, separator, x);
    }
  }

  lemma {:induction false} FieldsCut(fields: seq<Field>, others: seq<Field>, separator: Text, x: Text, y: Text)
    requires forall i :: 0 <= i < |fields| ==> Plain(fields[i].value)
    requires forall i :: 0 <= i < |others| ==> Plain(others[i].value)
    requires (separator == [] || separator == [COMMA]) && Follows(x) && Follows(y)
    requires RenderFields(fields, separator) + x == RenderFields(others, separator) + y
    ensures fields == others && x == y
    decreases fields, 0
  {
    FieldsStart(fields, separator, x);
    FieldsStart(others, separator, y);
    if fields == [] {
      Peel([CLOSE_DICT], [CLOSE_DICT], x, y);
    } else {
      FieldCut(fields, others, separator, x, y);
      FieldsCut(fields[1..], others[1..], [COMMA], x, y);
      assert fields == [fields[0]] + fields[1..] && others == [others[0]] + others[1..];
    }
  }

  lemma {:induction false} FieldCut(fields: seq<Field>, others: seq<Field>, separator: Text, x: Text, y: Text)
    requires fields != [] && others != []
    requires forall i :: 0 <= i < |fields| ==> Plain(fields[i].value)
    requires forall i :: 0 <= i < |others| ==> Plain(others[i].value)
    requires separator == [] || separator == [COMMA]
    requires RenderFields(fields, separator) + x == RenderFields(others, separator) + y
    ensures fields[0] == others[0]
    ensures RenderFields(fields[1..], [COMMA]) + x == RenderFields(others[1..], [COMMA]) + y
    decreases fields[0], 3
  {
    var f, g := fields[0], others[0];
    FieldsFirst(fields, separator, x);
    FieldsFirst(others, separator, y);
    FieldsStart(fields[1..], [COMMA], x);
    FieldsStart(others[1..], [COMMA], y);
    var restX, restY := RenderFields(fields[1..], [COMMA]) + x, RenderFields(others[1..], [COMMA]) + y;
    var valueX, valueY := Render(f.value) + restX, Render(g.value) + restY;
    Peel(separator, separator, Quote(f.key) + ([COLON] + valueX), Quote(g.key) + ([COLON] + valueY));
    QuoteCut(f.key, g.key, [COLON] + valueX, [COLON] + valueY);
    Peel([COLON], [COLON], valueX, valueY);
    RenderCut(f.value, g.value, restX, restY);
  }
}
