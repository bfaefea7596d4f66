/** The byte count of canonical text is the length of its UTF-8 encoding. */
module CanonicalBytes {
  import opened CodeUnits
  import opened CanonicalJson
  import opened CanonicalText
  import opened CanonicalProofs
  import opened CanonicalPrinter

  /** Every surrogate stands in a pair. */
  predicate Paired(text: Text) {
    if text == [] then true
    else if StartsPair(text) then Paired(text[2..])
    else !High(text[0]) && !Low(text[0]) && Paired(text[1..])
  }

  function Continuation(n: int): int {
    0x80 + n % 0x40
  }

  /** Section 3 of RFC 3629. */
  function ScalarBytes(n: int): seq<int> {
    if n < 0x80 then [n]
    else if n < 0x800 then [0xC0 + n / 0x40, Continuation(n)]
    else if n < 0x1_0000 then [0xE0 + n / 0x1000, Continuation(n / 0x40), Continuation(n)]
    else [0xF0 + n / 0x4_0000, Continuation(n / 0x1000), Continuation(n / 0x40), Continuation(n)]
  }

  function PairScalar(high: Unit, low: Unit): int {
    0x1_0000 + (high as int - 0xD800) * 0x400 + (low as int - 0xDC00)
  }

  function Bytes(text: Text): seq<int> {
    if text == [] then []
    else if StartsPair(text) then ScalarBytes(PairScalar(text[0], text[1])) + Bytes(text[2..])
    else ScalarBytes(text[0] as int) + Bytes(text[1..])
  }

  /** Wherever surrogates are paired, the printer's count is the number of bytes. */
  lemma {:induction false} CountsBytes(text: Text)
    requires Paired(text)
    ensures Utf8(text) == |Bytes(text)|
    decreases |text|
  {
    if text != [] {
      if StartsPair(text) {
        CountsBytes(text[2..]);
        assert text[1..][1..] == text[2..] && text[1..][0] == text[1];
        assert PairScalar(text[0], text[1]) >= 0x1_0000;
      } else {
        CountsBytes(text[1..]);
      }
    }
  }

  lemma {:induction false} PairedJoins(a: Text, b: Text)
    requires Paired(a) && Paired(b)
    ensures Paired(a + b)
    decreases |a|
  {
    if a == [] {
      assert a + b == b;
    } else if StartsPair(a) {
      PairedJoins(a[2..], b);
      assert (a + b)[2..] == a[2..] + b;
    } else {
      PairedJoins(a[1..], b);
      assert (a + b)[1..] == a[1..] + b;
    }
  }

  lemma {:induction false} PlainPaired(text: Text)
    requires forall i :: 0 <= i < |text| ==> !High(text[i]) && !Low(text[i])
    ensures Paired(text)
  {
    if text != [] {
      PlainPaired(text[1..]);
    }
  }

  lemma {:induction false} EscapedPaired(text: Text)
    ensures Paired(Escaped(text))
    decreases |text|
  {
    if text != [] {
      if StartsPair(text) {
        EscapedPaired(text[2..]);
        var rest := Escaped(text[2..]);
        assert ([text[0], text[1]] + rest)[2..] == rest;
      } else {
        EscapedPaired(text[1..]);
        EscapePlain(text[0]);
        PlainPaired(Escape(text[0]));
        PairedJoins(Escape(text[0]), Escaped(text[1..]));
      }
    }
  }

  lemma EscapePlain(u: Unit)
    ensures forall i :: 0 <= i < |Escape(u)| ==> !High(Escape(u)[i]) && !Low(Escape(u)[i])
  {
  }

  lemma QuotePaired(text: Text)
    ensures Paired(Quote(text))
  {
    EscapedPaired(text);
    PlainPaired([QUOTE]);
    PairedJoins([QUOTE], Escaped(text));
    PairedJoins([QUOTE] + Escaped(text), [QUOTE]);
  }

  lemma {:induction false} RenderPaired(v: Value)
    requires Reviewable(v)
    ensures Paired(Render(v))
    decreases v, 1
  {
    match v
    case String(text) => QuotePaired(text);
    case Number(token) => PlainPaired(token);
    case List(items) =>
      PlainPaired([OPEN_LIST]);
      if items == [] {
        PlainPaired([OPEN_LIST, CLOSE_LIST]);
      } else {
        RenderPaired(items[0]);
        ItemsPaired(items[1..]);
        PairedJoins(Render(items[0]), RenderItems(items[1..]));
        PairedJoins([OPEN_LIST], Render(items[0]) + RenderItems(items[1..]));
      }
    case Dict(fields) =>
      PlainPaired([OPEN_DICT]);
      FieldsPaired(fields, []);
      PairedJoins([OPEN_DICT], RenderFields(fields, []));
    case _ => PlainPaired(Render(v));
  }

  lemma {:induction false} ItemsPaired(items: seq<Value>)
    requires forall i :: 0 <= i < |items| ==> Reviewable(items[i])
    ensures Paired(RenderItems(items))
    decreases items, 0
  {
    if items == [] {
      PlainPaired([CLOSE_LIST]);
    } else {
      PlainPaired([COMMA]);
      RenderPaired(items[0]);
      ItemsPaired(items[1..]);
      PairedJoins([COMMA], Render(items[0]));
      PairedJoins([COMMA] + Render(items[0]), RenderItems(items[1..]));
    }
  }

  lemma {:induction false} FieldsPaired(fields: seq<Field>, separator: Text)
    requires forall i :: 0 <= i < |fields| ==> fields[i].value.Undefined? || Reviewable(fields[i].value)
    requires separator == [] || separator == [COMMA]
    ensures Paired(RenderFields(fields, separator))
    decreases fields, 0
  {
    if fields == [] {
      PlainPaired([CLOSE_DICT]);
    } else if fields[0].value.Undefined? {
      FieldsPaired(fields[1..], separator);
    } else {
      var key, value := Quote(fields[0].key), Render(fields[0].value);
      FieldsPaired(fields[1..], [COMMA]);
      QuotePaired(fields[0].key);
      RenderPaired(fields[0].value);
      PlainPaired(separator);
      PlainPaired([COLON]);
      PairedJoins(separator, key);
      PairedJoins(separator + key, [COLON]);
      PairedJoins(separator + key + [COLON], value);
      PairedJoins(separator + key + [COLON] + value, RenderFields(fields[1..], [COMMA]));
    }
  }

  /** The limit on bytes is about the bytes that would be hashed. */
  lemma PrintBytes(v: Value)
    requires Reviewable(v)
    ensures Utf8(Print(v)) == |Bytes(Print(v))|
  {
    StripPlain(v);
    PrintStrips(v);
    ArrangeKeeps(Strip(v));
    PlainReviewable(Arrange(Strip(v)));
    RenderPaired(Arrange(Strip(v)));
    CountsBytes(Print(v));
  }

  lemma {:induction false} PlainReviewable(v: Value)
    requires Plain(v)
    ensures Reviewable(v)
  {
    match v
    case List(items) =>
      forall i | 0 <= i < |items| ensures Reviewable(items[i]) {
        PlainReviewable(items[i]);
      }
    case Dict(fields) =>
      forall i | 0 <= i < |fields| ensures Reviewable(fields[i].value) {
        PlainReviewable(fields[i].value);
      }
    case _ =>
  }
}
