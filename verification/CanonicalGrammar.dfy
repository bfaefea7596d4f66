/** Canonical text is JSON: it is a rendering in the grammar, and the grammar reads the same value in it. */
module CanonicalGrammar {
  import opened CodeUnits
  import opened CanonicalJson
  import opened CanonicalText
  import opened CanonicalProofs
  import Grammar = JsonBodies

  // ---- What a text of the grammar means, following sections 3 to 7 of RFC 8259 ----

  function DigitMeans(u: Unit): int {
    if u < 65 then u as int - 48 else if u < 97 then u as int - 55 else u as int - 87
  }

  function CharMeans(c: Grammar.Char): Unit
    requires Grammar.ValidChar(c)
  {
    match c
    case Plain(u) => u
    case Short(u) =>
      if u == 98 then 8 else if u == 116 then 9 else if u == 110 then 10 else if u == 102 then 12
      else if u == 114 then 13 else u
    case Hex(d) =>
      (DigitMeans(d[0]) * 4096 + DigitMeans(d[1]) * 256 + DigitMeans(d[2]) * 16 + DigitMeans(d[3])) as Unit
  }

  predicate ValidChars(chars: seq<Grammar.Char>) {
    forall k :: 0 <= k < |chars| ==> Grammar.ValidChar(chars[k])
  }

  function CharsMean(chars: seq<Grammar.Char>): Text
    requires ValidChars(chars)
  {
    if chars == [] then [] else [CharMeans(chars[0])] + CharsMean(chars[1..])
  }

  const NULL: Text := [110, 117, 108, 108]
  const TRUE: Text := [116, 114, 117, 101]
  const FALSE: Text := [102, 97, 108, 115, 101]

  function Means(j: Grammar.Json): Json
    requires Grammar.Valid(j)
  {
    match j
    case Token(text) =>
      if text == NULL then JNull else if text == TRUE then JBool(true) else if text == FALSE then JBool(false)
      else JNumber(text)
    case Str(chars) => JString(CharsMean(chars))
    case Arr(_, items) =>
      assert forall i :: 0 <= i < |items| ==> Grammar.ValidPadded(items[i]);
      JArray(seq(|items|, i requires 0 <= i < |items| => Means(items[i].value)))
    case Obj(_, members) => JObject(MembersMean(members))
  }

  function MembersMean(members: seq<Grammar.Member>): map<Text, Json>
    requires forall k :: 0 <= k < |members| ==> Grammar.ValidMember(members[k])
  {
    if members == [] then map[]
    else
      var first := members[0];
      assert Grammar.ValidMember(first) && Grammar.ValidPadded(first.value);
      MembersMean(members[1..])[CharsMean(first.key) := Means(first.value.value)]
  }

  // ---- The value as a text of the grammar ----

  function CharOf(u: Unit): Grammar.Char {
    if |Escape(u)| == 1 then Grammar.Plain(u)
    else if |Escape(u)| == 2 then Grammar.Short(Escape(u)[1])
    else Grammar.Hex(Escape(u)[2..])
  }

  function CharsOf(text: Text): seq<Grammar.Char> {
    if text == [] then []
    else if StartsPair(text) then [Grammar.Plain(text[0]), Grammar.Plain(text[1])] + CharsOf(text[2..])
    else [CharOf(text[0])] + CharsOf(text[1..])
  }

  function Bare(j: Grammar.Json): Grammar.Padded {
    Grammar.Padded([], j, [])
  }

  function TextOf(v: Value): Grammar.Json {
    match v
    case Bool(b) => Grammar.Token(if b then TRUE else FALSE)
    case Number(token) => Grammar.Token(token)
    case NegativeZero => Grammar.Token([ZERO])
    case String(text) => Grammar.Str(CharsOf(text))
    case List(items) => Grammar.Arr([], ItemsOf(items))
    case Dict(fields) => Grammar.Obj([], MembersOf(fields))
    case _ => Grammar.Token(NULL)
  }

  function ItemsOf(items: seq<Value>): (r: seq<Grammar.Padded>)
    ensures |r| == |items| && forall i :: 0 <= i < |items| ==> r[i] == Bare(TextOf(items[i]))
  {
    if items == [] then [] else [Bare(TextOf(items[0]))] + ItemsOf(items[1..])
  }

  function MembersOf(fields: seq<Field>): (r: seq<Grammar.Member>)
    ensures |r| == |fields|
    ensures forall i :: 0 <= i < |fields| ==>
              r[i] == Grammar.Member([], CharsOf(fields[i].key), [], Bare(TextOf(fields[i].value)))
  {
    if fields == [] then []
    else [Grammar.Member([], CharsOf(fields[0].key), [], Bare(TextOf(fields[0].value)))] + MembersOf(fields[1..])
  }

  // ---- Strings ----

  lemma HexIs(n: int)
    requires 0 <= n < 16
    ensures DigitMeans(CanonicalJson.HexDigit(n)) == n && Grammar.HexDigit(CanonicalJson.HexDigit(n))
  {
  }

  lemma FourDigits(n: int)
    requires 0 <= n < 65536
    ensures n == n / 4096 * 4096 + n / 256 % 16 * 256 + n / 16 % 16 * 16 + n % 16
  {
    Nested(n);
    Split(n, 256);
    Split(n, 16);
  }

  lemma HexReads(u: Unit)
    ensures var c := Grammar.Hex(UnicodeEscape(u)[2..]);
            Grammar.ValidChar(c) && Grammar.RenderChar(c) == UnicodeEscape(u) && CharMeans(c) == u
  {
    var n := u as int;
    var d := UnicodeEscape(u)[2..];
    HexIs(n / 4096);
    HexIs(n / 256 % 16);
    HexIs(n / 16 % 16);
    HexIs(n % 16);
    FourDigits(n);
    assert d == [CanonicalJson.HexDigit(n / 4096), CanonicalJson.HexDigit(n / 256 % 16),
                 CanonicalJson.HexDigit(n / 16 % 16), CanonicalJson.HexDigit(n % 16)];
    assert [BACKSLASH, 117] + d == UnicodeEscape(u);
  }

  lemma CharReads(u: Unit)
    ensures Grammar.ValidChar(CharOf(u)) && Grammar.RenderChar(CharOf(u)) == Escape(u) && CharMeans(CharOf(u)) == u
  {
    EscapeShape(u);
    if |Escape(u)| == 6 {
      HexReads(u);
    } else if |Escape(u)| == 2 {
      ShortEscapeIs(u);
    }
  }

  /** A quoted text is a string of the grammar, and spells that text. */
  lemma {:induction false} CharsRead(text: Text)
    ensures ValidChars(CharsOf(text)) && Grammar.RenderChars(CharsOf(text)) == Escaped(text)
    ensures CharsMean(CharsOf(text)) == text
    decreases |text|
  {
    if text != [] {
      if StartsPair(text) {
        CharsRead(text[2..]);
        PairReads(text[0], text[1], CharsOf(text[2..]));
        assert text == [text[0], text[1]] + text[2..];
      } else {
        CharsRead(text[1..]);
        CharReads(text[0]);
        var rest := CharsOf(text[1..]);
        assert ([CharOf(text[0])] + rest)[1..] == rest;
        assert text == [text[0]] + text[1..];
      }
    }
  }

  lemma PairReads(high: Unit, low: Unit, rest: seq<Grammar.Char>)
    requires High(high) && Low(low) && ValidChars(rest)
    ensures var all := [Grammar.Plain(high), Grammar.Plain(low)] + rest;
            && ValidChars(all) && Grammar.RenderChars(all) == [high, low] + Grammar.RenderChars(rest)
            && CharsMean(all) == [high, low] + CharsMean(rest)
  {
    var all := [Grammar.Plain(high), Grammar.Plain(low)] + rest;
    assert all[1..] == [Grammar.Plain(low)] + rest && all[1..][1..] == rest;
  }

  // ---- Values ----

  /** The text of the grammar has the value's rendering and the value's meaning. */
  predicate Reads(v: Value) {
    Grammar.Valid(TextOf(v)) && Grammar.Render(TextOf(v)) == Render(v) && Means(TextOf(v)) == Meaning(v)
  }

  lemma {:induction false} ValueReads(v: Value)
    requires Plain(v)
    ensures Reads(v)
    decreases v
  {
    match v
    case String(text) => CharsRead(text);
    case List(items) =>
      forall i | 0 <= i < |items| ensures Reads(items[i]) {
        ValueReads(items[i]);
      }
      ListReads(items);
    case Dict(fields) =>
      forall i | 0 <= i < |fields| ensures Reads(fields[i].value) {
        ValueReads(fields[i].value);
      }
      DictReads(fields);
    case Number(token) => NumberReads(token);
    case _ =>
  }

  lemma NumberReads(token: Text)
    requires NumberToken(token)
    ensures Reads(Number(token))
  {
    assert token[0] != NULL[0] && token[0] != TRUE[0] && token[0] != FALSE[0];
  }

  lemma ListReads(items: seq<Value>)
    requires forall i :: 0 <= i < |items| ==> Reads(items[i])
    ensures Reads(List(items))
  {
    var j := ItemsOf(items);
    forall i | 0 <= i < |items| ensures Grammar.ValidPadded(j[i]) && Means(j[i].value) == Meaning(items[i]) {
      assert Reads(items[i]);
    }
    if items != [] {
      ItemsRender(items);
      var body, close := Grammar.RenderItems(j), [CLOSE_LIST];
      assert [OPEN_LIST] + body + close == [OPEN_LIST] + (body + close);
    }
  }

  lemma {:induction false} ItemsRender(items: seq<Value>)
    requires items != [] && forall i :: 0 <= i < |items| ==> Reads(items[i])
    ensures Grammar.RenderItems(ItemsOf(items)) + [CLOSE_LIST] == Render(items[0]) + RenderItems(items[1..])
  {
    var j, rest := ItemsOf(items), items[1..];
    assert Reads(items[0]);
    BareRenders(TextOf(items[0]));
    if rest != [] {
      ItemsRender(rest);
      assert j[1..] == ItemsOf(rest);
      ListSeam(Render(items[0]), Grammar.RenderItems(ItemsOf(rest)));
      Regroup([COMMA], Render(rest[0]), RenderItems(rest[1..]));
    }
  }

  lemma ListSeam(first: Text, more: Text)
    ensures (first + [COMMA] + more) + [CLOSE_LIST] == first + ([COMMA] + (more + [CLOSE_LIST]))
  {
  }

  lemma BareRenders(j: Grammar.Json)
    ensures Grammar.RenderPadded(Bare(j)) == Grammar.Render(j)
  {
    var text := Grammar.Render(j);
    assert [] + text + [] == text;
  }

  lemma DictReads(fields: seq<Field>)
    requires forall i :: 0 <= i < |fields| ==> Reads(fields[i].value) && !fields[i].value.Undefined?
    ensures Reads(Dict(fields))
  {
    var j := MembersOf(fields);
    forall i | 0 <= i < |fields| ensures Grammar.ValidMember(j[i]) {
      CharsRead(fields[i].key);
      assert Reads(fields[i].value);
    }
    MembersMeanSame(fields);
    if fields != [] {
      MembersRender(fields, []);
      var body, close := Grammar.RenderMembers(j), [CLOSE_DICT];
      assert [OPEN_DICT] + body + close == [OPEN_DICT] + (body + close);
      assert [] + body == body;
    } else {
      var none: Text := [];
      assert [OPEN_DICT] + none + [CLOSE_DICT] == [OPEN_DICT, CLOSE_DICT];
    }
  }

  lemma {:induction false} MembersMeanSame(fields: seq<Field>)
    requires forall i :: 0 <= i < |fields| ==> Reads(fields[i].value)
    ensures forall i :: 0 <= i < |fields| ==> Grammar.ValidMember(MembersOf(fields)[i])
    ensures MembersMean(MembersOf(fields)) == MeaningOf(fields)
  {
    if fields != [] {
      CharsRead(fields[0].key);
      assert Reads(fields[0].value);
      MembersMeanSame(fields[1..]);
      assert MembersOf(fields)[1..] == MembersOf(fields[1..]);
    }
  }

  lemma {:induction false} MembersRender(fields: seq<Field>, separator: Text)
    requires fields != [] && forall i :: 0 <= i < |fields| ==> Reads(fields[i].value) && !fields[i].value.Undefined?
    ensures separator + Grammar.RenderMembers(MembersOf(fields)) + [CLOSE_DICT] == RenderFields(fields, separator)
  {
    var j, rest := MembersOf(fields), fields[1..];
    MemberRenders(fields[0]);
    var first := Quote(fields[0].key) + [COLON] + Render(fields[0].value);
    FieldsFirst(fields, separator);
    if rest == [] {
      assert Grammar.RenderMembers(j) == first;
    } else {
      MembersRender(rest, [COMMA]);
      assert j[1..] == MembersOf(rest);
      Seam(separator, first, Grammar.RenderMembers(MembersOf(rest)));
    }
  }

  lemma FieldsFirst(fields: seq<Field>, separator: Text)
    requires fields != [] && !fields[0].value.Undefined?
    ensures RenderFields(fields, separator)
         == separator + (Quote(fields[0].key) + [COLON] + Render(fields[0].value)) + RenderFields(fields[1..], [COMMA])
  {
    var a, b, c := Quote(fields[0].key), [COLON], Render(fields[0].value);
    assert separator + a + b + c == separator + (a + b + c);
  }

  lemma Seam(separator: Text, first: Text, more: Text)
    ensures separator + (first + [COMMA] + more) + [CLOSE_DICT] == separator + first + ([COMMA] + more + [CLOSE_DICT])
  {
  }

  lemma MemberRenders(f: Field)
    requires Reads(f.value)
    ensures Grammar.RenderMember(Grammar.Member([], CharsOf(f.key), [], Bare(TextOf(f.value))))
         == Quote(f.key) + [COLON] + Render(f.value)
  {
    CharsRead(f.key);
    BareRenders(TextOf(f.value));
    var key := Quote(f.key);
    assert Grammar.RenderStr(CharsOf(f.key)) == key;
    assert [] + key + [] == key;
  }

  /** The canonical text of whatever is accepted is a JSON text, and means the normalized value. */
  lemma PrintIsJson(v: Value)
    requires Reviewable(v)
    ensures exists j :: Grammar.Valid(j) && Grammar.Render(j) == Print(v) && Means(j) == Meaning(Strip(v))
  {
    StripPlain(v);
    PrintStrips(v);
    ArrangeKeeps(Strip(v));
    ValueReads(Arrange(Strip(v)));
    var j := TextOf(Arrange(Strip(v)));
    assert Grammar.Valid(j) && Grammar.Render(j) == Print(v) && Means(j) == Meaning(Strip(v));
  }
}
