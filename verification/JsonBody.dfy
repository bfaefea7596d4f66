/** Cutting a JSON object out of surrounding prose by counting braces outside strings. */
module JsonBodies {
  import opened CodeUnits
  import opened Wrappers

  const QUOTE: Unit := 34
  const BACKSLASH: Unit := 92
  const OPEN: Unit := 123
  const CLOSE: Unit := 125
  const COMMA: Unit := 44
  const COLON: Unit := 58
  const OPEN_LIST: Unit := 91
  const CLOSE_LIST: Unit := 93

  const MAX_PREFIX := 256

  // ---- The scan ----

  datatype Scan = Scan(depth: int, quoted: bool, escaped: bool)

  const Outside := Scan(0, false, false)

  function Step(s: Scan, u: Unit): Scan {
    if s.quoted then
      if s.escaped then s.(escaped := false)
      else if u == BACKSLASH then s.(escaped := true)
      else if u == QUOTE then s.(quoted := false)
      else s
    else if u == QUOTE then s.(quoted := true)
    else if u == OPEN then s.(depth := s.depth + 1)
    else if u == CLOSE then s.(depth := s.depth - 1)
    else s
  }

  function Run(s: Scan, text: Text): Scan {
    if text == [] then s else Step(Run(s, text[..|text| - 1]), text[|text| - 1])
  }

  lemma {:induction false} RunJoins(s: Scan, a: Text, b: Text)
    ensures Run(s, a + b) == Run(Run(s, a), b)
  {
    if b == [] {
      assert a + b == a;
    } else {
      RunJoins(s, a, b[..|b| - 1]);
      assert (a + b)[..|a + b| - 1] == a + b[..|b| - 1];
    }
  }

  /** The first point at which a closing brace brings the depth back to zero. */
  predicate Ends(text: Text, length: nat) {
    && 0 < length <= |text|
    && Closes(text, length)
    && forall k :: 0 < k < length ==> !Closes(text, k)
  }

  predicate Closes(text: Text, length: nat)
    requires 0 < length <= |text|
  {
    text[length - 1] == CLOSE && !Run(Outside, text[..length - 1]).quoted && Run(Outside, text[..length]).depth == 0
  }

  /** `body` is what the scan cuts out of `text`. */
  predicate CutsOut(text: Text, body: Text) {
    exists start :: 0 <= start <= MAX_PREFIX && CutsAt(text, start, body)
  }

  predicate CutsAt(text: Text, start: nat, body: Text) {
    && First(text, OPEN, start) && |body| <= |text| - start && body == text[start..start + |body|]
    && Ends(text[start..], |body|)
  }

  predicate First(text: Text, unit: Unit, at: nat) {
    at < |text| && text[at] == unit && forall k :: 0 <= k < at ==> text[k] != unit
  }

  method IndexOf(text: Text, unit: Unit) returns (at: Option<nat>)
    ensures at.None? ==> unit !in text
    ensures at.Some? ==> First(text, unit, at.value)
  {
    var i := 0;
    while i < |text|
      invariant 0 <= i <= |text| && forall k :: 0 <= k < i ==> text[k] != unit
    {
      if text[i] == unit {
        return Some(i);
      }
      i := i + 1;
    }
    return None;
  }

  /** The slice handed to the JSON parser, or nothing. */
  method JsonBody(text: Text) returns (body: Option<Text>)
    ensures body.Some? ==> CutsOut(text, body.value)
    ensures body.None? ==> forall b :: !CutsOut(text, b)
  {
    var at := IndexOf(text, OPEN);
    if at.None? {
      return None;
    }
    var start := at.value;
    if start > MAX_PREFIX {
      return None;
    }
    var length := Matching(text[start..]);
    if length.None? {
      return None;
    }
    assert CutsAt(text, start, text[start..start + length.value]);
    return Some(text[start..start + length.value]);
  }

  /** The loop over the text from its first brace. */
  method Matching(rest: Text) returns (length: Option<nat>)
    ensures length.Some? ==> length.value <= |rest| && Ends(rest, length.value)
    ensures length.None? ==> forall k :: 0 < k <= |rest| ==> !Closes(rest, k)
  {
    var depth, quoted, escaped := 0, false, false;
    var index := 0;
    while index < |rest|
      invariant 0 <= index <= |rest|
      invariant Scan(depth, quoted, escaped) == Run(Outside, rest[..index])
      invariant forall k :: 0 < k <= index ==> !Closes(rest, k)
    {
      var unit := rest[index];
      assert rest[..index + 1][..index] == rest[..index];
      if quoted {
        if escaped {
          escaped := false;
        } else if unit == BACKSLASH {
          escaped := true;
        } else if unit == QUOTE {
          quoted := false;
        }
      } else if unit == QUOTE {
        quoted := true;
      } else if unit == OPEN {
        depth := depth + 1;
      } else if unit == CLOSE {
        depth := depth - 1;
        if depth == 0 {
          assert Closes(rest, index + 1);
          return Some(index + 1);
        }
      }
      index := index + 1;
    }
    return None;
  }

  // ---- JSON text ----

  /** A JSON text with its white space, following sections 2 to 7 of RFC 8259; numbers are left less restricted. */
  datatype Json =
    | Token(text: Text)
    | Str(chars: seq<Char>)
    | Arr(blank: Text, items: seq<Padded>)
    | Obj(blank: Text, members: seq<Member>)

  datatype Padded = Padded(before: Text, value: Json, after: Text)

  datatype Member = Member(before: Text, key: seq<Char>, between: Text, value: Padded)

  /** A string character: itself, a two-character escape, or four hexadecimal digits. */
  datatype Char = Plain(unit: Unit) | Short(unit: Unit) | Hex(digits: Text)

  predicate Blank(text: Text) {
    forall k :: 0 <= k < |text| ==> text[k] == 32 || text[k] == 9 || text[k] == 10 || text[k] == 13
  }

  predicate HexDigit(u: Unit) {
    48 <= u < 58 || 65 <= u < 71 || 97 <= u < 103
  }

  predicate ValidChar(c: Char) {
    match c
    case Plain(u) => u >= 32 && u != QUOTE && u != BACKSLASH
    case Short(u) => u == QUOTE || u == BACKSLASH || u == 47 || u == 98 || u == 102 || u == 110 || u == 114 || u == 116
    case Hex(digits) => |digits| == 4 && forall k :: 0 <= k < 4 ==> HexDigit(digits[k])
  }

  /** Literals and numbers are made of letters, digits, signs and dots. */
  predicate TokenUnit(u: Unit) {
    48 <= u < 58 || 97 <= u < 123 || u == 69 || u == 43 || u == 45 || u == 46
  }

  predicate Valid(j: Json) {
    match j
    case Token(text) => text != [] && forall k :: 0 <= k < |text| ==> TokenUnit(text[k])
    case Str(chars) => forall k :: 0 <= k < |chars| ==> ValidChar(chars[k])
    case Arr(blank, items) => Blank(blank) && forall k :: 0 <= k < |items| ==> ValidPadded(items[k])
    case Obj(blank, members) => Blank(blank) && forall k :: 0 <= k < |members| ==> ValidMember(members[k])
  }

  predicate ValidPadded(p: Padded) {
    Blank(p.before) && Valid(p.value) && Blank(p.after)
  }

  predicate ValidMember(m: Member) {
    && Blank(m.before) && Blank(m.between) && ValidPadded(m.value)
    && forall k :: 0 <= k < |m.key| ==> ValidChar(m.key[k])
  }

  function RenderChar(c: Char): Text {
    match c
    case Plain(u) => [u]
    case Short(u) => [BACKSLASH, u]
    case Hex(digits) => [BACKSLASH, 117] + digits
  }

  function RenderChars(chars: seq<Char>): Text {
    if chars == [] then [] else RenderChar(chars[0]) + RenderChars(chars[1..])
  }

  function RenderStr(chars: seq<Char>): Text {
    [QUOTE] + RenderChars(chars) + [QUOTE]
  }

  function Render(j: Json): Text {
    match j
    case Token(text) => text
    case Str(chars) => RenderStr(chars)
    case Arr(blank, items) => [OPEN_LIST] + (if items == [] then blank else RenderItems(items)) + [CLOSE_LIST]
    case Obj(blank, members) => [OPEN] + (if members == [] then blank else RenderMembers(members)) + [CLOSE]
  }

  function RenderPadded(p: Padded): Text {
    p.before + Render(p.value) + p.after
  }

  function RenderMember(m: Member): Text {
    m.before + RenderStr(m.key) + m.between + [COLON] + RenderPadded(m.value)
  }

  function RenderItems(items: seq<Padded>): Text {
    if items == [] then []
    else if |items| == 1 then RenderPadded(items[0])
    else RenderPadded(items[0]) + [COMMA] + RenderItems(items[1..])
  }

  function RenderMembers(members: seq<Member>): Text {
    if members == [] then []
    else if |members| == 1 then RenderMember(members[0])
    else RenderMember(members[0]) + [COMMA] + RenderMembers(members[1..])
  }

  // ---- Texts that leave the scan where it was ----

  /** The scan passes the text without ever falling below its depth, and ends as it began. */
  predicate Stays(s: Scan, text: Text) {
    Run(s, text) == s && forall k :: 0 <= k <= |text| ==> Run(s, text[..k]).depth >= s.depth
  }

  lemma StaysJoins(s: Scan, a: Text, b: Text)
    requires Stays(s, a) && Stays(s, b)
    ensures Stays(s, a + b)
  {
    RunJoins(s, a, b);
    forall k | 0 <= k <= |a + b| ensures Run(s, (a + b)[..k]).depth >= s.depth {
      if k <= |a| {
        assert (a + b)[..k] == a[..k];
      } else {
        assert (a + b)[..k] == a + b[..k - |a|];
        RunJoins(s, a, b[..k - |a|]);
      }
    }
  }

  lemma RunOne(s: Scan, u: Unit)
    ensures Run(s, [u]) == Step(s, u)
  {
    assert [u][..0] == [] && Run(s, []) == s;
  }

  /** A text that stays one level in, or inside quotes, stays when wrapped. */
  lemma StaysWrapped(s: Scan, inner: Scan, open: Unit, body: Text, close: Unit)
    requires Step(s, open) == inner && Step(inner, close) == s && inner.depth >= s.depth && Stays(inner, body)
    ensures Stays(s, [open] + body + [close])
    ensures forall k :: 0 < k <= |body| + 1 ==> Run(s, ([open] + body + [close])[..k]).depth >= inner.depth
  {
    var text := [open] + body + [close];
    RunOne(s, open);
    RunOne(inner, close);
    RunJoins(s, [open], body);
    RunJoins(s, [open] + body, [close]);
    forall k | 0 < k <= |body| + 1 ensures Run(s, text[..k]).depth >= inner.depth {
      assert text[..k] == [open] + body[..k - 1];
      RunJoins(s, [open], body[..k - 1]);
    }
    forall k | 0 <= k <= |text| ensures Run(s, text[..k]).depth >= s.depth {
      if k == 0 {
        assert text[..0] == [];
      } else if k == |text| {
        assert text[..k] == text;
      }
    }
  }

  lemma {:induction false} PlainStays(s: Scan, text: Text)
    requires !s.quoted && !s.escaped
    requires forall k :: 0 <= k < |text| ==> text[k] != QUOTE && text[k] != OPEN && text[k] != CLOSE
    ensures Stays(s, text)
  {
    forall k | 0 <= k <= |text| ensures Run(s, text[..k]) == s {
      Passes(s, text[..k]);
    }
    assert text[..|text|] == text;
  }

  lemma {:induction false} Passes(s: Scan, text: Text)
    requires !s.escaped
    requires QUOTE !in text && if s.quoted then BACKSLASH !in text else OPEN !in text && CLOSE !in text
    ensures Run(s, text) == s
  {
    if text != [] {
      Passes(s, text[..|text| - 1]);
    }
  }

  lemma EscapeStays(depth: int, u: Unit)
    ensures Stays(Scan(depth, true, false), [BACKSLASH, u])
  {
    var s := Scan(depth, true, false);
    var text := [BACKSLASH, u];
    RunOne(s, BACKSLASH);
    RunOne(Scan(depth, true, true), u);
    RunJoins(s, [BACKSLASH], [u]);
    assert text == [BACKSLASH] + [u];
    forall k | 0 <= k <= |text| ensures Run(s, text[..k]).depth >= depth {
      assert text[..k] == if k == 0 then [] else if k == 1 then [BACKSLASH] else text;
    }
  }

  lemma CharStays(depth: int, c: Char)
    requires ValidChar(c)
    ensures Stays(Scan(depth, true, false), RenderChar(c))
  {
    var s := Scan(depth, true, false);
    var text := RenderChar(c);
    match c
    case Plain(u) =>
      assert text[..0] == [] && text[..1] == text;
    case Short(u) =>
      EscapeStays(depth, u);
    case Hex(digits) =>
      var head := [BACKSLASH, 117];
      EscapeStays(depth, 117);
      forall k | 0 <= k <= |digits| ensures Run(s, digits[..k]) == s {
        Passes(s, digits[..k]);
      }
      assert digits[..|digits|] == digits;
      StaysJoins(s, head, digits);
  }

  lemma {:induction false} CharsStay(depth: int, chars: seq<Char>)
    requires forall k :: 0 <= k < |chars| ==> ValidChar(chars[k])
    ensures Stays(Scan(depth, true, false), RenderChars(chars))
  {
    if chars != [] {
      CharStays(depth, chars[0]);
      CharsStay(depth, chars[1..]);
      StaysJoins(Scan(depth, true, false), RenderChar(chars[0]), RenderChars(chars[1..]));
    }
  }

  lemma StrStays(depth: int, chars: seq<Char>)
    requires forall k :: 0 <= k < |chars| ==> ValidChar(chars[k])
    ensures Stays(Scan(depth, false, false), RenderStr(chars))
  {
    CharsStay(depth, chars);
    StaysWrapped(Scan(depth, false, false), Scan(depth, true, false), QUOTE, RenderChars(chars), QUOTE);
  }

  lemma {:induction false} JsonStays(depth: int, j: Json)
    requires Valid(j)
    ensures Stays(Scan(depth, false, false), Render(j))
    decreases j, 1
  {
    var s := Scan(depth, false, false);
    match j
    case Token(text) => PlainStays(s, text);
    case Str(chars) => StrStays(depth, chars);
    case Arr(blank, items) =>
      var body := if items == [] then blank else RenderItems(items);
      if items == [] {
        PlainStays(s, blank);
      } else {
        ItemsStay(depth, items);
      }
      StaysWrapped(s, s, OPEN_LIST, body, CLOSE_LIST);
    case Obj(blank, members) => BodyStays(depth, j);
  }

  function Body(j: Json): Text
    requires j.Obj?
  {
    if j.members == [] then j.blank else RenderMembers(j.members)
  }

  /** An object stays at its depth, and one level above it until its own closing brace. */
  lemma {:induction false} BodyStays(depth: int, j: Json)
    requires j.Obj? && Valid(j)
    ensures Stays(Scan(depth, false, false), Render(j))
    ensures forall k :: 0 < k < |Render(j)| ==> Run(Scan(depth, false, false), Render(j)[..k]).depth > depth
    decreases j, 0
  {
    var inner := Scan(depth + 1, false, false);
    if j.members == [] {
      PlainStays(inner, j.blank);
    } else {
      MembersStay(depth + 1, j.members);
    }
    StaysWrapped(Scan(depth, false, false), inner, OPEN, Body(j), CLOSE);
  }

  lemma {:induction false} PaddedStays(depth: int, p: Padded)
    requires ValidPadded(p)
    ensures Stays(Scan(depth, false, false), RenderPadded(p))
    decreases p
  {
    var s := Scan(depth, false, false);
    PlainStays(s, p.before);
    JsonStays(depth, p.value);
    PlainStays(s, p.after);
    StaysJoins(s, p.before, Render(p.value));
    StaysJoins(s, p.before + Render(p.value), p.after);
  }

  lemma {:induction false} ItemsStay(depth: int, items: seq<Padded>)
    requires forall k :: 0 <= k < |items| ==> ValidPadded(items[k])
    ensures Stays(Scan(depth, false, false), RenderItems(items))
    decreases items
  {
    var s := Scan(depth, false, false);
    if items == [] {
      PlainStays(s, []);
    } else {
      PaddedStays(depth, items[0]);
      if |items| > 1 {
        ItemsStay(depth, items[1..]);
        PlainStays(s, [COMMA]);
        StaysJoins(s, RenderPadded(items[0]), [COMMA]);
        StaysJoins(s, RenderPadded(items[0]) + [COMMA], RenderItems(items[1..]));
      }
    }
  }

  lemma {:induction false} MemberStays(depth: int, m: Member)
    requires ValidMember(m)
    ensures Stays(Scan(depth, false, false), RenderMember(m))
    decreases m
  {
    var s := Scan(depth, false, false);
    PlainStays(s, m.before);
    StrStays(depth, m.key);
    PlainStays(s, m.between);
    PlainStays(s, [COLON]);
    PaddedStays(depth, m.value);
    StaysJoins(s, m.before, RenderStr(m.key));
    StaysJoins(s, m.before + RenderStr(m.key), m.between);
    StaysJoins(s, m.before + RenderStr(m.key) + m.between, [COLON]);
    StaysJoins(s, m.before + RenderStr(m.key) + m.between + [COLON], RenderPadded(m.value));
  }

  lemma {:induction false} MembersStay(depth: int, members: seq<Member>)
    requires forall k :: 0 <= k < |members| ==> ValidMember(members[k])
    ensures Stays(Scan(depth, false, false), RenderMembers(members))
    decreases members
  {
    var s := Scan(depth, false, false);
    if members == [] {
      PlainStays(s, []);
    } else {
      MemberStays(depth, members[0]);
      if |members| > 1 {
        MembersStay(depth, members[1..]);
        PlainStays(s, [COMMA]);
        StaysJoins(s, RenderMember(members[0]), [COMMA]);
        StaysJoins(s, RenderMember(members[0]) + [COMMA], RenderMembers(members[1..]));
      }
    }
  }

  // ---- Cutting ----

  lemma ObjectEnds(j: Json, suffix: Text)
    requires j.Obj? && Valid(j)
    ensures Ends(Render(j) + suffix, |Render(j)|)
  {
    var whole := Render(j);
    var text := whole + suffix;
    BodyStays(0, j);
    assert text[..|whole|] == whole && whole[..|whole|] == whole;
    forall k | 0 < k < |whole| ensures !Closes(text, k) {
      assert text[..k] == whole[..k];
    }
    var last := |whole| - 1;
    assert whole[..last] == [OPEN] + Body(j) && text[..last] == whole[..last];
    if j.members == [] {
      PlainStays(Scan(1, false, false), j.blank);
    } else {
      MembersStay(1, j.members);
    }
    RunOne(Outside, OPEN);
    RunJoins(Outside, [OPEN], Body(j));
  }

  lemma EndsUnique(text: Text, m: nat, n: nat)
    requires Ends(text, m) && Ends(text, n)
    ensures m == n
  {
  }

  lemma FirstUnique(text: Text, unit: Unit, i: nat, j: nat)
    requires First(text, unit, i) && First(text, unit, j)
    ensures i == j
  {
  }

  /** Whatever prose stands around a JSON object, exactly that object is cut out. */
  lemma CutsOutObject(prefix: Text, j: Json, suffix: Text, body: Text)
    requires j.Obj? && Valid(j) && OPEN !in prefix && |prefix| <= MAX_PREFIX
    ensures CutsOut(prefix + Render(j) + suffix, body) <==> body == Render(j)
  {
    var text, whole := prefix + Render(j) + suffix, Render(j);
    assert text[|prefix|..] == whole + suffix;
    assert text[|prefix|..|prefix| + |whole|] == whole;
    assert forall k :: 0 <= k < |prefix| ==> text[k] == prefix[k];
    assert First(text, OPEN, |prefix|);
    ObjectEnds(j, suffix);
    assert CutsAt(text, |prefix|, whole);
    if CutsOut(text, body) {
      var start :| 0 <= start <= MAX_PREFIX && CutsAt(text, start, body);
      FirstUnique(text, OPEN, start, |prefix|);
      EndsUnique(whole + suffix, |body|, |whole|);
    }
  }
}
