/** Vault globs: the language their tokens denote, and the two matchers of the repository. */
module Globs {
  import opened CodeUnits
  import opened Wrappers

  const STAR: Unit := 42
  const QUESTION: Unit := 63
  const SLASH: Unit := 47
  const DOT: Unit := 46
  const BACKSLASH: Unit := 92
  const OPEN: Unit := 91
  const CLOSE: Unit := 93
  const CARET: Unit := 94

  datatype Token = GlobStar | Star | Question | Literal(unit: Unit)

  /** How much of the glob its first token takes: `**` takes a slash that follows. */
  function Width(glob: Text): (n: nat)
    requires glob != []
    ensures 1 <= n <= |glob|
  {
    if glob[0] == STAR && |glob| > 1 && glob[1] == STAR then if |glob| > 2 && glob[2] == SLASH then 3 else 2 else 1
  }

  function First(glob: Text): (t: Token)
    requires glob != []
    ensures t.Literal? ==> t.unit != STAR && t.unit != QUESTION
  {
    if glob[0] == STAR then if |glob| > 1 && glob[1] == STAR then GlobStar else Star
    else if glob[0] == QUESTION then Question
    else Literal(glob[0])
  }

  function Tokens(glob: Text): (tokens: seq<Token>)
    ensures forall t :: t in tokens && t.Literal? ==> t.unit != STAR && t.unit != QUESTION
  {
    if glob == [] then [] else [First(glob)] + Tokens(glob[Width(glob)..])
  }

  // ---- The language ----

  /** `token` matches exactly `piece`. */
  predicate Fits(token: Token, piece: Text) {
    match token
    case GlobStar => true
    case Star => SLASH !in piece
    case Question => |piece| == 1 && piece[0] != SLASH
    case Literal(unit) => piece == [unit]
  }

  function Concat(pieces: seq<Text>): Text {
    if pieces == [] then [] else pieces[0] + Concat(pieces[1..])
  }

  predicate Cuts(tokens: seq<Token>, pieces: seq<Text>, path: Text) {
    && |pieces| == |tokens| && Concat(pieces) == path
    && forall k :: 0 <= k < |tokens| ==> Fits(tokens[k], pieces[k])
  }

  /** The path can be cut into one fitting piece per token, in order. */
  ghost predicate Denotes(tokens: seq<Token>, path: Text) {
    exists pieces :: Cuts(tokens, pieces, path)
  }

  /**
   * The same language read off the glob itself: `**` takes any text, together with a slash that follows it in the
   * glob; `*` takes any text without a slash, `?` one unit that is no slash, and everything else itself.
   */
  ghost predicate GlobTakes(glob: Text, path: Text)
    decreases |glob|
  {
    if glob == [] then path == []
    else if [STAR, STAR, SLASH] <= glob then exists cut :: 0 <= cut <= |path| && GlobTakes(glob[3..], path[cut..])
    else if [STAR, STAR] <= glob then exists cut :: 0 <= cut <= |path| && GlobTakes(glob[2..], path[cut..])
    else if [STAR] <= glob then
      exists cut :: 0 <= cut <= |path| && SLASH !in path[..cut] && GlobTakes(glob[1..], path[cut..])
    else if [QUESTION] <= glob then path != [] && path[0] != SLASH && GlobTakes(glob[1..], path[1..])
    else path != [] && path[0] == glob[0] && GlobTakes(glob[1..], path[1..])
  }

  /** The first token takes some prefix. */
  lemma DenotesFirst(tokens: seq<Token>, path: Text)
    requires tokens != []
    ensures Denotes(tokens, path)
       <==> exists cut :: 0 <= cut <= |path| && Fits(tokens[0], path[..cut]) && Denotes(tokens[1..], path[cut..])
  {
    if Denotes(tokens, path) {
      var pieces :| Cuts(tokens, pieces, path);
      var cut := |pieces[0]|;
      assert path[..cut] == pieces[0] && path[cut..] == Concat(pieces[1..]);
      assert Cuts(tokens[1..], pieces[1..], path[cut..]);
    }
    if cut :| 0 <= cut <= |path| && Fits(tokens[0], path[..cut]) && Denotes(tokens[1..], path[cut..]) {
      var rest :| Cuts(tokens[1..], rest, path[cut..]);
      var pieces := [path[..cut]] + rest;
      assert pieces[1..] == rest && path == path[..cut] + path[cut..];
      assert Cuts(tokens, pieces, path);
    }
  }

  lemma DenotesNothing(path: Text)
    ensures Denotes([], path) <==> path == []
  {
    if path == [] {
      assert Cuts([], [], path);
    }
  }

  /** The tokens of a glob denote what the glob says. */
  lemma {:induction false} TokensSay(glob: Text, path: Text)
    ensures Denotes(Tokens(glob), path) <==> GlobTakes(glob, path)
    decreases |glob|
  {
    DenotesNothing(path);
    if glob != [] {
      var rest := glob[Width(glob)..];
      assert Tokens(glob)[1..] == Tokens(rest);
      DenotesFirst(Tokens(glob), path);
      forall cut | 0 <= cut <= |path| ensures Denotes(Tokens(rest), path[cut..]) <==> GlobTakes(rest, path[cut..]) {
        TokensSay(rest, path[cut..]);
      }
      FirstSays(glob, path);
    }
  }

  lemma FirstSays(glob: Text, path: Text)
    requires glob != []
    ensures (exists cut :: 0 <= cut <= |path| && Fits(First(glob), path[..cut])
                           && GlobTakes(glob[Width(glob)..], path[cut..]))
       <==> GlobTakes(glob, path)
  {
    if !IsStar(First(glob)) {
      forall cut | 0 <= cut <= |path| && Fits(First(glob), path[..cut]) ensures cut == 1 {
      }
      if path != [] {
        assert path[..1][0] == path[0];
      }
    }
  }

  lemma {:induction false} ConcatSnoc(pieces: seq<Text>, last: Text)
    ensures Concat(pieces + [last]) == Concat(pieces) + last
  {
    if pieces == [] {
      assert [last][1..] == [];
    } else {
      ConcatSnoc(pieces[1..], last);
      assert (pieces + [last])[1..] == pieces[1..] + [last];
    }
  }

  /** The last token takes some suffix. */
  lemma DenotesSnoc(tokens: seq<Token>, token: Token, path: Text, cut: nat)
    requires cut <= |path| && Denotes(tokens, path[..cut]) && Fits(token, path[cut..])
    ensures Denotes(tokens + [token], path)
  {
    var pieces :| Cuts(tokens, pieces, path[..cut]);
    ConcatSnoc(pieces, path[cut..]);
    assert path == path[..cut] + path[cut..];
    assert Cuts(tokens + [token], pieces + [path[cut..]], path);
  }

  lemma DenotesCut(tokens: seq<Token>, token: Token, path: Text) returns (cut: nat)
    requires Denotes(tokens + [token], path)
    ensures cut <= |path| && Denotes(tokens, path[..cut]) && Fits(token, path[cut..])
  {
    var pieces :| Cuts(tokens + [token], pieces, path);
    var front, last := pieces[..|tokens|], pieces[|tokens|];
    assert pieces == front + [last];
    ConcatSnoc(front, last);
    cut := |Concat(front)|;
    assert path[..cut] == Concat(front) && path[cut..] == last;
    forall k | 0 <= k < |tokens| ensures Fits(tokens[k], front[k]) {
      assert Fits((tokens + [token])[k], pieces[k]);
    }
    assert Fits((tokens + [token])[|tokens|], last);
    assert Cuts(tokens, front, path[..cut]);
  }

  // ---- The rolling arrays ----

  predicate IsStar(token: Token) {
    token.GlobStar? || token.Star?
  }

  predicate Accepts(token: Token, unit: Unit) {
    match token
    case GlobStar => true
    case Star => unit != SLASH
    case Question => unit != SLASH
    case Literal(u) => unit == u
  }

  lemma SinglePiece(tokens: seq<Token>, token: Token, path: Text, index: nat)
    requires !IsStar(token) && index <= |path|
    ensures Denotes(tokens + [token], path[..index])
       <==> index > 0 && Accepts(token, path[index - 1]) && Denotes(tokens, path[..index - 1])
  {
    var prefix := path[..index];
    if Denotes(tokens + [token], prefix) {
      var cut := DenotesCut(tokens, token, prefix);
      assert cut == index - 1 && prefix[..cut] == path[..index - 1];
    }
    if index > 0 && Accepts(token, path[index - 1]) && Denotes(tokens, path[..index - 1]) {
      assert prefix[..index - 1] == path[..index - 1] && prefix[index - 1..] == [path[index - 1]];
      DenotesSnoc(tokens, token, prefix, index - 1);
    }
  }

  lemma Extend(path: Text, cut: nat, index: nat)
    requires cut < index <= |path|
    ensures path[..index][..cut] == path[..index - 1][..cut]
    ensures path[..index][cut..] == path[..index - 1][cut..] + [path[index - 1]]
  {
  }

  /** A star that takes the last unit takes the rest of a shorter prefix. */
  lemma StarShorter(tokens: seq<Token>, token: Token, path: Text, index: nat)
    requires IsStar(token) && index <= |path| && Denotes(tokens + [token], path[..index])
    ensures Denotes(tokens, path[..index])
            || (index > 0 && Accepts(token, path[index - 1]) && Denotes(tokens + [token], path[..index - 1]))
  {
    var prefix := path[..index];
    var cut := DenotesCut(tokens, token, prefix);
    if cut == index {
      assert prefix[..cut] == prefix;
    } else {
      Extend(path, cut, index);
      DenotesSnoc(tokens, token, path[..index - 1], cut);
    }
  }

  lemma StarLonger(tokens: seq<Token>, token: Token, path: Text, index: nat)
    requires IsStar(token) && 0 < index <= |path|
    requires Accepts(token, path[index - 1]) && Denotes(tokens + [token], path[..index - 1])
    ensures Denotes(tokens + [token], path[..index])
  {
    var cut := DenotesCut(tokens, token, path[..index - 1]);
    Extend(path, cut, index);
    DenotesSnoc(tokens, token, path[..index], cut);
  }

  lemma StarPiece(tokens: seq<Token>, token: Token, path: Text, index: nat)
    requires IsStar(token) && index <= |path|
    ensures Denotes(tokens + [token], path[..index])
       <==> Denotes(tokens, path[..index])
            || (index > 0 && Accepts(token, path[index - 1]) && Denotes(tokens + [token], path[..index - 1]))
  {
    var prefix := path[..index];
    if Denotes(tokens + [token], prefix) {
      StarShorter(tokens, token, path, index);
    }
    if Denotes(tokens, prefix) {
      assert prefix[..index] == prefix && prefix[index..] == [];
      DenotesSnoc(tokens, token, prefix, index);
    }
    if index > 0 && Accepts(token, path[index - 1]) && Denotes(tokens + [token], path[..index - 1]) {
      StarLonger(tokens, token, path, index);
    }
  }

  /** The row filled in for `tokens` says which prefixes of the path they denote. */
  ghost predicate Row(tokens: seq<Token>, path: Text, row: seq<bool>) {
    |row| == |path| + 1 && forall i :: 0 <= i <= |path| ==> (row[i] <==> Denotes(tokens, path[..i]))
  }

  lemma EmptyRow(path: Text, row: seq<bool>)
    requires |row| == |path| + 1 && row[0] && forall i :: 0 < i <= |path| ==> !row[i]
    ensures Row([], path, row)
  {
    forall i | 0 <= i <= |path| ensures row[i] <==> Denotes([], path[..i]) {
      if i == 0 {
        assert Cuts([], [], path[..0]);
      } else {
        assert path[..i] != [];
      }
    }
  }

  method VaultGlob(glob: Text, path: Text) returns (matches: bool)
    ensures matches <==> Denotes(Tokens(glob), path)
    ensures matches <==> GlobTakes(glob, path)
  {
    TokensSay(glob, path);
    var tokens := Tokens(glob);
    var previous := new bool[|path| + 1](_ => false);
    previous[0] := true;
    EmptyRow(path, previous[..]);
    var t := 0;
    while t < |tokens|
      invariant 0 <= t <= |tokens| && previous.Length == |path| + 1
      invariant Row(tokens[..t], path, previous[..])
    {
      var token := tokens[t];
      var current := new bool[|path| + 1](_ => false);
      ghost var row := previous[..];
      ghost var next := tokens[..t] + [token];
      current[0] := IsStar(token) && previous[0];
      FirstColumn(tokens[..t], token, path);
      var index := 1;
      while index <= |path|
        invariant 1 <= index <= |path| + 1
        invariant previous[..] == row && current.Length == |path| + 1 && current != previous
        invariant forall i :: 0 <= i < index ==> (current[i] <==> Denotes(next, path[..i]))
      {
        assert row[index] <==> Denotes(tokens[..t], path[..index]);
        assert row[index - 1] <==> Denotes(tokens[..t], path[..index - 1]);
        var accepts := Accepts(token, path[index - 1]);
        if IsStar(token) {
          StarPiece(tokens[..t], token, path, index);
          current[index] := previous[index] || (accepts && current[index - 1]);
        } else {
          SinglePiece(tokens[..t], token, path, index);
          current[index] := accepts && previous[index - 1];
        }
        index := index + 1;
      }
      previous := current;
      t := t + 1;
      assert tokens[..t] == next;
    }
    assert tokens[..t] == tokens && path[..|path|] == path;
    return previous[|path|];
  }

  lemma FirstColumn(tokens: seq<Token>, token: Token, path: Text)
    ensures Denotes(tokens + [token], path[..0]) <==> IsStar(token) && Denotes(tokens, path[..0])
  {
    if IsStar(token) {
      StarPiece(tokens, token, path, 0);
    } else {
      SinglePiece(tokens, token, path, 0);
    }
  }

  // ---- The regular expression ----

  datatype Atom = Dot | NotSlash | Exactly(unit: Unit)

  datatype Item = Once(atom: Atom) | Repeated(atom: Atom)

  /** What `.` leaves out. */
  predicate LineTerminator(unit: Unit) {
    unit == 10 || unit == 13 || unit == 0x2028 || unit == 0x2029
  }

  predicate Special(unit: Unit) {
    unit == DOT || unit == 43 || unit == CARET || unit == 36 || unit == 123 || unit == 125 || unit == 40 || unit == 41
    || unit == 124 || unit == OPEN || unit == CLOSE || unit == BACKSLASH
  }

  predicate Takes(atom: Atom, unit: Unit) {
    match atom
    case Dot => !LineTerminator(unit)
    case NotSlash => unit != SLASH
    case Exactly(u) => unit == u
  }

  predicate FitsItem(item: Item, piece: Text) {
    && (item.Once? ==> |piece| == 1)
    && forall k :: 0 <= k < |piece| ==> Takes(item.atom, piece[k])
  }

  predicate CutsItems(items: seq<Item>, pieces: seq<Text>, path: Text) {
    && |pieces| == |items| && Concat(pieces) == path
    && forall k :: 0 <= k < |items| ==> FitsItem(items[k], pieces[k])
  }

  /** The anchored expression matches the whole path. */
  ghost predicate Matches(items: seq<Item>, path: Text) {
    exists pieces :: CutsItems(items, pieces, path)
  }

  /** The text `compileGlob` writes for one token. */
  function Emit(token: Token): Text {
    match token
    case GlobStar => [DOT, STAR]
    case Star => [OPEN, CARET, SLASH, CLOSE, STAR]
    case Question => [OPEN, CARET, SLASH, CLOSE]
    case Literal(unit) => if Special(unit) then [BACKSLASH, unit] else [unit]
  }

  function EmitAll(tokens: seq<Token>): Text {
    if tokens == [] then [] else Emit(tokens[0]) + EmitAll(tokens[1..])
  }

  function Compiled(token: Token): Item {
    match token
    case GlobStar => Repeated(Dot)
    case Star => Repeated(NotSlash)
    case Question => Once(NotSlash)
    case Literal(unit) => Once(Exactly(unit))
  }

  function CompiledAll(tokens: seq<Token>): seq<Item> {
    seq(|tokens|, i requires 0 <= i < |tokens| => Compiled(tokens[i]))
  }

  /** One atom of the expression text, by the grammar of patterns: escape, class, dot or plain character. */
  function ReadAtom(text: Text): (r: Option<(Atom, nat)>)
    requires text != []
    ensures r.Some? ==> 0 < r.value.1 <= |text|
  {
    if text[0] == BACKSLASH then
      if |text| > 1 && Special(text[1]) then Some((Exactly(text[1]), 2)) else None
    else if text[0] == OPEN then
      if |text| > 3 && text[1] == CARET && text[2] == SLASH && text[3] == CLOSE then Some((NotSlash, 4)) else None
    else if text[0] == DOT then Some((Dot, 1))
    else if Special(text[0]) || text[0] == STAR || text[0] == QUESTION then None
    else Some((Exactly(text[0]), 1))
  }

  function ReadPattern(text: Text): Option<seq<Item>>
    decreases |text|
  {
    if text == [] then Some([])
    else
      var first := ReadAtom(text);
      if first.None? then None
      else
        var (atom, used) := first.value;
        var repeated := used < |text| && text[used] == STAR;
        var rest := ReadPattern(text[if repeated then used + 1 else used..]);
        if rest.None? then None
        else Some([if repeated then Repeated(atom) else Once(atom)] + rest.value)
  }

  method CompileGlob(glob: Text) returns (out: Text)
    ensures out == EmitAll(Tokens(glob))
    ensures ReadPattern(out) == Some(CompiledAll(Tokens(glob)))
  {
    out := [];
    var i := 0;
    while i < |glob|
      invariant 0 <= i <= |glob|
      invariant out + EmitAll(Tokens(glob[i..])) == EmitAll(Tokens(glob))
    {
      var c := glob[i];
      ghost var done, before := out, i;
      if c == STAR && i + 1 < |glob| && glob[i + 1] == STAR {
        out := out + [DOT, STAR];
        i := i + 2;
        if i < |glob| && glob[i] == SLASH {
          i := i + 1;
        }
      } else if c == STAR {
        out := out + [OPEN, CARET, SLASH, CLOSE, STAR];
        i := i + 1;
      } else if c == QUESTION {
        out := out + [OPEN, CARET, SLASH, CLOSE];
        i := i + 1;
      } else {
        out := out + (if Special(c) then [BACKSLASH, c] else [c]);
        i := i + 1;
      }
      EmitStep(glob, before, done, i, out);
    }
    assert glob[i..] == [];
    ReadsBack(Tokens(glob));
  }

  lemma EmitStep(glob: Text, i: nat, done: Text, j: nat, out: Text)
    requires i < |glob| && j == i + Width(glob[i..]) && out == done + Emit(First(glob[i..]))
    ensures out + EmitAll(Tokens(glob[j..])) == done + EmitAll(Tokens(glob[i..]))
  {
    var rest := glob[i..];
    assert rest[Width(rest)..] == glob[j..];
    EmitFirst(rest);
  }

  lemma EmitFirst(rest: Text)
    requires rest != []
    ensures EmitAll(Tokens(rest)) == Emit(First(rest)) + EmitAll(Tokens(rest[Width(rest)..]))
  {
    assert Tokens(rest)[1..] == Tokens(rest[Width(rest)..]);
  }

  /** Nothing a token starts with could be taken for a quantifier of what precedes it. */
  lemma EmitStart(tokens: seq<Token>)
    requires forall t :: t in tokens && t.Literal? ==> t.unit != STAR && t.unit != QUESTION
    ensures EmitAll(tokens) == [] || EmitAll(tokens)[0] != STAR
  {
  }

  /** A token's text is read back as its item, whatever harmless text follows. */
  lemma ReadsFirst(token: Token, rest: Text)
    requires token.Literal? ==> token.unit != STAR && token.unit != QUESTION
    requires rest == [] || rest[0] != STAR
    requires ReadPattern(rest).Some?
    ensures ReadPattern(Emit(token) + rest) == Some([Compiled(token)] + ReadPattern(rest).value)
  {
    var text := Emit(token) + rest;
    var used := if IsStar(token) then |Emit(token)| - 1 else |Emit(token)|;
    ReadsAtom(token, rest);
    assert text[|Emit(token)|..] == rest;
    assert used < |text| && text[used] == STAR <==> IsStar(token);
  }

  lemma ReadsAtom(token: Token, rest: Text)
    requires token.Literal? ==> token.unit != STAR && token.unit != QUESTION
    ensures var text := Emit(token) + rest;
            ReadAtom(text) == Some((Compiled(token).atom,
                                    if IsStar(token) then |Emit(token)| - 1 else |Emit(token)|))
  {
  }

  /** The text denotes the intended expression, escapes included. */
  lemma {:induction false} ReadsBack(tokens: seq<Token>)
    requires forall t :: t in tokens && t.Literal? ==> t.unit != STAR && t.unit != QUESTION
    ensures ReadPattern(EmitAll(tokens)) == Some(CompiledAll(tokens))
  {
    if tokens == [] {
    } else {
      ReadsBack(tokens[1..]);
      EmitStart(tokens[1..]);
      ReadsFirst(tokens[0], EmitAll(tokens[1..]));
      assert CompiledAll(tokens) == [Compiled(tokens[0])] + CompiledAll(tokens[1..]);
    }
  }

  // ---- Agreement ----

  predicate NoTerminator(path: Text) {
    forall k :: 0 <= k < |path| ==> !LineTerminator(path[k])
  }

  lemma {:induction false} PieceWithin(pieces: seq<Text>, k: nat)
    requires k < |pieces| && NoTerminator(Concat(pieces))
    ensures NoTerminator(pieces[k])
  {
    var first, rest := pieces[0], Concat(pieces[1..]);
    assert Concat(pieces) == first + rest;
    assert forall i :: 0 <= i < |first| ==> first[i] == Concat(pieces)[i];
    assert forall i :: 0 <= i < |rest| ==> rest[i] == Concat(pieces)[|first| + i];
    if k > 0 {
      PieceWithin(pieces[1..], k - 1);
    }
  }

  /** The expression never accepts more than the glob denotes. */
  lemma MatchesImpliesDenotes(tokens: seq<Token>, path: Text)
    requires Matches(CompiledAll(tokens), path)
    ensures Denotes(tokens, path)
  {
    var pieces :| CutsItems(CompiledAll(tokens), pieces, path);
    forall k | 0 <= k < |tokens| ensures Fits(tokens[k], pieces[k]) {
      assert FitsItem(CompiledAll(tokens)[k], pieces[k]);
    }
    assert Cuts(tokens, pieces, path);
  }

  lemma DenotesImpliesMatches(tokens: seq<Token>, path: Text)
    requires Denotes(tokens, path) && NoTerminator(path)
    ensures Matches(CompiledAll(tokens), path)
  {
    var pieces :| Cuts(tokens, pieces, path);
    forall k | 0 <= k < |tokens| ensures FitsItem(CompiledAll(tokens)[k], pieces[k]) {
      assert Fits(tokens[k], pieces[k]);
      PieceWithin(pieces, k);
    }
    assert CutsItems(CompiledAll(tokens), pieces, path);
  }

  /** The two matchers agree on a path, whatever the glob, exactly when the path has no line terminator. */
  lemma Agreement(path: Text)
    ensures (forall glob: Text :: Matches(CompiledAll(Tokens(glob)), path) <==> Denotes(Tokens(glob), path))
       <==> NoTerminator(path)
  {
    if NoTerminator(path) {
      forall glob: Text ensures Matches(CompiledAll(Tokens(glob)), path) <==> Denotes(Tokens(glob), path) {
        if Denotes(Tokens(glob), path) {
          DenotesImpliesMatches(Tokens(glob), path);
        }
        if Matches(CompiledAll(Tokens(glob)), path) {
          MatchesImpliesDenotes(Tokens(glob), path);
        }
      }
    } else {
      Disagreement(path);
    }
  }

  /** `**` denotes every path, but its translation stops at a line terminator. */
  lemma Disagreement(path: Text)
    requires !NoTerminator(path)
    ensures Denotes(Tokens([STAR, STAR]), path) && !Matches(CompiledAll(Tokens([STAR, STAR])), path)
  {
    var tokens := Tokens([STAR, STAR]);
    var glob := [STAR, STAR];
    assert glob[2..] == [];
    assert tokens == [GlobStar] + Tokens(glob[2..]);
    assert tokens == [GlobStar];
    assert [path][1..] == [] && Concat([path]) == path;
    assert tokens[0] == GlobStar && Fits(GlobStar, path);
    assert Cuts(tokens, [path], path);
    forall pieces ensures !CutsItems(CompiledAll(tokens), pieces, path) {
      if |pieces| == 1 {
        assert pieces[1..] == [] && Concat(pieces) == pieces[0];
      }
    }
  }

  // ---- Agreement, glob by glob ----

  /** Line feeds directly followed by a slash. */
  function Breaks(text: Text): nat {
    if |text| < 2 then 0 else (if text[0] == 10 && text[1] == SLASH then 1 else 0) + Breaks(text[1..])
  }

  lemma {:induction false} BreaksJoin(a: Text, b: Text)
    ensures Breaks(a) + Breaks(b) <= Breaks(a + b) <= Breaks(a) + Breaks(b) + 1
    decreases |a|
  {
    if a == [] {
      assert a + b == b;
    } else {
      BreaksJoin(a[1..], b);
      assert (a + b)[1..] == a[1..] + b;
    }
  }

  lemma {:induction false} NoBreaks(text: Text)
    requires SLASH !in text || 10 !in text
    ensures Breaks(text) == 0
  {
    if |text| >= 2 {
      NoBreaks(text[1..]);
    }
  }

  /** No single item of a compiled glob gets past a line feed and a slash. */
  lemma ItemBreaks(token: Token, piece: Text)
    requires FitsItem(Compiled(token), piece)
    ensures Breaks(piece) == 0
  {
    if IsStar(token) {
      assert token.GlobStar? ==> forall k :: 0 <= k < |piece| ==> !LineTerminator(piece[k]);
      NoBreaks(piece);
    }
  }

  /** So a match of `n` items gets past fewer than `n` of them. */
  lemma {:induction false} MatchBreaks(tokens: seq<Token>, pieces: seq<Text>)
    requires |pieces| == |tokens| && forall k :: 0 <= k < |tokens| ==> FitsItem(Compiled(tokens[k]), pieces[k])
    ensures Breaks(Concat(pieces)) <= |tokens|
    decreases |tokens|
  {
    if tokens != [] {
      ItemBreaks(tokens[0], pieces[0]);
      MatchBreaks(tokens[1..], pieces[1..]);
      BreaksJoin(pieces[0], Concat(pieces[1..]));
    }
  }

  function Broken(n: nat): Text {
    if n == 0 then [] else [10, SLASH] + Broken(n - 1)
  }

  lemma {:induction false} BrokenBreaks(n: nat)
    ensures Breaks(Broken(n)) >= n
  {
    if n > 0 {
      BrokenBreaks(n - 1);
      assert [10, SLASH][1..] == [SLASH];
      BreaksJoin([10, SLASH], Broken(n - 1));
    }
  }

  /** Some piece that the token takes; `**` takes whatever it is given. */
  function Sample(token: Token, given: Text): (piece: Text)
    ensures Fits(token, piece)
  {
    match token
    case GlobStar => given
    case Star => []
    case Question => [97]
    case Literal(unit) => [unit]
  }

  function Samples(tokens: seq<Token>, given: Text): (pieces: seq<Text>)
    ensures |pieces| == |tokens| && forall k :: 0 <= k < |tokens| ==> pieces[k] == Sample(tokens[k], given)
  {
    if tokens == [] then [] else [Sample(tokens[0], given)] + Samples(tokens[1..], given)
  }

  lemma {:induction false} SampleBreaks(tokens: seq<Token>, given: Text)
    requires GlobStar in tokens
    ensures Breaks(Concat(Samples(tokens, given))) >= Breaks(given)
    decreases |tokens|
  {
    var pieces := Samples(tokens, given);
    assert pieces[1..] == Samples(tokens[1..], given);
    BreaksJoin(pieces[0], Concat(pieces[1..]));
    if tokens[0] != GlobStar {
      SampleBreaks(tokens[1..], given);
    }
  }

  /** A path that the glob denotes and its translation rejects. */
  lemma StarsDisagree(tokens: seq<Token>) returns (path: Text)
    requires GlobStar in tokens
    ensures Denotes(tokens, path) && !Matches(CompiledAll(tokens), path)
  {
    var given := Broken(|tokens| + 1);
    var samples := Samples(tokens, given);
    path := Concat(samples);
    assert Cuts(tokens, samples, path);
    BrokenBreaks(|tokens| + 1);
    SampleBreaks(tokens, given);
    forall pieces ensures !CutsItems(CompiledAll(tokens), pieces, path) {
      if CutsItems(CompiledAll(tokens), pieces, path) {
        ItemsFit(tokens, pieces, path);
        MatchBreaks(tokens, pieces);
        assert false;
      }
    }
  }

  lemma ItemsFit(tokens: seq<Token>, pieces: seq<Text>, path: Text)
    requires CutsItems(CompiledAll(tokens), pieces, path)
    ensures |pieces| == |tokens| && forall k :: 0 <= k < |tokens| ==> FitsItem(Compiled(tokens[k]), pieces[k])
  {
    forall k | 0 <= k < |tokens| ensures FitsItem(Compiled(tokens[k]), pieces[k]) {
      assert FitsItem(CompiledAll(tokens)[k], pieces[k]);
    }
  }

  lemma SimpleDenotesMatches(tokens: seq<Token>, path: Text)
    requires GlobStar !in tokens && Denotes(tokens, path)
    ensures Matches(CompiledAll(tokens), path)
  {
    var pieces :| Cuts(tokens, pieces, path);
    forall k | 0 <= k < |tokens| ensures FitsItem(CompiledAll(tokens)[k], pieces[k]) {
      assert Fits(tokens[k], pieces[k]) && tokens[k] in tokens;
    }
    assert CutsItems(CompiledAll(tokens), pieces, path);
  }

  /** A glob's two matchers agree on every path exactly when no token of it is `**`. */
  lemma GlobAgreement(glob: Text)
    ensures (forall path: Text :: Matches(CompiledAll(Tokens(glob)), path) <==> Denotes(Tokens(glob), path))
       <==> GlobStar !in Tokens(glob)
  {
    var tokens := Tokens(glob);
    if GlobStar in tokens {
      var path := StarsDisagree(tokens);
    } else {
      forall path: Text ensures Matches(CompiledAll(tokens), path) <==> Denotes(tokens, path) {
        if Denotes(tokens, path) {
          SimpleDenotesMatches(tokens, path);
        }
        if Matches(CompiledAll(tokens), path) {
          MatchesImpliesDenotes(tokens, path);
        }
      }
    }
  }
}
