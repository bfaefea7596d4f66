/** The JavaScript string operations the workflow engine relies on. */
module Text {
  /** The characters removed by String.prototype.trim: white space and line terminators. */
  predicate IsSpace(c: char) {
    || '\t' <= c <= '\r'
    || c == ' ' || c == '\U{00A0}' || c == '\U{1680}'
    || '\U{2000}' <= c <= '\U{200A}'
    || c == '\U{2028}' || c == '\U{2029}' || c == '\U{202F}' || c == '\U{205F}'
    || c == '\U{3000}' || c == '\U{FEFF}'
  }

  function TrimStart(s: string): (t: string)
    ensures |t| <= |s|
  {
    if s != "" && IsSpace(s[0]) then TrimStart(s[1..]) else s
  }

  function TrimEnd(s: string): (t: string)
    ensures t <= s
  {
    if s != "" && IsSpace(s[|s| - 1]) then TrimEnd(s[..|s| - 1]) else s
  }

  function Trim(s: string): string {
    TrimEnd(TrimStart(s))
  }

  predicate IsBlank(s: string) {
    Trim(s) == ""
  }

  predicate Trimmed(s: string) {
    s == "" || (!IsSpace(s[0]) && !IsSpace(s[|s| - 1]))
  }

  lemma {:induction false} TrimStartHead(s: string)
    ensures TrimStart(s) == "" || !IsSpace(TrimStart(s)[0])
  {
    if s != "" && IsSpace(s[0]) {
      TrimStartHead(s[1..]);
    }
  }

  lemma {:induction false} TrimEndLast(s: string)
    ensures var t := TrimEnd(s); t == "" || !IsSpace(t[|t| - 1])
  {
    if s != "" && IsSpace(s[|s| - 1]) {
      TrimEndLast(s[..|s| - 1]);
    }
  }

  /** Trimming leaves no outer white space, so parsing a stored summary again changes nothing. */
  lemma TrimIdempotent(s: string)
    ensures Trimmed(Trim(s)) && Trim(Trim(s)) == Trim(s)
  {
    TrimStartHead(s);
    TrimEndLast(TrimStart(s));
  }

  lemma TrimTrimmed(s: string)
    requires Trimmed(s)
    ensures Trim(s) == s
  {
  }

  /** Nothing but white space. */
  predicate AllSpace(s: string) {
    forall i :: 0 <= i < |s| ==> IsSpace(s[i])
  }

  /** `t` is `s` without its outer white space. */
  predicate Strips(s: string, t: string) {
    Trimmed(t) && exists i, j :: 0 <= i <= j <= |s| && t == s[i..j] && AllSpace(s[..i]) && AllSpace(s[j..])
  }

  lemma {:induction false} TrimStartIs(s: string) returns (i: nat)
    ensures i <= |s| && TrimStart(s) == s[i..] && AllSpace(s[..i])
  {
    if s != "" && IsSpace(s[0]) {
      var k := TrimStartIs(s[1..]);
      i := k + 1;
      assert s[..i] == [s[0]] + s[1..][..k] && s[i..] == s[1..][k..];
    } else {
      i := 0;
    }
  }

  lemma {:induction false} TrimEndIs(s: string)
    ensures AllSpace(s[|TrimEnd(s)|..]) && TrimEnd(s) == s[..|TrimEnd(s)|]
  {
    if s != "" && IsSpace(s[|s| - 1]) {
      var front := s[..|s| - 1];
      TrimEndIs(front);
      assert s[|TrimEnd(s)|..] == front[|TrimEnd(s)|..] + [s[|s| - 1]];
    }
  }

  /** Where the trimmed text stands. */
  lemma TrimIs(s: string) returns (i: nat, j: nat)
    ensures i <= j <= |s| && Trim(s) == s[i..j] && AllSpace(s[..i]) && AllSpace(s[j..])
  {
    i := TrimStartIs(s);
    var rest := s[i..];
    TrimEndIs(rest);
    j := i + |TrimEnd(rest)|;
    assert rest[..|TrimEnd(rest)|] == s[i..j] && rest[|TrimEnd(rest)|..] == s[j..];
  }

  /** Trimming removes the outer white space and nothing else. */
  lemma TrimStrips(s: string)
    ensures Strips(s, Trim(s)) && (IsBlank(s) <==> AllSpace(s))
  {
    TrimIdempotent(s);
    var i, j := TrimIs(s);
    BlankBetween(s, i, j);
  }

  lemma BlankBetween(s: string, i: nat, j: nat)
    requires i <= j <= |s| && AllSpace(s[..i]) && AllSpace(s[j..]) && Trimmed(s[i..j])
    ensures s[i..j] == "" <==> AllSpace(s)
  {
    if i == j {
      forall k | 0 <= k < |s| ensures IsSpace(s[k]) {
        assert k < i ==> s[..i][k] == s[k];
        assert k >= j ==> s[j..][k - j] == s[k];
      }
    } else {
      assert s[i..j][0] == s[i];
    }
  }

  /** There is only one way to strip a text. */
  lemma StripsOnly(s: string, t: string)
    requires Strips(s, t)
    ensures t == Trim(s)
  {
    TrimIdempotent(s);
    var i, j :| 0 <= i <= j <= |s| && t == s[i..j] && AllSpace(s[..i]) && AllSpace(s[j..]);
    var k, l := TrimIs(s);
    BlankBetween(s, i, j);
    BlankBetween(s, k, l);
    if t != "" {
      StripsWithin(s, i, j, k, l);
      StripsWithin(s, k, l, i, j);
    }
  }

  /** A stripped text that starts and ends with no white space lies inside any other. */
  lemma StripsWithin(s: string, i: nat, j: nat, k: nat, l: nat)
    requires i < j <= |s| && Trimmed(s[i..j]) && k <= l <= |s| && AllSpace(s[..k]) && AllSpace(s[l..])
    ensures k <= i && j <= l
  {
    assert s[i..j][0] == s[i] && s[i..j][j - i - 1] == s[j - 1];
    OuterSpace(s, k, l);
  }

  lemma OuterSpace(s: string, k: nat, l: nat)
    requires k <= l <= |s| && AllSpace(s[..k]) && AllSpace(s[l..])
    ensures forall x :: 0 <= x < k ==> IsSpace(s[x])
    ensures forall x :: l <= x < |s| ==> IsSpace(s[x])
  {
    forall x | 0 <= x < k ensures IsSpace(s[x]) {
      assert s[..k][x] == s[x];
    }
    forall x | l <= x < |s| ensures IsSpace(s[x]) {
      assert s[l..][x - l] == s[x];
    }
  }

  function LowerChar(c: char): char {
    if 'A' <= c <= 'Z' then c - 'A' + 'a' else c
  }

  /** toLowerCase restricted to ASCII: no other character lowers to a letter of "semi" or "auto" alone. */
  function Lower(s: string): string {
    seq(|s|, i requires 0 <= i < |s| => LowerChar(s[i]))
  }

  predicate IsDigit(c: char) {
    '0' <= c <= '9'
  }

  function DigitChar(d: nat): (c: char)
    requires d < 10
    ensures IsDigit(c)
  {
    '0' + d as char
  }

  /** The decimal text of a template-literal number. */
  function Decimal(n: nat): (s: string)
    ensures s != "" && forall i :: 0 <= i < |s| ==> IsDigit(s[i])
  {
    if n < 10 then [DigitChar(n)] else Decimal(n / 10) + [DigitChar(n % 10)]
  }

  /** Distinct numbers have distinct texts. */
  lemma {:induction false} DecimalInjective(m: nat, n: nat)
    requires Decimal(m) == Decimal(n)
    ensures m == n
  {
    var a, b := Decimal(m), Decimal(n);
    assert a[|a| - 1] == DigitChar(m % 10) && b[|b| - 1] == DigitChar(n % 10);
    if m >= 10 && n >= 10 {
      assert a[..|a| - 1] == Decimal(m / 10) && b[..|b| - 1] == Decimal(n / 10);
      DecimalInjective(m / 10, n / 10);
    }
  }

  /** `s` continues `q` with the number `n`, and the number ends there. */
  predicate Rooted(s: string, q: string, n: nat) {
    && q + Decimal(n) <= s
    && (|s| == |q| + |Decimal(n)| || !IsDigit(s[|q| + |Decimal(n)|]))
  }

  lemma RootedSame(s: string, q: string, m: nat, n: nat)
    requires Rooted(s, q, m) && Rooted(s, q, n)
    ensures m == n
  {
    var a, b := Decimal(m), Decimal(n);
    assert forall i :: 0 <= i < |a| ==> s[|q| + i] == (q + a)[|q| + i] == a[i];
    assert forall i :: 0 <= i < |b| ==> s[|q| + i] == (q + b)[|q| + i] == b[i];
    assert |a| == |b|;
    assert a == b;
    DecimalInjective(m, n);
  }

  /** A longer root starting with q, n and then a non-digit is itself rooted at q, n. */
  lemma RootedDeeper(s: string, q: string, n: nat, rest: string)
    requires rest != "" && !IsDigit(rest[0])
    requires q + Decimal(n) + rest <= s
    ensures Rooted(s, q, n)
  {
    var p := q + Decimal(n) + rest;
    assert p[|q| + |Decimal(n)|] == rest[0];
    assert s[|q| + |Decimal(n)|] == p[|q| + |Decimal(n)|];
    assert q + Decimal(n) <= p;
  }
}
