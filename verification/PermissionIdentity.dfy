/** Exact permission identities: one grant covers exactly the requests with the same title, kind and JSON input. */
module PermissionIdentities {
  import opened CodeUnits
  import opened Wrappers
  import opened CanonicalJson
  import opened CanonicalProofs
  import opened CanonicalPrinter

  function Units(name: string): Text {
    seq(|name|, i requires 0 <= i < |name| => (name[i] as int % 0x10000) as Unit)
  }

  predicate IsKind(kind: Text) {
    || kind == Units("read") || kind == Units("edit") || kind == Units("delete")
    || kind == Units("move") || kind == Units("search") || kind == Units("execute")
    || kind == Units("think") || kind == Units("fetch") || kind == Units("other")
  }

  /** The `scope` field as `scopeData` reads it: a plain record of two strings or nothing; an accessor throws. */
  datatype Metadata = NoMetadata | Accessor | Metadata(id: Text, caption: Text)

  /** The data fields of a request; an absent field is `Undefined`, an accessor `Unreviewable`. */
  datatype Request = Request(
    plain: bool, toolCallId: Value, title: Value, kind: Value, input: Value, scope: Metadata)

  datatype Identity = Identity(toolCallId: Text, title: Text, kind: Text, scope: Metadata, exactId: Option<Text>)

  function Envelope(title: Text, kind: Text, input: Value): Value {
    Dict([Field(Units("title"), String(title)), Field(Units("kind"), String(kind)), Field(Units("input"), input)])
  }

  /** Canonical text and loss flag, or nothing when the input is refused. */
  function Canonical(input: Value): Option<(Text, bool)> {
    if Fits(input, 0, 0, []) then Some((Print(input), Loss(input))) else None
  }

  method CanonicalText(input: Value) returns (r: Option<(Text, bool)>)
    ensures r == Canonical(input)
  {
    var printer := new Printer();
    var ok := printer.Visit(input, 0);
    assert [] + Render(Arrange(input)) == Print(input);
    return if ok then Some((printer.written, printer.normalizationLoss)) else None;
  }

  /** `digest` stands for the hash of the canonical text. */
  function PermissionIdentity(request: Request, digest: Text -> Text): Option<Identity> {
    if !request.plain || !request.toolCallId.String? || |request.toolCallId.text| > MAX_BYTES
       || !request.title.String? || !request.kind.String? || !IsKind(request.kind.text) then None
    else
      var canonical := Canonical(Envelope(request.title.text, request.kind.text, request.input));
      if canonical.None? || request.input.Undefined? || request.scope.Accessor? then None
      else
        var (text, loss) := canonical.value;
        Some(Identity(request.toolCallId.text, request.title.text, request.kind.text, request.scope,
                      if loss then None else Some(Units("exact:") + digest(text))))
  }

  const MAX_SCOPE_ID := 256
  const MAX_SCOPE_CAPTION := 4096

  /** The texts the schema takes for an identifier and for a label, by the classes of their characters. */
  datatype Schema = Schema(idText: Text -> bool, captionText: Text -> bool)

  predicate Explicit(scope: Metadata, schema: Schema) {
    && scope.Metadata?
    && 1 <= |scope.id| <= MAX_SCOPE_ID && schema.idText(scope.id)
    && 1 <= |scope.caption| <= MAX_SCOPE_CAPTION && schema.captionText(scope.caption)
  }

  /** `permissionScopeFor` of the reviewed request: valid metadata names the scope, and otherwise the exact identity. */
  function ScopeFor(request: Request, digest: Text -> Text, schema: Schema): Option<Text> {
    var reviewed := PermissionIdentity(request, digest);
    if reviewed.None? then None
    else if Explicit(reviewed.value.scope, schema) then Some(Units("explicit:") + reviewed.value.scope.id)
    else reviewed.value.exactId
  }

  /** What the platform guarantees of any object: distinct keys, and numbers print as number tokens. */
  predicate WellFormed(v: Value) {
    match v
    case Number(token) => NumberToken(token)
    case List(items) => forall i :: 0 <= i < |items| ==> WellFormed(items[i])
    case Dict(fields) => Distinct(fields) && forall i :: 0 <= i < |fields| ==> WellFormed(fields[i].value)
    case _ => true
  }

  lemma {:induction false} WalkItemsEach(items: seq<Value>, depth: nat, nodes: nat, i: nat)
    requires WalkItems(items, depth, nodes).Some? && i < |items|
    ensures exists n :: Walk(items[i], depth, n).Some?
  {
    if i == 0 {
      assert Walk(items[0], depth, nodes).Some?;
    } else {
      WalkItemsEach(items[1..], depth, Walk(items[0], depth, nodes).value, i - 1);
    }
  }

  lemma {:induction false} WalkFieldsEach(fields: seq<Field>, depth: nat, nodes: nat, f: Field)
    requires WalkFields(fields, depth, nodes).Some? && f in fields && !f.value.Undefined?
    ensures exists n :: Walk(f.value, depth, n).Some?
  {
    if f == fields[0] {
      assert Walk(f.value, depth, nodes).Some?;
    } else {
      var n := if fields[0].value.Undefined? then nodes + 1 else Walk(fields[0].value, depth, nodes).value;
      WalkFieldsEach(fields[1..], depth, n, f);
    }
  }

  /** Whatever the traversal gets through is reviewable. */
  lemma {:induction false} WalkReviews(v: Value, depth: nat, nodes: nat)
    requires WellFormed(v) && Walk(Arrange(v), depth, nodes).Some?
    ensures Reviewable(v)
    decreases v
  {
    match v
    case List(items) =>
      forall i | 0 <= i < |items| ensures Reviewable(items[i]) {
        WalkItemsEach(ArrangeItems(items), depth + 1, nodes + 1, i);
        var n :| Walk(Arrange(items[i]), depth + 1, n).Some?;
        WalkReviews(items[i], depth + 1, n);
      }
    case Dict(fields) =>
      SortHas(ArrangeFields(fields));
      forall i | 0 <= i < |fields| && !fields[i].value.Undefined? ensures Reviewable(fields[i].value) {
        NeverUndefined(fields[i].value);
        var f := Field(fields[i].key, Arrange(fields[i].value));
        assert ArrangeFields(fields)[i] == f;
        WalkFieldsEach(Sort(ArrangeFields(fields)), depth + 1, nodes + 1, f);
        var n :| Walk(f.value, depth + 1, n).Some?;
        WalkReviews(fields[i].value, depth + 1, n);
      }
    case _ =>
  }

  // ---- The grant ----

  lemma EnvelopeMeaning(title: Text, kind: Text, input: Value)
    ensures Distinct(Envelope(title, kind, input).fields)
    ensures MeaningOf(Envelope(title, kind, input).fields)
         == map[Units("input") := Meaning(input)][Units("kind") := JString(kind)][Units("title") := JString(title)]
    ensures Units("title") != Units("input") && |Units("kind")| == 4 && |Units("title")| == |Units("input")| == 5
  {
    assert Units("title")[0] != Units("input")[0];
    var fields := Envelope(title, kind, input).fields;
    assert [fields[2]][1..] == [];
    assert MeaningOf([fields[2]]) == map[Units("input") := Meaning(input)];
    var rest := fields[1..];
    assert rest[0] == fields[1] && rest[1..] == [fields[2]];
    assert MeaningOf(rest) == map[Units("input") := Meaning(input)][Units("kind") := JString(kind)];
  }

  lemma EnvelopeSame(a: Request, b: Request)
    requires a.title.String? && b.title.String? && a.kind.String? && b.kind.String?
    ensures Meaning(Envelope(a.title.text, a.kind.text, a.input))
         == Meaning(Envelope(b.title.text, b.kind.text, b.input))
       <==> a.title.text == b.title.text && a.kind.text == b.kind.text && Meaning(a.input) == Meaning(b.input)
  {
    EnvelopeMeaning(a.title.text, a.kind.text, a.input);
    EnvelopeMeaning(b.title.text, b.kind.text, b.input);
    var m := MeaningOf(Envelope(a.title.text, a.kind.text, a.input).fields);
    var n := MeaningOf(Envelope(b.title.text, b.kind.text, b.input).fields);
    assert m[Units("title")] == JString(a.title.text) && n[Units("title")] == JString(b.title.text);
    assert m[Units("kind")] == JString(a.kind.text) && n[Units("kind")] == JString(b.kind.text);
    assert m[Units("input")] == Meaning(a.input) && n[Units("input")] == Meaning(b.input);
  }

  /** The canonical text behind an exact identity is that of a lossless, reviewable envelope. */
  lemma ExactSource(r: Request, digest: Text -> Text)
    requires WellFormed(r.input)
    requires var id := PermissionIdentity(r, digest); id.Some? && id.value.exactId.Some?
    ensures r.title.String? && r.kind.String?
    ensures var e := Envelope(r.title.text, r.kind.text, r.input);
            && Reviewable(e) && !Loss(e)
            && PermissionIdentity(r, digest).value.exactId == Some(Units("exact:") + digest(Print(e)))
  {
    var e := Envelope(r.title.text, r.kind.text, r.input);
    EnvelopeMeaning(r.title.text, r.kind.text, r.input);
    assert WellFormed(e);
    WalkReviews(e, 0, 0);
  }

  /**
   * With a collision-free digest, two requests share an exact identity exactly when they agree on title, kind and
   * JSON input; the call id never matters, nor does the order of keys at any depth.
   */
  lemma ExactGrant(a: Request, b: Request, digest: Text -> Text)
    requires forall s, t :: digest(s) == digest(t) ==> s == t
    requires WellFormed(a.input) && WellFormed(b.input)
    requires var id := PermissionIdentity(a, digest); id.Some? && id.value.exactId.Some?
    requires var id := PermissionIdentity(b, digest); id.Some? && id.value.exactId.Some?
    ensures PermissionIdentity(a, digest).value.exactId == PermissionIdentity(b, digest).value.exactId
       <==> a.title == b.title && a.kind == b.kind && Meaning(a.input) == Meaning(b.input)
  {
    ExactSource(a, digest);
    ExactSource(b, digest);
    var e, f := Envelope(a.title.text, a.kind.text, a.input), Envelope(b.title.text, b.kind.text, b.input);
    var prefix, x, y := Units("exact:"), digest(Print(e)), digest(Print(f));
    assert (prefix + x)[|prefix|..] == x && (prefix + y)[|prefix|..] == y;
    CanonicalFaithful(e, f);
    EnvelopeSame(a, b);
  }

  // ---- The scope ----

  /** Two requests ask for the same thing: under one identifier, or in every detail. */
  predicate SameGround(a: Request, b: Request, schema: Schema) {
    if Explicit(a.scope, schema) then Explicit(b.scope, schema) && a.scope.id == b.scope.id
    else
      !Explicit(b.scope, schema) && a.title == b.title && a.kind == b.kind && Meaning(a.input) == Meaning(b.input)
  }

  lemma NoAlias(id: Text, hash: Text)
    ensures Units("explicit:") + id != Units("exact:") + hash
  {
    assert (Units("explicit:") + id)[2] == Units("explicit:")[2] && (Units("exact:") + hash)[2] == Units("exact:")[2];
  }

  lemma ScopeKinds(r: Request, digest: Text -> Text, schema: Schema)
    requires ScopeFor(r, digest, schema).Some?
    ensures var id := PermissionIdentity(r, digest);
            && id.Some? && id.value.scope == r.scope
            && if Explicit(r.scope, schema) then ScopeFor(r, digest, schema).value == Units("explicit:") + r.scope.id
               else
                 && id.value.exactId.Some?
                 && exists hash :: ScopeFor(r, digest, schema).value == id.value.exactId.value == Units("exact:") + hash
  {
  }

  /**
   * Two reviewed requests fall under one scope exactly when both carry valid metadata with one identifier, or neither
   * does and they agree on title, kind and JSON input: explicit and exact scopes never alias.
   */
  lemma SharedScope(a: Request, b: Request, digest: Text -> Text, schema: Schema)
    requires forall s, t :: digest(s) == digest(t) ==> s == t
    requires WellFormed(a.input) && WellFormed(b.input)
    requires ScopeFor(a, digest, schema).Some? && ScopeFor(b, digest, schema).Some?
    ensures ScopeFor(a, digest, schema) == ScopeFor(b, digest, schema) <==> SameGround(a, b, schema)
  {
    ScopeKinds(a, digest, schema);
    ScopeKinds(b, digest, schema);
    var s, t := ScopeFor(a, digest, schema).value, ScopeFor(b, digest, schema).value;
    if Explicit(a.scope, schema) && Explicit(b.scope, schema) {
      var prefix := Units("explicit:");
      assert s[|prefix|..] == a.scope.id && t[|prefix|..] == b.scope.id;
    } else if Explicit(a.scope, schema) {
      var hash :| t == Units("exact:") + hash;
      NoAlias(a.scope.id, hash);
    } else if Explicit(b.scope, schema) {
      var hash :| s == Units("exact:") + hash;
      NoAlias(b.scope.id, hash);
    } else {
      ExactGrant(a, b, digest);
    }
  }
}
