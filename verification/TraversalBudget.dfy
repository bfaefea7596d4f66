/** What the canonical traversal accepts, exactly, and so which permission requests can be reviewed. */
module TraversalBudget {
  import opened CodeUnits
  import opened Wrappers
  import opened CanonicalJson
  import opened CanonicalProofs
  import opened CanonicalPrinter
  import opened PermissionIdentities

  // ---- What the limits are about ----

  /** The nodes of a value; an absent field is counted too. */
  function Nodes(v: Value): (n: nat)
    ensures n >= 1
  {
    match v
    case List(items) => 1 + NodesOf(items)
    case Dict(fields) => 1 + NodesIn(fields)
    case _ => 1
  }

  function NodesOf(items: seq<Value>): (n: nat)
    ensures n >= |items|
  {
    if items == [] then 0 else Nodes(items[0]) + NodesOf(items[1..])
  }

  function NodesIn(fields: seq<Field>): (n: nat)
    ensures n >= |fields|
  {
    if fields == [] then 0 else Nodes(fields[0].value) + NodesIn(fields[1..])
  }

  /** Nothing in the value is refused on sight, whatever its size. */
  predicate Admissible(v: Value) {
    match v
    case List(items) => forall i :: 0 <= i < |items| ==> Admissible(items[i])
    case Dict(fields) => forall i :: 0 <= i < |fields| ==> AdmissibleField(fields[i])
    case Undefined => false
    case Unreviewable => false
    case _ => true
  }

  predicate AdmissibleField(f: Field) {
    |f.key| <= MAX_BYTES && (f.value.Undefined? || Admissible(f.value))
  }

  /** Nested at most `room` deep. */
  predicate Shallow(v: Value, room: int) {
    && room >= 0
    && match v
       case List(items) => forall i :: 0 <= i < |items| ==> Shallow(items[i], room - 1)
       case Dict(fields) => forall i :: 0 <= i < |fields| ==> ShallowField(fields[i], room - 1)
       case _ => true
  }

  predicate ShallowField(f: Field, room: int) {
    f.value.Undefined? || Shallow(f.value, room)
  }

  /** Going from last item or field to last item or field leads to an array of single nodes, an empty one included. */
  predicate EndsFlat(v: Value) {
    match v
    case List(items) => NodesOf(items) == |items| || (items != [] && EndsFlat(items[|items| - 1]))
    case Dict(fields) => fields != [] && EndsFlat(fields[|fields| - 1].value)
    case _ => false
  }

  /** The limit on nodes as it works out: an array's own `length` needs room that only a later node can give. */
  predicate NodesFit(total: nat, endsFlat: bool) {
    total <= MAX_NODES && !(total == MAX_NODES && endsFlat)
  }

  // ---- The traversal ----

  /** The count is the number of nodes, absent values included. */
  lemma {:induction false} WalkCounts(v: Value, depth: nat, nodes: nat)
    requires Walk(v, depth, nodes).Some?
    ensures Walk(v, depth, nodes).value == nodes + Nodes(v) <= MAX_NODES && depth <= MAX_DEPTH
    decreases v, 0
  {
    match v
    case List(items) => WalkItemsCounts(items, depth + 1, nodes + 1);
    case Dict(fields) => WalkFieldsCounts(fields, depth + 1, nodes + 1);
    case _ =>
  }

  lemma {:induction false} WalkItemsCounts(items: seq<Value>, depth: nat, nodes: nat)
    requires WalkItems(items, depth, nodes).Some? && nodes <= MAX_NODES
    ensures WalkItems(items, depth, nodes).value == nodes + NodesOf(items) <= MAX_NODES
    decreases items
  {
    if items != [] {
      WalkCounts(items[0], depth, nodes);
      WalkItemsCounts(items[1..], depth, nodes + Nodes(items[0]));
    }
  }

  lemma {:induction false} WalkFieldsCounts(fields: seq<Field>, depth: nat, nodes: nat)
    requires WalkFields(fields, depth, nodes).Some? && nodes <= MAX_NODES
    ensures WalkFields(fields, depth, nodes).value == nodes + NodesIn(fields) <= MAX_NODES
    decreases fields
  {
    if fields != [] {
      if !fields[0].value.Undefined? {
        WalkCounts(fields[0].value, depth, nodes);
      }
      WalkFieldsCounts(fields[1..], depth, nodes + Nodes(fields[0].value));
    }
  }

  /** The traversal goes through exactly on admissible values that fit, both in depth and in nodes. */
  lemma {:induction false} WalkExact(v: Value, depth: nat, nodes: nat)
    ensures Walk(v, depth, nodes).Some?
       <==> Admissible(v) && Shallow(v, MAX_DEPTH - depth) && NodesFit(nodes + Nodes(v), EndsFlat(v))
    decreases v, 0
  {
    if nodes + 1 <= MAX_NODES && depth <= MAX_DEPTH {
      match v
      case List(items) => WalkItemsExact(items, depth + 1, nodes + 1);
      case Dict(fields) => WalkFieldsExact(fields, depth + 1, nodes + 1);
      case _ =>
    }
  }

  lemma {:induction false} WalkItemsExact(items: seq<Value>, depth: nat, nodes: nat)
    requires nodes <= MAX_NODES
    ensures WalkItems(items, depth, nodes).Some?
       <==> && (forall i :: 0 <= i < |items| ==> Admissible(items[i]) && Shallow(items[i], MAX_DEPTH - depth))
            && NodesFit(nodes + NodesOf(items), items != [] && EndsFlat(items[|items| - 1]))
    decreases items
  {
    if items != [] {
      var first, rest := items[0], items[1..];
      WalkExact(first, depth, nodes);
      if Walk(first, depth, nodes).Some? {
        WalkCounts(first, depth, nodes);
        WalkItemsExact(rest, depth, nodes + Nodes(first));
      }
      assert forall i :: 0 <= i < |rest| ==> rest[i] == items[i + 1];
      assert forall i :: 0 < i < |items| ==> items[i] == rest[i - 1];
    }
  }

  lemma {:induction false} WalkFieldsExact(fields: seq<Field>, depth: nat, nodes: nat)
    requires nodes <= MAX_NODES
    ensures WalkFields(fields, depth, nodes).Some?
       <==> && (forall i :: 0 <= i < |fields| ==>
                  AdmissibleField(fields[i]) && ShallowField(fields[i], MAX_DEPTH - depth))
            && NodesFit(nodes + NodesIn(fields), fields != [] && EndsFlat(fields[|fields| - 1].value))
    decreases fields
  {
    if fields != [] {
      var f, rest := fields[0], fields[1..];
      if !f.value.Undefined? {
        WalkExact(f.value, depth, nodes);
        if Walk(f.value, depth, nodes).Some? {
          WalkCounts(f.value, depth, nodes);
        }
      }
      if nodes + Nodes(f.value) <= MAX_NODES {
        WalkFieldsExact(rest, depth, nodes + Nodes(f.value));
      }
      assert forall i :: 0 <= i < |rest| ==> rest[i] == fields[i + 1];
      assert forall i :: 0 < i < |fields| ==> fields[i] == rest[i - 1];
    }
  }

  // ---- Sorting changes none of it ----

  lemma {:induction false} InsertNodes(f: Field, sorted: seq<Field>)
    ensures NodesIn(Insert(f, sorted)) == Nodes(f.value) + NodesIn(sorted)
  {
    if sorted == [] || Less(f.key, sorted[0].key) {
      assert ([f] + sorted)[1..] == sorted;
    } else {
      InsertNodes(f, sorted[1..]);
      assert Insert(f, sorted)[1..] == Insert(f, sorted[1..]);
    }
  }

  lemma {:induction false} SortNodes(fields: seq<Field>)
    ensures NodesIn(Sort(fields)) == NodesIn(fields)
  {
    if fields != [] {
      SortNodes(fields[1..]);
      InsertNodes(fields[0], Sort(fields[1..]));
    }
  }

  lemma {:induction false} ArrangeNodes(v: Value)
    ensures Nodes(Arrange(v)) == Nodes(v)
    decreases v
  {
    match v
    case List(items) => ArrangeItemsNodes(items);
    case Dict(fields) =>
      ArrangeFieldsNodes(fields);
      SortNodes(ArrangeFields(fields));
    case _ =>
  }

  lemma {:induction false} ArrangeItemsNodes(items: seq<Value>)
    ensures NodesOf(ArrangeItems(items)) == NodesOf(items)
    decreases items
  {
    if items != [] {
      ArrangeNodes(items[0]);
      ArrangeItemsNodes(items[1..]);
      assert ArrangeItems(items)[1..] == ArrangeItems(items[1..]);
    }
  }

  lemma {:induction false} ArrangeFieldsNodes(fields: seq<Field>)
    ensures NodesIn(ArrangeFields(fields)) == NodesIn(fields)
    decreases fields
  {
    if fields != [] {
      ArrangeNodes(fields[0].value);
      ArrangeFieldsNodes(fields[1..]);
      assert ArrangeFields(fields)[1..] == ArrangeFields(fields[1..]);
    }
  }

  predicate AllAdmissible(fields: seq<Field>) {
    forall i :: 0 <= i < |fields| ==> AdmissibleField(fields[i])
  }

  predicate AllShallow(fields: seq<Field>, room: int) {
    forall i :: 0 <= i < |fields| ==> ShallowField(fields[i], room)
  }

  lemma SortAdmissible(fields: seq<Field>, room: int)
    ensures AllAdmissible(Sort(fields)) == AllAdmissible(fields)
    ensures AllShallow(Sort(fields), room) == AllShallow(fields, room)
  {
    SortHas(fields);
    var sorted := Sort(fields);
    assert forall i :: 0 <= i < |sorted| ==> sorted[i] in fields;
    assert forall i :: 0 <= i < |fields| ==> fields[i] in sorted;
  }

  lemma {:induction false} ArrangeAdmissible(v: Value, room: int)
    ensures Admissible(Arrange(v)) == Admissible(v) && Shallow(Arrange(v), room) == Shallow(v, room)
    decreases v, 1
  {
    match v
    case List(items) => ArrangeListAdmissible(v, room);
    case Dict(fields) => ArrangeDictAdmissible(v, room);
    case _ =>
  }

  lemma {:induction false} ArrangeListAdmissible(v: Value, room: int)
    requires v.List?
    ensures Admissible(Arrange(v)) == Admissible(v) && Shallow(Arrange(v), room) == Shallow(v, room)
    decreases v, 0
  {
    forall i | 0 <= i < |v.items|
      ensures Admissible(Arrange(v.items[i])) == Admissible(v.items[i])
              && Shallow(Arrange(v.items[i]), room - 1) == Shallow(v.items[i], room - 1)
    {
      ArrangeAdmissible(v.items[i], room - 1);
    }
    ListByItems(v.items, ArrangeItems(v.items), room);
  }

  lemma ListByItems(items: seq<Value>, mapped: seq<Value>, room: int)
    requires |mapped| == |items|
    requires forall i :: 0 <= i < |items| ==>
               && Admissible(mapped[i]) == Admissible(items[i])
               && Shallow(mapped[i], room - 1) == Shallow(items[i], room - 1)
    ensures Admissible(List(mapped)) == Admissible(List(items))
    ensures Shallow(List(mapped), room) == Shallow(List(items), room)
  {
  }

  lemma FieldByValue(f: Field, room: int)
    requires Admissible(Arrange(f.value)) == Admissible(f.value)
    requires Shallow(Arrange(f.value), room) == Shallow(f.value, room)
    ensures var g := Field(f.key, Arrange(f.value));
            AdmissibleField(g) == AdmissibleField(f) && ShallowField(g, room) == ShallowField(f, room)
  {
    NeverUndefined(f.value);
  }

  lemma FieldsByValue(fields: seq<Field>, room: int)
    requires forall i :: 0 <= i < |fields| ==>
               && Admissible(Arrange(fields[i].value)) == Admissible(fields[i].value)
               && Shallow(Arrange(fields[i].value), room) == Shallow(fields[i].value, room)
    ensures AllAdmissible(ArrangeFields(fields)) == AllAdmissible(fields)
    ensures AllShallow(ArrangeFields(fields), room) == AllShallow(fields, room)
  {
    forall i | 0 <= i < |fields|
      ensures AdmissibleField(ArrangeFields(fields)[i]) == AdmissibleField(fields[i])
              && ShallowField(ArrangeFields(fields)[i], room) == ShallowField(fields[i], room)
    {
      FieldByValue(fields[i], room);
    }
  }

  lemma {:induction false} ArrangeDictAdmissible(v: Value, room: int)
    requires v.Dict?
    ensures Admissible(Arrange(v)) == Admissible(v) && Shallow(Arrange(v), room) == Shallow(v, room)
    decreases v, 0
  {
    var fields := v.fields;
    forall i | 0 <= i < |fields|
      ensures Admissible(Arrange(fields[i].value)) == Admissible(fields[i].value)
              && Shallow(Arrange(fields[i].value), room - 1) == Shallow(fields[i].value, room - 1)
    {
      ArrangeAdmissible(fields[i].value, room - 1);
    }
    DictByFields(fields, room);
  }

  lemma DictByFields(fields: seq<Field>, room: int)
    requires forall i :: 0 <= i < |fields| ==>
               && Admissible(Arrange(fields[i].value)) == Admissible(fields[i].value)
               && Shallow(Arrange(fields[i].value), room - 1) == Shallow(fields[i].value, room - 1)
    ensures Admissible(Arrange(Dict(fields))) == Admissible(Dict(fields))
    ensures Shallow(Arrange(Dict(fields)), room) == Shallow(Dict(fields), room)
  {
    FieldsByValue(fields, room - 1);
    SortAdmissible(ArrangeFields(fields), room - 1);
    DictIs(fields, room);
    DictIs(Sort(ArrangeFields(fields)), room);
  }

  lemma DictIs(fields: seq<Field>, room: int)
    ensures Admissible(Dict(fields)) == AllAdmissible(fields)
    ensures Shallow(Dict(fields), room) == (room >= 0 && AllShallow(fields, room - 1))
  {
  }

  // ---- What a request may hold ----

  lemma CanonicalIs(v: Value)
    ensures Canonical(v).Some? <==> Walk(Arrange(v), 0, 0).Some? && Utf8(Print(v)) <= MAX_BYTES
  {
    assert [] + Render(Arrange(v)) == Print(v);
  }

  lemma RootExact(v: Value, a: Value)
    requires Nodes(a) == Nodes(v) && Admissible(a) == Admissible(v) && Shallow(a, MAX_DEPTH) == Shallow(v, MAX_DEPTH)
    ensures Walk(a, 0, 0).Some? <==> Admissible(v) && Shallow(v, MAX_DEPTH) && NodesFit(Nodes(v), EndsFlat(a))
  {
    WalkExact(a, 0, 0);
  }

  lemma TraversalExact(v: Value)
    ensures Walk(Arrange(v), 0, 0).Some?
       <==> Admissible(v) && Shallow(v, MAX_DEPTH) && NodesFit(Nodes(v), EndsFlat(Arrange(v)))
  {
    ArrangeNodes(v);
    ArrangeAdmissible(v, MAX_DEPTH);
    RootExact(v, Arrange(v));
  }

  /** Every limit taken at its word. */
  predicate WithinLimits(v: Value) {
    Admissible(v) && Shallow(v, MAX_DEPTH) && Nodes(v) <= MAX_NODES && Utf8(Print(v)) <= MAX_BYTES
  }

  lemma EnvelopeOrder(title: Text, kind: Text, input: Value)
    ensures Arrange(Envelope(title, kind, input))
         == Dict([Field(Units("input"), Arrange(input)), Field(Units("kind"), String(kind)),
                  Field(Units("title"), String(title))])
  {
    var t, k, i := Units("title"), Units("kind"), Units("input");
    assert t[0] == 116 && k[0] == 107 && i[0] == 105;
    var a, b, c := Field(t, String(title)), Field(k, String(kind)), Field(i, Arrange(input));
    assert ArrangeFields(Envelope(title, kind, input).fields) == [a, b, c];
    SortThree(a, b, c);
  }

  lemma SortThree(a: Field, b: Field, c: Field)
    requires !Less(a.key, b.key) && !Less(a.key, c.key) && !Less(b.key, c.key)
    ensures Sort([a, b, c]) == [c, b, a]
  {
    assert [b, c][1..] == [c] && [a, b, c][1..] == [b, c] && [c, b][1..] == [b];
    assert Sort([c]) == [c];
    assert Insert(b, [c]) == [c] + Insert(b, []) == [c, b];
    assert Insert(a, [b]) == [b] + Insert(a, []) == [b, a];
    assert Insert(a, [c, b]) == [c] + Insert(a, [b]) == [c, b, a];
  }

  /** A request's title is always visited last, so the room asked for an array's `length` is always there. */
  lemma EnvelopeExact(title: Text, kind: Text, input: Value)
    ensures Canonical(Envelope(title, kind, input)).Some? <==> WithinLimits(Envelope(title, kind, input))
  {
    var e := Envelope(title, kind, input);
    EnvelopeOrder(title, kind, input);
    assert !EndsFlat(Arrange(e));
    CanonicalIs(e);
    TraversalExact(e);
  }

  lemma EnvelopeNodes(title: Text, kind: Text, input: Value)
    ensures Nodes(Envelope(title, kind, input)) == 3 + Nodes(input)
  {
    var fields := Envelope(title, kind, input).fields;
    assert fields[1..][0] == fields[1] && fields[1..][1..] == [fields[2]] && [fields[2]][1..] == [];
    assert NodesIn([fields[2]]) == Nodes(input);
    assert NodesIn(fields[1..]) == 1 + Nodes(input);
    assert NodesIn(fields) == 2 + Nodes(input);
  }

  /** What the limits leave to the input: three nodes and one level belong to the envelope. */
  lemma EnvelopeLimits(title: Text, kind: Text, input: Value)
    requires !input.Undefined?
    ensures var e := Envelope(title, kind, input);
            WithinLimits(e) <==>
              && Admissible(input) && Shallow(input, MAX_DEPTH - 1) && Nodes(input) <= MAX_NODES - 3
              && Utf8(Print(e)) <= MAX_BYTES
  {
    var fields := Envelope(title, kind, input).fields;
    EnvelopeNodes(title, kind, input);
    DictIs(fields, MAX_DEPTH);
    assert AdmissibleField(fields[0]) && AdmissibleField(fields[1]) && AdmissibleField(fields[2]) == Admissible(input);
    assert AllAdmissible(fields) == Admissible(input);
    assert ShallowField(fields[0], MAX_DEPTH - 1) && ShallowField(fields[1], MAX_DEPTH - 1);
    assert AllShallow(fields, MAX_DEPTH - 1) == ShallowField(fields[2], MAX_DEPTH - 1) == Shallow(input, MAX_DEPTH - 1);
  }

  /** A request that can be put before the user. */
  predicate Reviewed(r: Request) {
    && r.plain && r.toolCallId.String? && |r.toolCallId.text| <= MAX_BYTES
    && r.title.String? && r.kind.String? && IsKind(r.kind.text) && !r.scope.Accessor?
    && !r.input.Undefined? && Admissible(r.input) && Shallow(r.input, MAX_DEPTH - 1) && Nodes(r.input) <= MAX_NODES - 3
    && Utf8(Print(Envelope(r.title.text, r.kind.text, r.input))) <= MAX_BYTES
  }

  /**
   * `permissionIdentity` gives an identity to exactly the requests of plain data with a known kind whose input is
   * within the limits, and an exact one to exactly those of them that normalization leaves as they are.
   */
  lemma IdentityExact(r: Request, digest: Text -> Text)
    ensures PermissionIdentity(r, digest).Some? <==> Reviewed(r)
    ensures var id := PermissionIdentity(r, digest);
            id.Some? ==>
              && r.toolCallId == String(id.value.toolCallId) && r.title == String(id.value.title)
              && r.kind == String(id.value.kind) && r.scope == id.value.scope
              && (id.value.exactId.Some? <==> !Loss(r.input))
  {
    if r.title.String? && r.kind.String? {
      EnvelopeExact(r.title.text, r.kind.text, r.input);
      if !r.input.Undefined? {
        EnvelopeLimits(r.title.text, r.kind.text, r.input);
        EnvelopeLoss(r.title.text, r.kind.text, r.input);
      }
    }
  }

  lemma EnvelopeLoss(title: Text, kind: Text, input: Value)
    requires !input.Undefined?
    ensures Loss(Envelope(title, kind, input)) == Loss(input)
  {
    var fields := Envelope(title, kind, input).fields;
    assert fields[2].value == input;
  }

  /** A scope is found for exactly the reviewed requests that carry valid metadata or lose nothing to normalization. */
  lemma ScopeExact(r: Request, digest: Text -> Text, schema: Schema)
    ensures ScopeFor(r, digest, schema).Some? <==> Reviewed(r) && (Explicit(r.scope, schema) || !Loss(r.input))
  {
    IdentityExact(r, digest);
  }
}
