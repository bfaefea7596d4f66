/** The explicit-stack walk that admits only acyclic plain data, with its limits. */
module PlainData {
  import opened Wrappers

  type Id = nat

  /** `Forbidden` is a function, symbol or big integer. */
  datatype Value = Primitive | Forbidden | Ref(id: Id)

  datatype Property = Data(value: Value) | Accessor

  /** An object's string-keyed own properties; an array's `length` is one of them. */
  datatype Node = Node(plain: bool, properties: seq<Property>)

  /** Objects may be shared and may refer to each other in cycles. */
  type Heap = Id -> Node

  const MAX_DEPTH := 100
  const MAX_NODES := 1000000

  function Plus(a: Option<nat>, b: Option<nat>): Option<nat> {
    if a.Some? && b.Some? then Some(a.value + b.value) else None
  }

  /** Visits the unfolding of `v` takes, objects counted on entry and exit; nothing if it is refused. */
  function Cost(heap: Heap, v: Value, depth: nat, ancestors: set<Id>): Option<nat>
    decreases MAX_DEPTH + 1 - depth, 0, 1
  {
    if depth > MAX_DEPTH || v.Forbidden? then None
    else if v.Primitive? then Some(1)
    else if v.id in ancestors || !heap(v.id).plain then None
    else Plus(Some(2), CostAll(heap, heap(v.id).properties, depth + 1, ancestors + {v.id}))
  }

  function CostAll(heap: Heap, properties: seq<Property>, depth: nat, ancestors: set<Id>): Option<nat>
    decreases MAX_DEPTH + 1 - depth, 1, |properties|
  {
    if properties == [] then Some(0)
    else
      var n := |properties| - 1;
      if properties[n].Accessor? then None
      else Plus(Cost(heap, properties[n].value, depth, ancestors), CostAll(heap, properties[..n], depth, ancestors))
  }

  predicate Accepts(heap: Heap, input: Value) {
    var cost := Cost(heap, input, 0, {});
    cost.Some? && cost.value <= MAX_NODES
  }

  // ---- The walk ----

  datatype Entry = Entry(value: Value, depth: nat, exit: bool)

  predicate StackOk(stack: seq<Entry>) {
    forall k :: 0 <= k < |stack| && stack[k].exit ==> stack[k].value.Ref? && stack[k].depth <= MAX_DEPTH
  }

  /** The objects whose exit marker is on the stack. */
  function Marked(stack: seq<Entry>): set<Id>
    requires StackOk(stack)
  {
    set k | 0 <= k < |stack| && stack[k].exit :: stack[k].value.id
  }

  predicate MarkedOnce(stack: seq<Entry>)
    requires StackOk(stack)
  {
    forall j, k :: 0 <= j < k < |stack| && stack[j].exit && stack[k].exit ==> stack[j].value != stack[k].value
  }

  /** What is still to be visited. */
  function Rest(heap: Heap, stack: seq<Entry>, ancestors: set<Id>): Option<nat>
    requires StackOk(stack)
  {
    if stack == [] then Some(0)
    else
      var n := |stack| - 1;
      if stack[n].exit then Plus(Some(1), Rest(heap, stack[..n], ancestors - {stack[n].value.id}))
      else Plus(Cost(heap, stack[n].value, stack[n].depth, ancestors), Rest(heap, stack[..n], ancestors))
  }

  /** The ancestor set is exactly the set of objects with an exit marker on the stack. */
  predicate Ready(stack: seq<Entry>, ancestors: set<Id>) {
    StackOk(stack) && MarkedOnce(stack) && ancestors == Marked(stack)
  }

  method AssertPlainData(heap: Heap, input: Value) returns (ok: bool)
    ensures ok <==> Accepts(heap, input)
  {
    var ancestors: set<Id> := {};
    var pending := [Entry(input, 0, false)];
    var nodes := 0;
    ghost var total := FirstEntry(heap, pending[0]);
    ok := true;
    while ok && |pending| > 0
      invariant ok ==> Ready(pending, ancestors) && nodes <= MAX_NODES
      invariant ok ==> Plus(Some(nodes), Rest(heap, pending, ancestors)) == total
      invariant !ok ==> total.None? || total.value > MAX_NODES
      decreases ok, MAX_NODES - nodes
    {
      ok, pending, ancestors := Visit(heap, pending, ancestors, nodes + 1, total);
      nodes := nodes + 1;
    }
  }

  /** All there is to visit before anything is visited. */
  lemma FirstEntry(heap: Heap, entry: Entry) returns (total: Option<nat>)
    requires !entry.exit
    ensures total == Cost(heap, entry.value, entry.depth, {})
    ensures Ready([entry], {}) && Plus(Some(0), Rest(heap, [entry], {})) == total
  {
    total := Cost(heap, entry.value, entry.depth, {});
    RestTop(heap, [], entry, {});
    assert [] + [entry] == [entry];
  }

  /** One turn of the loop; `nodes` counts this visit. A thrown error is `ok` being false. */
  method Visit(heap: Heap, stack: seq<Entry>, above: set<Id>, nodes: nat, ghost total: Option<nat>)
    returns (ok: bool, pending: seq<Entry>, ancestors: set<Id>)
    requires Ready(stack, above) && stack != [] && 0 < nodes
    requires Plus(Some(nodes - 1), Rest(heap, stack, above)) == total
    ensures !ok ==> total.None? || total.value > MAX_NODES
    ensures ok ==> Ready(pending, ancestors) && nodes <= MAX_NODES
    ensures ok ==> Plus(Some(nodes), Rest(heap, pending, ancestors)) == total
  {
    var entry := stack[|stack| - 1];
    Popped(stack);
    TopCost(heap, stack, above, nodes - 1, total);
    pending, ancestors := stack[..|stack| - 1], above;
    if entry.depth > MAX_DEPTH || nodes > MAX_NODES {
      return false, pending, ancestors;
    }
    if entry.value.Ref? && entry.exit {
      ancestors := ancestors - {entry.value.id};
      return true, pending, ancestors;
    }
    if !entry.value.Ref? {
      return !entry.value.Forbidden?, pending, ancestors;
    }
    if entry.value.id in ancestors || !heap(entry.value.id).plain {
      return false, pending, ancestors;
    }
    ok, pending, ancestors := Enter(heap, pending, ancestors, entry);
  }

  /** An object is marked, then its properties are pushed above the marker. */
  method Enter(heap: Heap, stack: seq<Entry>, above: set<Id>, entry: Entry)
    returns (ok: bool, pending: seq<Entry>, ancestors: set<Id>)
    requires Ready(stack, above) && entry.value.Ref? && entry.depth <= MAX_DEPTH && entry.value.id !in above
    ensures !ok ==> CostAll(heap, heap(entry.value.id).properties, entry.depth + 1, above + {entry.value.id}).None?
    ensures ok ==> Ready(pending, ancestors)
                   && Rest(heap, pending, ancestors)
                      == Plus(CostAll(heap, heap(entry.value.id).properties, entry.depth + 1, above + {entry.value.id}),
                              Plus(Some(1), Rest(heap, stack, above)))
  {
    var properties := heap(entry.value.id).properties;
    var marker := Entry(entry.value, entry.depth, true);
    ancestors := above + {entry.value.id};
    ok, pending := PushAll(stack + [marker], properties, entry.depth + 1);
    if ok {
      Pushed(stack, marker, properties, entry.depth + 1);
      RestTop(heap, stack, marker, ancestors);
      assert ancestors - {entry.value.id} == above;
      RestJoins(heap, stack + [marker], properties, entry.depth + 1, ancestors);
    } else {
      AccessorRefused(heap, properties, entry.depth + 1, ancestors);
    }
  }

  lemma PlusAssociates(a: Option<nat>, b: Option<nat>, c: Option<nat>)
    ensures Plus(a, Plus(b, c)) == Plus(Plus(a, b), c)
  {
  }

  /** How the entry on top accounts for what is still to be visited. */
  lemma TopCost(heap: Heap, stack: seq<Entry>, ancestors: set<Id>, nodes: nat, total: Option<nat>)
    requires StackOk(stack) && stack != [] && Plus(Some(nodes), Rest(heap, stack, ancestors)) == total
    ensures total.Some? ==> total.value >= nodes + 1
    ensures var n := |stack| - 1;
            var e, front := stack[n], stack[..n];
            && StackOk(front)
            && (e.exit ==> Plus(Some(nodes + 1), Rest(heap, front, ancestors - {e.value.id})) == total)
            && (!e.exit && e.depth <= MAX_DEPTH && e.value.Primitive? ==>
                  Plus(Some(nodes + 1), Rest(heap, front, ancestors)) == total)
            && (!e.exit && (e.depth > MAX_DEPTH || Refused(heap, e.value, ancestors)) ==> total.None?)
            && (!e.exit && e.depth <= MAX_DEPTH && e.value.Ref? && !Refused(heap, e.value, ancestors) ==>
                  Plus(Some(nodes + 1),
                       Plus(CostAll(heap, heap(e.value.id).properties, e.depth + 1, ancestors + {e.value.id}),
                            Plus(Some(1), Rest(heap, front, ancestors)))) == total)
  {
  }

  predicate Refused(heap: Heap, v: Value, ancestors: set<Id>) {
    v.Forbidden? || (v.Ref? && (v.id in ancestors || !heap(v.id).plain))
  }

  lemma RestTop(heap: Heap, stack: seq<Entry>, top: Entry, ancestors: set<Id>)
    requires StackOk(stack) && (top.exit ==> top.value.Ref? && top.depth <= MAX_DEPTH)
    ensures StackOk(stack + [top])
    ensures Rest(heap, stack + [top], ancestors)
         == if top.exit then Plus(Some(1), Rest(heap, stack, ancestors - {top.value.id}))
            else Plus(Cost(heap, top.value, top.depth, ancestors), Rest(heap, stack, ancestors))
  {
    assert (stack + [top])[..|stack|] == stack;
  }

  predicate AllData(properties: seq<Property>) {
    forall k :: 0 <= k < |properties| ==> properties[k].Data?
  }

  function Entries(properties: seq<Property>, depth: nat): seq<Entry>
    requires AllData(properties)
  {
    seq(|properties|, k requires 0 <= k < |properties| => Entry(properties[k].value, depth, false))
  }

  method PushAll(stack: seq<Entry>, properties: seq<Property>, depth: nat) returns (ok: bool, pending: seq<Entry>)
    ensures ok <==> AllData(properties)
    ensures ok ==> pending == stack + Entries(properties, depth)
  {
    pending := stack;
    var p := 0;
    while p < |properties|
      invariant 0 <= p <= |properties| && AllData(properties[..p])
      invariant pending == stack + Entries(properties[..p], depth)
    {
      if properties[p].Accessor? {
        return false, pending;
      }
      pending := pending + [Entry(properties[p].value, depth, false)];
      assert properties[..p + 1] == properties[..p] + [properties[p]];
      p := p + 1;
    }
    assert properties[..p] == properties;
    return true, pending;
  }

  lemma Popped(stack: seq<Entry>)
    requires StackOk(stack) && MarkedOnce(stack) && stack != []
    ensures var n := |stack| - 1;
            && StackOk(stack[..n]) && MarkedOnce(stack[..n])
            && Marked(stack[..n]) == if stack[n].exit then Marked(stack) - {stack[n].value.id} else Marked(stack)
  {
    var n := |stack| - 1;
    var front := stack[..n];
    assert forall k :: 0 <= k < n ==> front[k] == stack[k];
    forall id | id in Marked(stack) && !(stack[n].exit && stack[n].value.id == id) ensures id in Marked(front) {
      var k :| 0 <= k < |stack| && stack[k].exit && stack[k].value.id == id;
      assert front[k].exit;
    }
    forall id | id in Marked(front) ensures id in Marked(stack) && !(stack[n].exit && stack[n].value.id == id) {
      var k :| 0 <= k < |front| && front[k].exit && front[k].value.id == id;
      assert stack[k].exit;
    }
  }

  lemma Pushed(below: seq<Entry>, marker: Entry, properties: seq<Property>, depth: nat)
    requires StackOk(below) && MarkedOnce(below) && AllData(properties)
    requires marker.exit && marker.value.Ref? && marker.depth <= MAX_DEPTH && marker.value.id !in Marked(below)
    ensures var all := below + [marker] + Entries(properties, depth);
            StackOk(all) && MarkedOnce(all) && Marked(all) == Marked(below) + {marker.value.id}
  {
    var all := below + [marker] + Entries(properties, depth);
    assert forall k :: 0 <= k < |all| && all[k].exit ==> k <= |below|;
    assert forall k :: 0 <= k < |below| ==> all[k] == below[k];
    assert all[|below|] == marker;
    forall id | id in Marked(below) ensures id in Marked(all) {
      var k :| 0 <= k < |below| && below[k].exit && below[k].value.id == id;
      assert all[k].exit;
    }
  }

  lemma {:induction false} AccessorRefused(heap: Heap, properties: seq<Property>, depth: nat, ancestors: set<Id>)
    requires !AllData(properties)
    ensures CostAll(heap, properties, depth, ancestors).None?
    decreases |properties|
  {
    var n := |properties| - 1;
    if properties[n].Data? {
      AccessorRefused(heap, properties[..n], depth, ancestors);
    }
  }

  /** Pushing an object's properties adds exactly their cost. */
  lemma {:induction false} RestJoins(
    heap: Heap, base: seq<Entry>, properties: seq<Property>, depth: nat, ancestors: set<Id>)
    requires StackOk(base) && AllData(properties)
    ensures StackOk(base + Entries(properties, depth))
    ensures Rest(heap, base + Entries(properties, depth), ancestors)
         == Plus(CostAll(heap, properties, depth, ancestors), Rest(heap, base, ancestors))
    decreases |properties|
  {
    if properties == [] {
      assert base + Entries([], depth) == base;
    } else {
      var n := |properties| - 1;
      var front := properties[..n];
      var top := Entry(properties[n].value, depth, false);
      RestJoins(heap, base, front, depth, ancestors);
      EntriesLast(base, properties, depth);
      RestTop(heap, base + Entries(front, depth), top, ancestors);
      PlusAssociates(Cost(heap, top.value, depth, ancestors), CostAll(heap, front, depth, ancestors),
                     Rest(heap, base, ancestors));
    }
  }

  lemma EntriesLast(base: seq<Entry>, properties: seq<Property>, depth: nat)
    requires properties != [] && AllData(properties)
    ensures var n := |properties| - 1;
            base + Entries(properties, depth)
            == base + Entries(properties[..n], depth) + [Entry(properties[n].value, depth, false)]
  {
  }
}
