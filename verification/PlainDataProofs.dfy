/** The walk against a definition without stacks: every path through the unfolding is short and ends in plain data. */
module PlainDataProofs {
  import opened Wrappers
  import opened PlainData

  type Path = seq<nat>

  /** The value a path of property numbers leads to. */
  function Follow(heap: Heap, v: Value, path: Path): Option<Value>
    decreases |path|
  {
    if path == [] then Some(v)
    else if !v.Ref? then None
    else
      var properties := heap(v.id).properties;
      if path[0] < |properties| && properties[path[0]].Data? then Follow(heap, properties[path[0]].value, path[1..])
      else None
  }

  predicate PlainHere(heap: Heap, v: Value) {
    !v.Forbidden? && (v.Ref? ==> heap(v.id).plain && AllData(heap(v.id).properties))
  }

  predicate PathOk(heap: Heap, v: Value, path: Path) {
    Follow(heap, v, path).Some? ==> |path| <= MAX_DEPTH && PlainHere(heap, Follow(heap, v, path).value)
  }

  /** Nothing on any path is other than plain data, and no path is longer than the depth limit, so none is cyclic. */
  ghost predicate PlainTree(heap: Heap, v: Value) {
    forall path :: PathOk(heap, v, path)
  }

  lemma {:induction false} FollowJoins(heap: Heap, v: Value, a: Path, b: Path)
    requires Follow(heap, v, a).Some?
    ensures Follow(heap, v, a + b) == Follow(heap, Follow(heap, v, a).value, b)
    decreases |a|
  {
    if a == [] {
      assert a + b == b;
    } else {
      assert (a + b)[1..] == a[1..] + b;
      FollowJoins(heap, heap(v.id).properties[a[0]].value, a[1..], b);
    }
  }

  function Repeat(cycle: Path, times: nat): Path {
    if times == 0 then [] else cycle + Repeat(cycle, times - 1)
  }

  /** A cycle can be gone round any number of times. */
  lemma {:induction false} Pump(heap: Heap, v: Value, cycle: Path, times: nat)
    requires cycle != [] && Follow(heap, v, cycle) == Some(v)
    ensures Follow(heap, v, Repeat(cycle, times)) == Some(v) && |Repeat(cycle, times)| >= times
  {
    if times > 0 {
      Pump(heap, v, cycle, times - 1);
      FollowJoins(heap, v, cycle, Repeat(cycle, times - 1));
    }
  }

  lemma NoCycle(heap: Heap, root: Value, path: Path, cycle: Path)
    requires cycle != [] && Follow(heap, root, path).Some?
    requires Follow(heap, Follow(heap, root, path).value, cycle) == Follow(heap, root, path)
    ensures !PlainTree(heap, root)
  {
    var v := Follow(heap, root, path).value;
    Pump(heap, v, cycle, MAX_DEPTH + 1);
    FollowJoins(heap, root, path, Repeat(cycle, MAX_DEPTH + 1));
    assert !PathOk(heap, root, path + Repeat(cycle, MAX_DEPTH + 1));
  }

  /** The ancestors are the objects the path to here goes through. */
  ghost predicate Through(heap: Heap, root: Value, path: Path, ancestors: set<Id>) {
    forall id :: id in ancestors ==> exists k :: 0 <= k < |path| && Follow(heap, root, path[..k]) == Some(Ref(id))
  }

  lemma NotAncestor(heap: Heap, root: Value, path: Path, ancestors: set<Id>, id: Id)
    requires PlainTree(heap, root) && Through(heap, root, path, ancestors) && Follow(heap, root, path) == Some(Ref(id))
    ensures id !in ancestors
  {
    if id in ancestors {
      var k :| 0 <= k < |path| && Follow(heap, root, path[..k]) == Some(Ref(id));
      assert path == path[..k] + path[k..];
      FollowJoins(heap, root, path[..k], path[k..]);
      NoCycle(heap, root, path[..k], path[k..]);
    }
  }

  lemma FollowOne(heap: Heap, root: Value, path: Path, id: Id, i: nat)
    requires Follow(heap, root, path) == Some(Ref(id)) && i < |heap(id).properties| && heap(id).properties[i].Data?
    ensures Follow(heap, root, path + [i]) == Some(heap(id).properties[i].value)
  {
    FollowJoins(heap, root, path, [i]);
    assert [i][1..] == [];
  }

  lemma ThroughGrows(heap: Heap, root: Value, path: Path, ancestors: set<Id>, id: Id, i: nat)
    requires Through(heap, root, path, ancestors) && Follow(heap, root, path) == Some(Ref(id))
    ensures Through(heap, root, path + [i], ancestors + {id})
  {
    var longer := path + [i];
    forall other | other in ancestors + {id}
      ensures exists k :: 0 <= k < |longer| && Follow(heap, root, longer[..k]) == Some(Ref(other))
    {
      if other == id {
        assert longer[..|path|] == path;
      } else {
        var k :| 0 <= k < |path| && Follow(heap, root, path[..k]) == Some(Ref(other));
        assert longer[..k] == path[..k];
      }
    }
  }

  lemma {:induction false} TreeCosts(heap: Heap, root: Value, path: Path, ancestors: set<Id>)
    requires PlainTree(heap, root) && Follow(heap, root, path).Some? && Through(heap, root, path, ancestors)
    ensures Cost(heap, Follow(heap, root, path).value, |path|, ancestors).Some?
    decreases MAX_DEPTH + 1 - |path|, 1, 0
  {
    var v := Follow(heap, root, path).value;
    assert PathOk(heap, root, path);
    if v.Ref? {
      NotAncestor(heap, root, path, ancestors, v.id);
      ChildrenCost(heap, root, path, ancestors, heap(v.id).properties);
    }
  }

  lemma {:induction false} ChildrenCost(
    heap: Heap, root: Value, path: Path, ancestors: set<Id>, properties: seq<Property>)
    requires PlainTree(heap, root) && Through(heap, root, path, ancestors) && |path| <= MAX_DEPTH
    requires Follow(heap, root, path).Some? && Follow(heap, root, path).value.Ref?
    requires var id := Follow(heap, root, path).value.id; properties <= heap(id).properties && AllData(properties)
    ensures CostAll(heap, properties, |path| + 1, ancestors + {Follow(heap, root, path).value.id}).Some?
    decreases MAX_DEPTH + 1 - |path|, 0, |properties|
  {
    if properties != [] {
      var id := Follow(heap, root, path).value.id;
      var n := |properties| - 1;
      ChildrenCost(heap, root, path, ancestors, properties[..n]);
      FollowOne(heap, root, path, id, n);
      ThroughGrows(heap, root, path, ancestors, id, n);
      TreeCosts(heap, root, path + [n], ancestors + {id});
    }
  }

  lemma {:induction false} CostAllEach(heap: Heap, properties: seq<Property>, depth: nat, ancestors: set<Id>, i: nat)
    requires CostAll(heap, properties, depth, ancestors).Some? && i < |properties|
    ensures properties[i].Data? && Cost(heap, properties[i].value, depth, ancestors).Some?
    decreases |properties|
  {
    var n := |properties| - 1;
    if i < n {
      CostAllEach(heap, properties[..n], depth, ancestors, i);
    }
  }

  lemma {:induction false} CostsPlain(heap: Heap, v: Value, depth: nat, ancestors: set<Id>, path: Path)
    requires Cost(heap, v, depth, ancestors).Some? && Follow(heap, v, path).Some?
    ensures depth + |path| <= MAX_DEPTH && PlainHere(heap, Follow(heap, v, path).value)
    decreases |path|
  {
    if path == [] {
      if v.Ref? {
        forall i | 0 <= i < |heap(v.id).properties| ensures heap(v.id).properties[i].Data? {
          CostAllEach(heap, heap(v.id).properties, depth + 1, ancestors + {v.id}, i);
        }
      }
    } else {
      CostAllEach(heap, heap(v.id).properties, depth + 1, ancestors + {v.id}, path[0]);
      CostsPlain(heap, heap(v.id).properties[path[0]].value, depth + 1, ancestors + {v.id}, path[1..]);
    }
  }

  /** The walk refuses nothing but what some path through the unfolding shows to be unfit, shared objects included. */
  lemma WalkExact(heap: Heap, input: Value)
    ensures Cost(heap, input, 0, {}).Some? <==> PlainTree(heap, input)
  {
    if PlainTree(heap, input) {
      assert Through(heap, input, [], {});
      TreeCosts(heap, input, [], {});
    }
    if Cost(heap, input, 0, {}).Some? {
      forall path ensures PathOk(heap, input, path) {
        if Follow(heap, input, path).Some? {
          CostsPlain(heap, input, 0, {}, path);
        }
      }
    }
  }
}
