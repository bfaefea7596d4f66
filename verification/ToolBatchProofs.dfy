/** What the repair promises, held against the transcript rules. */
module ToolBatchProofs {
  import opened Wrappers
  import opened ToolBatches

  lemma DeleteKeeps(p: Pending, id: string)
    requires DistinctIds(p)
    ensures DistinctIds(Delete(p, id))
    ensures forall c :: c in Delete(p, id) <==> c in p && c.id != id
  {
    var found := Find(p, id);
    if found.Some? {
      var k := found.value;
      var q := Delete(p, id);
      assert forall i :: 0 <= i < k ==> q[i] == p[i];
      assert forall i :: k <= i < |q| ==> q[i] == p[i + 1];
      forall c | c in p && c.id != id ensures c in q {
        var i :| 0 <= i < |p| && p[i] == c;
        assert i < k ==> q[i] == c;
        assert i > k ==> q[i - 1] == c;
      }
    }
  }

  /** When ids are distinct, the ordered map just lists the calls. */
  lemma {:induction false} SetAllLists(p: Pending, content: seq<Block>)
    requires DistinctIds(p + Calls(content))
    ensures SetAll(p, content) == p + Calls(content)
    decreases |content|
  {
    if content == [] {
      assert p + [] == p;
    } else if content[0].ToolCall? {
      var call := content[0].call;
      var all := p + Calls(content);
      assert all == p + [call] + Calls(content[1..]);
      forall k | 0 <= k < |p| ensures p[k].id != call.id {
        assert all[k].id != all[|p|].id;
      }
      SetAllLists(p + [call], content[1..]);
    } else {
      assert Calls(content) == Calls(content[1..]);
      SetAllLists(p, content[1..]);
    }
  }

  lemma OpensCalls(m: Message)
    requires DistinctIds(CallsOf(m))
    ensures (if m.Assistant? then SetAll([], m.content) else []) == CallsOf(m)
  {
    if m.Assistant? {
      assert [] + Calls(m.content) == Calls(m.content);
      SetAllLists([], m.content);
    }
  }

  /** The notices settle whatever is still open. */
  lemma {:induction false} CloseSettles(open: Pending, notice: string, now: nat, rest: seq<Message>)
    requires DistinctIds(open)
    ensures Settled(Close(open, notice, now) + rest, open) == Settled(rest, [])
  {
    if open == [] {
      assert Close(open, notice, now) + rest == rest;
    } else {
      var call := open[0];
      var tail := Close(open[1..], notice, now) + rest;
      CloseFirst(open, notice, now, rest);
      assert Delete(open, call.id) == open[1..];
      NextResult(Interrupted(call, notice, now), tail, open);
      CloseSettles(open[1..], notice, now, rest);
    }
  }

  lemma CloseFirst(open: Pending, notice: string, now: nat, rest: seq<Message>)
    requires open != []
    ensures Close(open, notice, now) + rest
         == [Interrupted(open[0], notice, now)] + (Close(open[1..], notice, now) + rest)
  {
  }

  lemma NextResult(m: Message, rest: seq<Message>, open: Pending)
    requires m.ToolResult?
    ensures Settled([m] + rest, open)
       <==> Name(open, m.toolCallId) == Some(m.toolName) && Settled(rest, Delete(open, m.toolCallId))
  {
    var all := [m] + rest;
    assert all[0] == m && all[1..] == rest;
  }

  lemma ScrubKeeps(m: Message)
    ensures CallsOf(Scrub(m)) == CallsOf(m) && Scrub(m).ToolResult? == m.ToolResult? && Scrub(m).Custom? == m.Custom?
    ensures Scrub(Scrub(m)) == Scrub(m)
  {
  }

  /** One message of a repaired transcript, after the notices of the batch before it. */
  lemma NextBatch(m: Message, rest: seq<Message>, open: Pending, notice: string, now: nat)
    requires DistinctIds(open) && !m.ToolResult?
    ensures Settled(Close(open, notice, now) + [Scrub(m)] + rest, open)
       <==> !m.Custom? && DistinctIds(CallsOf(m)) && Settled(rest, CallsOf(m))
  {
    var tail := [Scrub(m)] + rest;
    CloseSettles(open, notice, now, tail);
    assert Close(open, notice, now) + [Scrub(m)] + rest == Close(open, notice, now) + tail;
    ScrubKeeps(m);
    assert tail[0] == Scrub(m) && tail[1..] == rest;
  }

  /** The repaired transcript keeps the rules exactly when every result of the original answered an open call. */
  lemma {:induction false} RepairSettles(messages: seq<Message>, open: Pending, notice: string, now: nat)
    requires DistinctIds(open)
    ensures Settled(Repair(messages, open, notice, now), open) <==> Matched(messages, open)
    decreases |messages|
  {
    if messages == [] {
      CloseSettles(open, notice, now, []);
      assert Close(open, notice, now) + [] == Repair(messages, open, notice, now);
    } else {
      var m := messages[0];
      if m.ToolResult? {
        var next := Delete(open, m.toolCallId);
        DeleteKeeps(open, m.toolCallId);
        RepairSettles(messages[1..], next, notice, now);
        NextResult(m, Repair(messages[1..], next, notice, now), open);
      } else {
        var next := if m.Assistant? then SetAll([], m.content) else [];
        NextBatch(m, Repair(messages[1..], next, notice, now), open, notice, now);
        if DistinctIds(CallsOf(m)) {
          OpensCalls(m);
          RepairSettles(messages[1..], next, notice, now);
        }
      }
    }
  }

  /** Users and results are as they were; an assistant keeps what it said and when, and nothing of its diagnostics. */
  predicate Kept(m: Message, c: Message) {
    if m.Assistant? then c == Assistant(m.content, m.timestamp, None, None, None) else c == m
  }

  /** Every original message is there, in order, scrubbed; all that was added are interruption notices. */
  predicate Interleaves(messages: seq<Message>, out: seq<Message>, notice: string, now: nat) {
    if out == [] then messages == []
    else
      || (messages != [] && Kept(messages[0], out[0]) && Interleaves(messages[1..], out[1..], notice, now))
      || (Notice(out[0], notice, now) && Interleaves(messages, out[1..], notice, now))
  }

  predicate Notice(m: Message, notice: string, now: nat) {
    m.ToolResult? && m.text == notice && m.isError && m.timestamp == now
  }

  lemma {:induction false} CloseInterleaves(
    open: Pending, messages: seq<Message>, rest: seq<Message>, notice: string, now: nat)
    requires Interleaves(messages, rest, notice, now)
    ensures Interleaves(messages, Close(open, notice, now) + rest, notice, now)
  {
    if open == [] {
      assert Close(open, notice, now) + rest == rest;
    } else {
      CloseInterleaves(open[1..], messages, rest, notice, now);
      var all := Close(open, notice, now) + rest;
      assert all[1..] == Close(open[1..], notice, now) + rest;
      assert Notice(all[0], notice, now);
    }
  }

  lemma {:induction false} RepairKeepsAll(messages: seq<Message>, open: Pending, notice: string, now: nat)
    ensures Interleaves(messages, Repair(messages, open, notice, now), notice, now)
    decreases |messages|
  {
    if messages == [] {
      CloseInterleaves(open, [], [], notice, now);
      assert Close(open, notice, now) + [] == Repair(messages, open, notice, now);
    } else {
      var m := messages[0];
      var next := if m.ToolResult? then Delete(open, m.toolCallId)
                  else if m.Assistant? then SetAll([], m.content) else [];
      var rest := Repair(messages[1..], next, notice, now);
      RepairKeepsAll(messages[1..], next, notice, now);
      var kept := [Scrub(m)] + rest;
      assert kept[1..] == rest;
      assert Interleaves(messages, kept, notice, now);
      RepairFirst(messages, open, notice, now);
      if m.ToolResult? {
        assert [] + [Scrub(m)] + rest == kept;
      } else {
        CloseInterleaves(open, messages, kept, notice, now);
        Regroup(Close(open, notice, now), [Scrub(m)], rest);
      }
    }
  }

  /** A transcript that keeps the rules is only scrubbed. */
  lemma {:induction false} RepairsNothing(messages: seq<Message>, open: Pending, notice: string, now: nat)
    requires Settled(messages, open)
    ensures Repair(messages, open, notice, now) == Scrubbed(messages)
    decreases |messages|
  {
    if messages != [] {
      var m := messages[0];
      if m.ToolResult? {
        RepairsNothing(messages[1..], Delete(open, m.toolCallId), notice, now);
      } else {
        OpensCalls(m);
        RepairsNothing(messages[1..], CallsOf(m), notice, now);
      }
    }
  }

  lemma {:induction false} ScrubbedSettled(messages: seq<Message>, open: Pending)
    ensures Settled(Scrubbed(messages), open) == Settled(messages, open)
    ensures Scrubbed(Scrubbed(messages)) == Scrubbed(messages)
    decreases |messages|
  {
    if messages != [] {
      var m := messages[0];
      ScrubKeeps(m);
      assert Scrubbed(messages)[1..] == Scrubbed(messages[1..]);
      ScrubbedSettled(messages[1..], if m.ToolResult? then Delete(open, m.toolCallId) else CallsOf(m));
    }
  }

  lemma ScrubbedOne(m: Message)
    ensures Scrubbed([Scrub(m)]) == [Scrub(m)]
  {
    assert [Scrub(m)][1..] == [];
  }

  lemma {:induction false} RepairIsScrubbed(messages: seq<Message>, open: Pending, notice: string, now: nat)
    ensures Scrubbed(Repair(messages, open, notice, now)) == Repair(messages, open, notice, now)
    decreases |messages|
  {
    CloseIsScrubbed(open, notice, now);
    if messages != [] {
      var m := messages[0];
      var next := if m.ToolResult? then Delete(open, m.toolCallId)
                  else if m.Assistant? then SetAll([], m.content) else [];
      var closed, rest := Close(open, notice, now), Repair(messages[1..], next, notice, now);
      RepairIsScrubbed(messages[1..], next, notice, now);
      ScrubbedOne(m);
      if m.ToolResult? {
        ScrubbedJoins([m], rest);
      } else {
        ScrubbedJoins(closed, [Scrub(m)]);
        ScrubbedJoins(closed + [Scrub(m)], rest);
      }
    }
  }

  lemma {:induction false} CloseIsScrubbed(open: Pending, notice: string, now: nat)
    ensures Scrubbed(Close(open, notice, now)) == Close(open, notice, now)
  {
    if open != [] {
      CloseIsScrubbed(open[1..], notice, now);
      assert Close(open, notice, now)[1..] == Close(open[1..], notice, now);
    }
  }

  lemma ScrubbedFirst(m: Message, rest: seq<Message>)
    ensures Scrubbed([m] + rest) == [Scrub(m)] + Scrubbed(rest)
  {
    assert ([m] + rest)[1..] == rest;
  }

  lemma {:induction false} ScrubbedJoins(a: seq<Message>, b: seq<Message>)
    ensures Scrubbed(a + b) == Scrubbed(a) + Scrubbed(b)
  {
    if a == [] {
      assert a + b == b;
    } else {
      ScrubbedJoins(a[1..], b);
      assert a + b == [a[0]] + (a[1..] + b);
      ScrubbedFirst(a[0], a[1..] + b);
      Regroup([Scrub(a[0])], Scrubbed(a[1..]), Scrubbed(b));
    }
  }

  /** Repairing a second time, at any later moment, changes nothing. */
  lemma RepairIdempotent(messages: seq<Message>, notice: string, now: nat, later: nat)
    requires Matched(messages, [])
    ensures Repair(Repair(messages, [], notice, now), [], notice, later) == Repair(messages, [], notice, now)
  {
    RepairSettles(messages, [], notice, now);
    RepairsNothing(Repair(messages, [], notice, now), [], notice, later);
    RepairIsScrubbed(messages, [], notice, now);
  }

  // ---- One result per call ----

  /** The calls answered by the run of tool results a transcript starts with. */
  function Answered(messages: seq<Message>): seq<Call> {
    if messages == [] || !messages[0].ToolResult? then []
    else [Call(messages[0].toolCallId, messages[0].toolName)] + Answered(messages[1..])
  }

  lemma DeleteOne(open: Pending, id: string, name: string)
    requires Name(open, id) == Some(name)
    ensures multiset(open) == multiset{Call(id, name)} + multiset(Delete(open, id))
  {
    var k := Find(open, id).value;
    assert open == open[..k] + [open[k]] + open[k + 1..];
    assert open[k] == Call(id, name);
  }

  /** A settled transcript answers exactly the open calls, each once, before anything else happens. */
  lemma {:induction false} AnsweredExactly(messages: seq<Message>, open: Pending)
    requires Settled(messages, open)
    ensures multiset(Answered(messages)) == multiset(open)
    decreases |messages|
  {
    if messages != [] && messages[0].ToolResult? {
      var m := messages[0];
      var call := Call(m.toolCallId, m.toolName);
      DeleteOne(open, m.toolCallId, m.toolName);
      AnsweredExactly(messages[1..], Delete(open, m.toolCallId));
      assert Answered(messages) == [call] + Answered(messages[1..]);
      assert multiset([call] + Answered(messages[1..])) == multiset{call} + multiset(Answered(messages[1..]));
    }
  }

  /** Each batch of a settled transcript: the results that follow a message are its calls in some order. */
  lemma {:induction false} BatchAnswered(messages: seq<Message>, open: Pending, k: nat)
    requires Settled(messages, open) && k < |messages| && !messages[k].ToolResult?
    ensures multiset(Answered(messages[k + 1..])) == multiset(CallsOf(messages[k])) && DistinctIds(CallsOf(messages[k]))
    decreases |messages|
  {
    var m := messages[0];
    if k == 0 {
      AnsweredExactly(messages[1..], CallsOf(m));
    } else {
      BatchAnswered(messages[1..], if m.ToolResult? then Delete(open, m.toolCallId) else CallsOf(m), k - 1);
      assert messages[1..][k..] == messages[k + 1..];
    }
  }
}
