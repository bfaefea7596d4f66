/** Closing interrupted tool batches, and the transcript rules a checkpoint is held to. */
module ToolBatches {
  import opened Wrappers

  datatype Call = Call(id: string, name: string)

  datatype Block = Prose(prose: string) | ToolCall(call: Call)

  datatype Message =
    | User(text: string, timestamp: nat)
    | Assistant(
        content: seq<Block>, timestamp: nat,
        errorMessage: Option<string>, diagnostics: Option<string>, rawStopReason: Option<string>)
    | ToolResult(toolCallId: string, toolName: string, text: string, isError: bool, timestamp: nat)
    | Custom(role: string)

  /** Insertion-ordered map from call id to call. */
  type Pending = seq<Call>

  function Find(p: Pending, id: string): (r: Option<nat>)
    ensures r.Some? ==> r.value < |p| && p[r.value].id == id
    ensures r.None? <==> forall k :: 0 <= k < |p| ==> p[k].id != id
  {
    if p == [] then None
    else if p[0].id == id then Some(0)
    else
      var rest := Find(p[1..], id);
      if rest.None? then None else Some(rest.value + 1)
  }

  /** Overwriting a key keeps its place. */
  function Set(p: Pending, call: Call): Pending {
    match Find(p, call.id)
    case None => p + [call]
    case Some(k) => p[k := call]
  }

  function Delete(p: Pending, id: string): Pending {
    match Find(p, id)
    case None => p
    case Some(k) => p[..k] + p[k + 1..]
  }

  function Name(p: Pending, id: string): Option<string> {
    match Find(p, id)
    case None => None
    case Some(k) => Some(p[k].name)
  }

  predicate DistinctIds(p: Pending) {
    forall i, j :: 0 <= i < j < |p| ==> p[i].id != p[j].id
  }

  function Calls(content: seq<Block>): Pending {
    if content == [] then []
    else (if content[0].ToolCall? then [content[0].call] else []) + Calls(content[1..])
  }

  function CallsOf(m: Message): Pending {
    if m.Assistant? then Calls(m.content) else []
  }

  // ---- The rules ----

  /**
   * Results answer calls still open, by id and name; nothing else comes before all are answered; a message's call ids
   * are distinct; nothing stays open.
   */
  predicate Settled(messages: seq<Message>, open: Pending) {
    if messages == [] then open == []
    else
      var m := messages[0];
      if m.ToolResult? then
        Name(open, m.toolCallId) == Some(m.toolName) && Settled(messages[1..], Delete(open, m.toolCallId))
      else
        open == [] && !m.Custom? && DistinctIds(CallsOf(m)) && Settled(messages[1..], CallsOf(m))
  }

  /** The same, except that calls may be left unanswered. */
  predicate Matched(messages: seq<Message>, open: Pending) {
    if messages == [] then true
    else
      var m := messages[0];
      if m.ToolResult? then
        Name(open, m.toolCallId) == Some(m.toolName) && Matched(messages[1..], Delete(open, m.toolCallId))
      else
        !m.Custom? && DistinctIds(CallsOf(m)) && Matched(messages[1..], CallsOf(m))
  }

  // ---- The repair ----

  /** Wording of the notice, and the clock, are the caller's. */
  function Interrupted(call: Call, notice: string, now: nat): Message {
    ToolResult(call.id, call.name, notice, true, now)
  }

  function Close(p: Pending, notice: string, now: nat): (r: seq<Message>)
    ensures |r| == |p| && forall k :: 0 <= k < |p| ==> r[k] == Interrupted(p[k], notice, now)
  {
    if p == [] then [] else [Interrupted(p[0], notice, now)] + Close(p[1..], notice, now)
  }

  function Scrub(m: Message): Message {
    if m.Assistant? then m.(errorMessage := None, diagnostics := None, rawStopReason := None) else m
  }

  function Scrubbed(messages: seq<Message>): seq<Message> {
    if messages == [] then [] else [Scrub(messages[0])] + Scrubbed(messages[1..])
  }

  function SetAll(p: Pending, content: seq<Block>): Pending
    decreases |content|
  {
    if content == [] then p
    else SetAll(if content[0].ToolCall? then Set(p, content[0].call) else p, content[1..])
  }

  function Repair(messages: seq<Message>, open: Pending, notice: string, now: nat): seq<Message> {
    if messages == [] then Close(open, notice, now)
    else
      var m := messages[0];
      if m.ToolResult? then [m] + Repair(messages[1..], Delete(open, m.toolCallId), notice, now)
      else
        Close(open, notice, now) + [Scrub(m)]
        + Repair(messages[1..], if m.Assistant? then SetAll([], m.content) else [], notice, now)
  }

  method CloseToolBatches(messages: seq<Message>, notice: string, now: nat) returns (r: Option<seq<Message>>)
    ensures r.None? <==> exists k :: 0 <= k < |messages| && messages[k].Custom?
    ensures r.Some? ==> r.value == Repair(messages, [], notice, now)
  {
    var result: seq<Message> := [];
    var pending: Pending := [];
    var i := 0;
    while i < |messages|
      invariant 0 <= i <= |messages|
      invariant forall k :: 0 <= k < i ==> !messages[k].Custom?
      invariant result + Repair(messages[i..], pending, notice, now) == Repair(messages, [], notice, now)
    {
      var entry := messages[i];
      if entry.Custom? {
        return None;
      }
      ghost var rest, before, was := messages[i..], result, pending;
      assert rest[1..] == messages[i + 1..];
      if !entry.ToolResult? {
        result := result + Close(pending, notice, now);
        pending := [];
      }
      result := result + [Scrub(entry)];
      if entry.Assistant? {
        pending := SetBlocks(entry.content);
      } else if entry.ToolResult? {
        pending := Delete(pending, entry.toolCallId);
      }
      assert before + [] == before;
      RepairStep(rest, was, notice, now, before, result);
      i := i + 1;
    }
    assert messages[i..] == [];
    return Some(result + Close(pending, notice, now));
  }

  method SetBlocks(content: seq<Block>) returns (pending: Pending)
    ensures pending == SetAll([], content)
  {
    pending := [];
    var b := 0;
    while b < |content|
      invariant 0 <= b <= |content| && SetAll(pending, content[b..]) == SetAll([], content)
    {
      assert content[b..][1..] == content[b + 1..];
      if content[b].ToolCall? {
        pending := Set(pending, content[b].call);
      }
      b := b + 1;
    }
    assert content[b..] == [];
  }

  lemma Regroup(a: seq<Message>, b: seq<Message>, c: seq<Message>)
    ensures a + b + c == a + (b + c)
  {
  }

  function Following(m: Message, open: Pending): Pending {
    if m.Assistant? then SetAll([], m.content) else if m.ToolResult? then Delete(open, m.toolCallId) else []
  }

  lemma RepairFirst(rest: seq<Message>, open: Pending, notice: string, now: nat)
    requires rest != []
    ensures Repair(rest, open, notice, now)
         == (if rest[0].ToolResult? then [] else Close(open, notice, now)) + [Scrub(rest[0])]
            + Repair(rest[1..], Following(rest[0], open), notice, now)
  {
    if rest[0].ToolResult? {
      var head: seq<Message> := [];
      assert head + [Scrub(rest[0])] == [rest[0]];
    }
  }

  lemma RepairStep(
    rest: seq<Message>, open: Pending, notice: string, now: nat, before: seq<Message>, after: seq<Message>)
    requires rest != []
    requires after == before + (if rest[0].ToolResult? then [] else Close(open, notice, now)) + [Scrub(rest[0])]
    ensures after + Repair(rest[1..], Following(rest[0], open), notice, now) == before + Repair(rest, open, notice, now)
  {
    var closed := if rest[0].ToolResult? then [] else Close(open, notice, now);
    var tail := Repair(rest[1..], Following(rest[0], open), notice, now);
    RepairFirst(rest, open, notice, now);
    Regroup(before, closed, [Scrub(rest[0])]);
    Regroup(before, closed + [Scrub(rest[0])], tail);
  }

  /** What the rules ask of one message, given the calls still open. */
  predicate Passes(m: Message, open: Pending)
    requires !m.Custom?
  {
    if m.ToolResult? then Name(open, m.toolCallId) == Some(m.toolName)
    else open == [] && DistinctIds(CallsOf(m))
  }

  function OpenAfter(m: Message, open: Pending): Pending {
    if m.ToolResult? then Delete(open, m.toolCallId) else CallsOf(m)
  }

  lemma SettledFrom(messages: seq<Message>, i: nat, open: Pending)
    requires i < |messages| && !messages[i].Custom?
    ensures Settled(messages[i..], open)
       <==> Passes(messages[i], open) && Settled(messages[i + 1..], OpenAfter(messages[i], open))
  {
    assert messages[i..][1..] == messages[i + 1..];
  }

  /** The validator's pass; it reports issues and goes on. */
  method Validate(messages: seq<Message>) returns (issues: nat)
    requires forall k :: 0 <= k < |messages| ==> !messages[k].Custom?
    ensures issues == 0 <==> Settled(messages, [])
  {
    issues := 0;
    var pending: Pending := [];
    var i := 0;
    while i < |messages|
      invariant 0 <= i <= |messages|
      invariant issues == 0 ==> (Settled(messages[i..], pending) <==> Settled(messages, []))
      invariant issues > 0 ==> !Settled(messages, [])
    {
      SettledFrom(messages, i, pending);
      var more;
      more, pending := CheckMessage(messages[i], pending);
      issues := issues + more;
      i := i + 1;
    }
    if |pending| > 0 {
      issues := issues + 1;
    }
  }

  method CheckMessage(entry: Message, open: Pending) returns (issues: nat, pending: Pending)
    requires !entry.Custom?
    ensures issues == 0 <==> Passes(entry, open)
    ensures issues == 0 ==> pending == OpenAfter(entry, open)
  {
    issues, pending := 0, open;
    if entry.ToolResult? {
      if Name(pending, entry.toolCallId) != Some(entry.toolName) {
        issues := issues + 1;
      }
      pending := Delete(pending, entry.toolCallId);
    } else if |pending| > 0 {
      issues := issues + 1;
    }
    if entry.Assistant? {
      var more: nat;
      more, pending := CollectCalls(entry.content, pending);
      issues := issues + more;
    }
  }

  method CollectCalls(content: seq<Block>, open: Pending) returns (issues: nat, pending: Pending)
    ensures open == [] ==> (issues == 0 <==> DistinctIds(Calls(content)))
    ensures open == [] && issues == 0 ==> pending == Calls(content)
  {
    issues, pending := 0, open;
    var b := 0;
    while b < |content|
      invariant 0 <= b <= |content|
      invariant issues == 0 ==> pending + Calls(content[b..]) == open + Calls(content)
      invariant open == [] ==> open + Calls(content) == Calls(content)
      invariant open == [] && issues == 0 ==> DistinctIds(pending)
      invariant open == [] && issues > 0 ==> !DistinctIds(Calls(content))
    {
      CallsFrom(pending, content, b);
      if content[b].ToolCall? {
        var call := content[b].call;
        if Find(pending, call.id).Some? {
          Repeated(pending, call, Calls(content[b + 1..]));
          issues := issues + 1;
        }
        pending := Set(pending, call);
      }
      b := b + 1;
    }
    assert content[b..] == [] && pending + [] == pending && [] + Calls(content) == Calls(content);
  }

  lemma CallsFrom(p: Pending, content: seq<Block>, b: nat)
    requires b < |content|
    ensures p + Calls(content[b..])
         == (if content[b].ToolCall? then p + [content[b].call] else p) + Calls(content[b + 1..])
  {
    assert content[b..][1..] == content[b + 1..];
  }

  lemma Repeated(p: Pending, call: Call, rest: Pending)
    requires Find(p, call.id).Some?
    ensures !DistinctIds(p + [call] + rest)
  {
    var k := Find(p, call.id).value;
    var all := p + [call] + rest;
    assert all[k].id == all[|p|].id && k < |p|;
  }
}
