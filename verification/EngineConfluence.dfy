/** The order in which parallel children report does not matter. */
module EngineConfluence {
  import opened Wrappers
  import opened Records
  import opened Engine

  datatype ChildReport = ChildReport(id: string, report: Report)

  /** Commit reports one after the other, then cross the barrier. */
  function Commit(s: EngineState, reports: seq<ChildReport>): Result<EngineState, EngineError>
    decreases |reports|
  {
    if reports == [] then Success(s)
    else
      var next := RecordOutcome(s, reports[0].id, reports[0].report);
      if next.Failure? then next else Commit(next.value, reports[1..])
  }

  lemma FindIdStable(rs: seq<Record>, k: nat, r: Record, id: string)
    requires k < |rs| && r.id == rs[k].id
    ensures FindId(rs[k := r], id) == FindId(rs, id)
  {
    var c := rs[k := r];
    assert forall j :: 0 <= j < |rs| ==> c[j].id == rs[j].id;
    var a, b := FindId(c, id), FindId(rs, id);
    assert a < |rs| ==> rs[a].id == id;
    assert b < |rs| ==> c[b].id == id;
  }

  /** Two reports commute, success or failure alike. */
  lemma RecordsCommute(s: EngineState, a: ChildReport, b: ChildReport)
    ensures Commit(s, [a, b]) == Commit(s, [b, a])
  {
    CommitTwo(s, a, b);
    CommitTwo(s, b, a);
    var ra, rb := RecordOutcome(s, a.id, a.report), RecordOutcome(s, b.id, b.report);
    RecordAfter(s, a, b);
    RecordAfter(s, b, a);
    if ra.Success? && rb.Success? {
      RecordBoth(s, a, b);
    }
  }

  /** Recording one child leaves another child's chances as they were, except its own repeat. */
  lemma RecordAfter(s: EngineState, a: ChildReport, b: ChildReport)
    ensures var ra, rb := RecordOutcome(s, a.id, a.report), RecordOutcome(s, b.id, b.report);
            ra.Success? ==>
              var rab := RecordOutcome(ra.value, b.id, b.report);
              (rab.Success? <==> rb.Success? && FindId(s.records, a.id) != FindId(s.records, b.id))
              && (rab.Failure? ==> rab == Failure(NotInActiveBatch))
  {
    var i := FindId(s.records, a.id);
    var ra := RecordOutcome(s, a.id, a.report);
    if ra.Success? {
      SettledShape(s.records[i], a.report);
      FindIdStable(s.records, i, ra.value.records[i], b.id);
    }
  }

  lemma SettledShape(r: Record, report: Report)
    ensures Settled(r, report).id == r.id && Settled(r, report).batch == r.batch && Settled(r, report).status != Running
  {
  }

  lemma RecordBoth(s: EngineState, a: ChildReport, b: ChildReport)
    requires RecordOutcome(s, a.id, a.report).Success? && RecordOutcome(s, b.id, b.report).Success?
    requires FindId(s.records, a.id) != FindId(s.records, b.id)
             ==> RecordOutcome(RecordOutcome(s, a.id, a.report).value, b.id, b.report).Success?
                 && RecordOutcome(RecordOutcome(s, b.id, b.report).value, a.id, a.report).Success?
    ensures FindId(s.records, a.id) != FindId(s.records, b.id) ==>
              RecordOutcome(RecordOutcome(s, a.id, a.report).value, b.id, b.report)
              == RecordOutcome(RecordOutcome(s, b.id, b.report).value, a.id, a.report)
  {
    var i, j := FindId(s.records, a.id), FindId(s.records, b.id);
    var x, y := Settled(s.records[i], a.report), Settled(s.records[j], b.report);
    SettledShape(s.records[i], a.report);
    SettledShape(s.records[j], b.report);
    FindIdStable(s.records, i, x, b.id);
    FindIdStable(s.records, j, y, a.id);
    assert i != j ==> s.records[i := x][j := y] == s.records[j := y][i := x];
  }

  lemma CommitTwo(s: EngineState, a: ChildReport, b: ChildReport)
    ensures var ra := RecordOutcome(s, a.id, a.report);
            Commit(s, [a, b]) == if ra.Failure? then ra else RecordOutcome(ra.value, b.id, b.report)
  {
    assert [a, b][1..] == [b] && [b][1..] == [];
    var ra := RecordOutcome(s, a.id, a.report);
    if ra.Success? {
      var rb := RecordOutcome(ra.value, b.id, b.report);
      assert Commit(ra.value, [b]) == if rb.Failure? then rb else Commit(rb.value, []);
    }
  }

  lemma {:induction false} CommitAppend(s: EngineState, xs: seq<ChildReport>, ys: seq<ChildReport>)
    ensures Commit(s, xs + ys)
         == if Commit(s, xs).Failure? then Commit(s, xs) else Commit(Commit(s, xs).value, ys)
    decreases |xs|
  {
    if xs == [] {
      assert xs + ys == ys;
    } else {
      assert (xs + ys)[1..] == xs[1..] + ys;
      var next := RecordOutcome(s, xs[0].id, xs[0].report);
      if next.Success? {
        CommitAppend(next.value, xs[1..], ys);
      }
    }
  }

  /** A report can be moved to the front. */
  lemma {:induction false} CommitFront(s: EngineState, xs: seq<ChildReport>, x: ChildReport)
    ensures Commit(s, xs + [x]) == Commit(s, [x] + xs)
    decreases |xs|
  {
    if xs != [] {
      var y, rest := xs[0], xs[1..];
      var next := RecordOutcome(s, y.id, y.report);
      assert (xs + [x])[1..] == rest + [x];
      assert [x] + xs == [x, y] + rest && [y] + ([x] + rest) == [y, x] + rest;
      CommitAppend(s, [x, y], rest);
      CommitAppend(s, [y, x], rest);
      RecordsCommute(s, x, y);
      CommitAppend(s, [y], [x] + rest);
      CommitAppend(s, [y], rest + [x]);
      assert xs + [x] == [y] + (rest + [x]);
      var one := Commit(s, [y]);
      if one.Success? {
        CommitFront(one.value, rest, x);
      }
    } else {
      assert xs + [x] == [x] + xs;
    }
  }

  lemma RemoveOne(x: ChildReport, rest: seq<ChildReport>, before: seq<ChildReport>, after: seq<ChildReport>)
    requires multiset([x] + rest) == multiset(before + [x] + after)
    ensures multiset(rest) == multiset(before + after)
  {
    assert multiset([x] + rest) == multiset{x} + multiset(rest);
    assert multiset(before + [x] + after) == multiset{x} + multiset(before + after);
    assert multiset(rest) == multiset([x] + rest) - multiset{x};
  }

  lemma MoveToFront(s: EngineState, before: seq<ChildReport>, x: ChildReport, after: seq<ChildReport>)
    ensures Commit(s, before + [x] + after) == Commit(s, [x] + (before + after))
  {
    CommitAppend(s, before + [x], after);
    CommitFront(s, before, x);
    CommitAppend(s, [x] + before, after);
    Regroup(x, before, after);
  }

  lemma Regroup(x: ChildReport, before: seq<ChildReport>, after: seq<ChildReport>)
    ensures ([x] + before) + after == [x] + (before + after)
  {
  }

  lemma CommitCons(s: EngineState, x: ChildReport, rest: seq<ChildReport>)
    ensures var next := RecordOutcome(s, x.id, x.report);
            Commit(s, [x] + rest) == if next.Failure? then next else Commit(next.value, rest)
  {
    assert ([x] + rest)[1..] == rest;
  }

  /** Barrier confluence: any arrival order of the same reports gives the same state, or the same refusal. */
  lemma {:induction false} CommitPermutation(s: EngineState, xs: seq<ChildReport>, ys: seq<ChildReport>)
    requires multiset(xs) == multiset(ys)
    ensures Commit(s, xs) == Commit(s, ys)
    decreases |xs|
  {
    if xs == [] {
      assert |multiset(ys)| == 0;
    } else {
      var x, rest := xs[0], xs[1..];
      assert xs == [x] + rest;
      assert x in multiset(ys);
      var i :| 0 <= i < |ys| && ys[i] == x;
      var before, after := ys[..i], ys[i + 1..];
      assert ys == before + [x] + after;
      MoveToFront(s, before, x, after);
      RemoveOne(x, rest, before, after);
      CommitCons(s, x, rest);
      CommitCons(s, x, before + after);
      var next := RecordOutcome(s, x.id, x.report);
      if next.Success? {
        CommitPermutation(next.value, rest, before + after);
      }
    }
  }

  /** The same holds through the barrier itself. */
  function CommitAndSettle(s: EngineState, reports: seq<ChildReport>): Result<EngineState, EngineError> {
    var r := Commit(s, reports);
    if r.Failure? then r
    else if !HasControlData(r.value.records) then Failure(InvalidCheckpoint)
    else SettleBatch(r.value)
  }

  lemma BarrierConfluence(s: EngineState, xs: seq<ChildReport>, ys: seq<ChildReport>)
    requires multiset(xs) == multiset(ys)
    ensures CommitAndSettle(s, xs) == CommitAndSettle(s, ys)
  {
    CommitPermutation(s, xs, ys);
  }
}
