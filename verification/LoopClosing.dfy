/** Exactly which records a settled batch skips. */
module LoopClosing {
  import opened Wrappers
  import opened Text
  import opened Records
  import opened Engine
  import opened EngineInvariant

  /** A batch at the frontier whose children all completed. */
  predicate SettledBatch(rs: seq<Record>, lo: nat, hi: nat) {
    && lo < |rs| && Frontier(rs, lo, hi) && rs[lo].kind == Agent
    && Members(rs, lo, hi, {Completed})
  }

  predicate SomeRequestsChanges(rs: seq<Record>, lo: nat, hi: nat)
    requires hi <= |rs|
  {
    exists i :: lo <= i < hi && RequestsChanges(rs[i])
  }

  predicate SomeApproves(rs: seq<Record>, lo: nat, hi: nat)
    requires hi <= |rs|
  {
    exists i :: lo <= i < hi && Approves(rs[i])
  }

  predicate SomeClaimsAllDone(rs: seq<Record>, lo: nat, hi: nat)
    requires hi <= |rs|
  {
    exists i :: lo <= i < hi && ClaimsAllDone(rs[i])
  }

  predicate ReviewAwaited(rs: seq<Record>, scope: LoopScope) {
    exists j :: 0 <= j < |rs| && AwaitsReview(rs[j], scope)
  }

  /** An approval, or allDone with no review of this iteration outstanding. */
  predicate MemberDecides(rs: seq<Record>, j: nat, scope: LoopScope)
    requires j < |rs|
  {
    Approves(rs[j]) || (ClaimsAllDone(rs[j]) && !ReviewAwaited(rs, scope))
  }

  predicate Decides(rs: seq<Record>, i: nat, lo: nat, hi: nat, scope: LoopScope)
    requires hi <= |rs|
  {
    exists j :: i <= j < hi && lo <= j && MemberDecides(rs, j, scope)
  }

  predicate Closes(rs: seq<Record>, lo: nat, hi: nat)
    requires lo < |rs| && hi <= |rs|
  {
    && rs[lo].loops != []
    && !SomeRequestsChanges(rs, lo, hi)
    && (|| SomeApproves(rs, lo, hi)
        || (SomeClaimsAllDone(rs, lo, hi) && !ReviewAwaited(rs, InnermostLoop(rs[lo]))))
  }

  lemma SkipLoopClosed(rs: seq<Record>, scope: LoopScope)
    ensures var c := SkipLoop(rs, scope.id);
            SkipLoop(c, scope.id) == c && !ReviewAwaited(c, scope) && SameTopology(rs, c)
  {
    var c := SkipLoop(rs, scope.id);
    forall i | 0 <= i < |rs|
      ensures Topology(rs[i]) == Topology(c[i])
    {
    }
    forall j | 0 <= j < |c|
      ensures !AwaitsReview(c[j], scope)
    {
      if AwaitsReview(c[j], scope) {
        assert InLoop(c[j], scope.id);
      }
    }
  }

  /** Once closed, the rest of the fold changes nothing. */
  lemma {:induction false} CloseFromClosed(rs: seq<Record>, batch: Option<string>, i: nat, scope: LoopScope)
    requires i <= |rs| && SkipLoop(rs, scope.id) == rs && !ReviewAwaited(rs, scope)
    requires forall j :: 0 <= j < |rs| && InBatch(rs[j], batch) && rs[j].loops != [] ==> InnermostLoop(rs[j]) == scope
    ensures CloseFrom(rs, batch, i) == rs
    decreases |rs| - i
  {
    if i < |rs| {
      CloseFromClosed(rs, batch, i + 1, scope);
    }
  }

  lemma MembersShareLoops(rs: seq<Record>, lo: nat, hi: nat)
    requires Structured(rs) && lo < |rs| && IsBatch(rs, lo, hi)
    ensures forall j :: lo <= j < hi ==> rs[j].loops == rs[lo].loops
  {
    forall j | lo <= j < hi
      ensures rs[j].loops == rs[lo].loops
    {
      SameBatch(rs, j, lo);
    }
  }

  lemma AwaitedLater(rs: seq<Record>, lo: nat, hi: nat, i: nat, scope: LoopScope)
    requires SettledBatch(rs, lo, hi) && i < hi
    ensures (exists j :: i < j < |rs| && AwaitsReview(rs[j], scope)) <==> ReviewAwaited(rs, scope)
  {
    if ReviewAwaited(rs, scope) {
      var j :| 0 <= j < |rs| && AwaitsReview(rs[j], scope);
      assert hi <= j;
    }
  }

  lemma CloseOneDecides(rs: seq<Record>, lo: nat, hi: nat, i: nat, scope: LoopScope)
    requires SettledBatch(rs, lo, hi) && i < hi && rs[i].loops != [] && InnermostLoop(rs[i]) == scope
    ensures CloseOne(rs, i) == if MemberDecides(rs, i, scope) then SkipLoop(rs, scope.id) else rs
  {
    AwaitedLater(rs, lo, hi, i, scope);
  }

  /** Every batch member's innermost loop is `scope`. */
  predicate BatchIn(rs: seq<Record>, batch: Option<string>, scope: LoopScope) {
    forall j :: 0 <= j < |rs| && InBatch(rs[j], batch) ==> rs[j].loops != [] && InnermostLoop(rs[j]) == scope
  }

  lemma CloseFromAfter(rs: seq<Record>, batch: Option<string>, i: nat, scope: LoopScope)
    requires i <= |rs| && BatchIn(rs, batch, scope)
    ensures CloseFrom(SkipLoop(rs, scope.id), batch, i) == SkipLoop(rs, scope.id)
  {
    var c := SkipLoop(rs, scope.id);
    SkipLoopClosed(rs, scope);
    SameFields(rs, c);
    forall j | 0 <= j < |c| && InBatch(c[j], batch)
      ensures c[j].loops != [] && InnermostLoop(c[j]) == scope
    {
      assert InBatch(rs[j], batch);
    }
    CloseFromClosed(c, batch, i, scope);
  }

  lemma CloseFromMember(rs: seq<Record>, batch: Option<string>, i: nat)
    requires i < |rs| && InBatch(rs[i], batch)
    ensures CloseFrom(rs, batch, i) == CloseFrom(CloseOne(rs, i), batch, i + 1)
  {
  }

  /** One member of the fold. */
  lemma MemberStep(rs: seq<Record>, lo: nat, hi: nat, i: nat, scope: LoopScope)
    requires SettledBatch(rs, lo, hi) && i < |rs| && InBatch(rs[i], Some(rs[lo].batch))
    requires BatchIn(rs, Some(rs[lo].batch), scope)
    ensures lo <= i < hi
    ensures CloseFrom(rs, Some(rs[lo].batch), i)
         == if MemberDecides(rs, i, scope) then SkipLoop(rs, scope.id) else CloseFrom(rs, Some(rs[lo].batch), i + 1)
  {
    CloseFromMember(rs, Some(rs[lo].batch), i);
    CloseOneDecides(rs, lo, hi, i, scope);
    if MemberDecides(rs, i, scope) {
      CloseFromAfter(rs, Some(rs[lo].batch), i + 1, scope);
    }
  }

  /** Whether some member from `i` on decides, one member at a time. */
  lemma DecidesNext(rs: seq<Record>, lo: nat, hi: nat, i: nat, scope: LoopScope)
    requires SettledBatch(rs, lo, hi) && i < |rs|
    ensures Decides(rs, i, lo, hi, scope)
       <==> (lo <= i < hi && MemberDecides(rs, i, scope)) || Decides(rs, i + 1, lo, hi, scope)
  {
  }

  /** The fold over the batch closes the innermost loop exactly when some member decides it. */
  lemma {:induction false} CloseFromDecides(rs: seq<Record>, lo: nat, hi: nat, i: nat, scope: LoopScope)
    requires SettledBatch(rs, lo, hi) && i <= |rs|
    requires BatchIn(rs, Some(rs[lo].batch), scope)
    ensures CloseFrom(rs, Some(rs[lo].batch), i)
         == if Decides(rs, i, lo, hi, scope) then SkipLoop(rs, scope.id) else rs
    decreases |rs| - i
  {
    if i < |rs| {
      CloseFromDecides(rs, lo, hi, i + 1, scope);
      DecidesNext(rs, lo, hi, i, scope);
      if InBatch(rs[i], Some(rs[lo].batch)) {
        MemberStep(rs, lo, hi, i, scope);
      }
    }
  }

  lemma {:induction false} CloseFromOutside(rs: seq<Record>, batch: Option<string>, i: nat)
    requires i <= |rs| && forall j :: 0 <= j < |rs| && InBatch(rs[j], batch) ==> rs[j].loops == []
    ensures CloseFrom(rs, batch, i) == rs
    decreases |rs| - i
  {
    if i < |rs| {
      CloseFromOutside(rs, batch, i + 1);
    }
  }

  lemma RequestsInBatch(rs: seq<Record>, lo: nat, hi: nat)
    requires lo < |rs| && IsBatch(rs, lo, hi)
    ensures (exists i :: 0 <= i < |rs| && InBatch(rs[i], Some(rs[lo].batch)) && RequestsChanges(rs[i]))
            <==> SomeRequestsChanges(rs, lo, hi)
  {
    if i :| 0 <= i < |rs| && InBatch(rs[i], Some(rs[lo].batch)) && RequestsChanges(rs[i]) {
      assert lo <= i < hi;
    }
    if SomeRequestsChanges(rs, lo, hi) {
      var i :| lo <= i < hi && RequestsChanges(rs[i]);
      assert InBatch(rs[i], Some(rs[lo].batch));
    }
  }

  lemma BatchScopes(rs: seq<Record>, lo: nat, hi: nat)
    requires Structured(rs) && lo < |rs| && IsBatch(rs, lo, hi)
    ensures rs[lo].loops != [] ==> BatchIn(rs, Some(rs[lo].batch), InnermostLoop(rs[lo]))
    ensures rs[lo].loops == [] ==>
      forall j :: 0 <= j < |rs| && InBatch(rs[j], Some(rs[lo].batch)) ==> rs[j].loops == []
  {
    MembersShareLoops(rs, lo, hi);
  }

  lemma DecidesFromStart(rs: seq<Record>, lo: nat, hi: nat, scope: LoopScope)
    requires hi <= |rs|
    ensures Decides(rs, 0, lo, hi, scope) <==>
      SomeApproves(rs, lo, hi) || (SomeClaimsAllDone(rs, lo, hi) && !ReviewAwaited(rs, scope))
  {
    if SomeApproves(rs, lo, hi) {
      var j :| lo <= j < hi && Approves(rs[j]);
      assert MemberDecides(rs, j, scope);
    } else if SomeClaimsAllDone(rs, lo, hi) && !ReviewAwaited(rs, scope) {
      var j :| lo <= j < hi && ClaimsAllDone(rs[j]);
      assert MemberDecides(rs, j, scope);
    }
  }

  /** closeLoops is one decision about one loop. */
  lemma CloseLoopsDecides(rs: seq<Record>, lo: nat, hi: nat)
    requires Structured(rs) && SettledBatch(rs, lo, hi)
    ensures CloseLoops(rs, Some(rs[lo].batch))
         == if Closes(rs, lo, hi) then SkipLoop(rs, InnermostLoop(rs[lo]).id) else rs
  {
    RequestsInBatch(rs, lo, hi);
    BatchScopes(rs, lo, hi);
    if rs[lo].loops == [] {
      CloseFromOutside(rs, Some(rs[lo].batch), 0);
    } else {
      CloseFromDecides(rs, lo, hi, 0, InnermostLoop(rs[lo]));
      DecidesFromStart(rs, lo, hi, InnermostLoop(rs[lo]));
    }
  }

  /** Being inside the closed loop means sharing every enclosing iteration with the closing batch. */
  lemma InsideSharesEnclosing(rs: seq<Record>, lo: nat, j: nat)
    requires Structured(rs) && lo < |rs| && j < |rs| && rs[lo].loops != []
    ensures var d := |rs[lo].loops| - 1;
            InLoop(rs[j], InnermostLoop(rs[lo]).id) <==>
              && d < |rs[j].loops| && rs[j].loops[..d] == rs[lo].loops[..d]
              && rs[j].loops[d].id == rs[lo].loops[d].id
  {
    var a, b := rs[lo].loops, rs[j].loops;
    assert ScopesAgree(a, b) by {
      if lo == j {
        assert WellShaped(rs[j]);
      } else if lo < j {
        assert Related(rs[lo], rs[j]);
      } else {
        assert Related(rs[j], rs[lo]);
        forall x, y | 0 <= x < |a| && 0 <= y < |b| && a[x].id == b[y].id
          ensures x == y && a[..x] == b[..y] && a[x].max == b[y].max
        {
        }
      }
    }
    if InLoop(rs[j], InnermostLoop(rs[lo]).id) {
      var x :| 0 <= x < |b| && b[x].id == InnermostLoop(rs[lo]).id;
      assert a[|a| - 1].id == b[x].id;
    }
  }

  /**
   * A successful batch skips precisely the pending records inside its innermost loop, in the same enclosing
   * iterations; it skips nothing when changes were requested, when nobody decided, or when allDone stands
   * alone while a review of this very iteration is outstanding.
   */
  lemma ExactClosing(rs: seq<Record>, lo: nat, hi: nat, j: nat)
    requires Structured(rs) && SettledBatch(rs, lo, hi) && j < |rs|
    ensures var c := CloseLoops(rs, Some(rs[lo].batch));
            var d := |rs[lo].loops| - 1;
            && |c| == |rs|
            && (c[j] != rs[j] <==>
                  && Closes(rs, lo, hi) && rs[j].status == Pending
                  && d < |rs[j].loops| && rs[j].loops[..d] == rs[lo].loops[..d]
                  && rs[j].loops[d].id == rs[lo].loops[d].id)
            && (c[j] != rs[j] ==> c[j] == rs[j].(status := Skipped))
  {
    CloseLoopsDecides(rs, lo, hi);
    if rs[lo].loops != [] {
      InsideSharesEnclosing(rs, lo, j);
    }
  }

  /** A pending reviewer of the current iteration is skipped only on a reviewer's approval. */
  lemma AllDoneKeepsReview(rs: seq<Record>, lo: nat, hi: nat, j: nat)
    requires Structured(rs) && SettledBatch(rs, lo, hi) && j < |rs|
    requires rs[lo].loops != [] && AwaitsReview(rs[j], InnermostLoop(rs[lo]))
    requires CloseLoops(rs, Some(rs[lo].batch))[j].status == Skipped
    ensures SomeApproves(rs, lo, hi) && !SomeRequestsChanges(rs, lo, hi)
  {
    CloseLoopsDecides(rs, lo, hi);
    assert ReviewAwaited(rs, InnermostLoop(rs[lo]));
  }
}
