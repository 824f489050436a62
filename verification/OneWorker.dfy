/**
 What it buys that requests write what they checked and that each remittance
 has one worker: the status column and the ledger never disagree, and a final
 status is final.
 */
module OneWorker {
  import opened Wrappers
  import opened Schema
  import opened Bookkeeping
  import opened Transactions
  import opened Stream
  import opened Protocol
  import opened TableSafety
  import opened SettlementSafety
  import opened Frames
  import Limits

  ghost predicate OnIts(s: State, h: HandlerId, id: RemittanceId) {
    h in s.handlers && Working(s, h) && Settles(s, h) && RemittanceOf(s, h) == id
  }

  ghost predicate WorkerSteady(s: State, h: HandlerId)
    requires h in s.handlers
  {
    Working(s, h) && Settles(s, h) ==>
      var phase := s.handlers[h].phase;
      && StatusOf(s, RemittanceOf(s, h)).Settling?
      && (phase.Ready? ==> phase.loaded.Settling?)
      && (phase.Paid? ==> phase.loaded.Settling?)
      && (phase.Failing? ==> phase.loaded.Settling?)
  }

  ghost predicate Agrees(s: State, id: RemittanceId)
    requires IsRemittance(s, id)
  {
    && (StatusOf(s, id).Settled? <==> IsCredited(s.tables, id))
    && (StatusOf(s, id).Refunded? <==> IsRefunded(s.tables, id))
  }

  ghost predicate Exclusive(s: State) {
    && (forall h :: h in s.handlers ==> WorkerSteady(s, h))
    && (forall g, h, id :: OnIts(s, g, id) && OnIts(s, h, id) ==> g == h)
    && (forall id: nat :: IsRemittance(s, id) ==> Agrees(s, id))
  }

  ghost predicate Careful(p: Limits.Policy, s: State, step: Step) {
    RemittanceChecksPass(p, s, step) && OneWorkerPerRemittance(s, step)
  }

  // -- workers ---------------------------------------------------------------------------

  /** A handler at work after a step was at work before it, or has just claimed. */
  lemma WorkStartsWithAClaim(p: Limits.Policy, s: State, step: Step, h: HandlerId, id: RemittanceId)
    requires Sound(s) && OnIts(Apply(p, s, step), h, id) && !OnIts(s, h, id)
    ensures step == Claim(h) && InPhase(s, h, Waiting) && Settles(s, h) && RemittanceOf(s, h) == id
    ensures Claimable(StatusOf(s, id), s.handlers[h].reclaimed)
  {
    var s' := Apply(p, s, step);
    if h !in s.handlers {
      NewHandlersWait(p, s, step, h);
    } else {
      HandlersKeepTheirEntry(p, s, step, h);
      StreamMovesOnlyBy(p, s, step);
      assert HandlerSound(s, h);
      assert MessageOf(s', h) == MessageOf(s, h) && MessageKnown(s, MessageOf(s, h));
      if Actor(step) != Some(h) {
        OtherHandlersUntouched(p, s, step, h);
      }
    }
    hide Sound, CommitStep;
  }

  lemma StepKeepsWorkersApart(p: Limits.Policy, s: State, step: Step, g: HandlerId, h: HandlerId, id: RemittanceId)
    requires Sound(s) && Exclusive(s) && Careful(p, s, step) && g != h
    ensures !(OnIts(Apply(p, s, step), g, id) && OnIts(Apply(p, s, step), h, id))
  {
    var s' := Apply(p, s, step);
    if OnIts(s', g, id) && OnIts(s', h, id) {
      if !OnIts(s, g, id) {
        WorkStartsWithAClaim(p, s, step, g, id);
        if !OnIts(s, h, id) {
          WorkStartsWithAClaim(p, s, step, h, id);
        }
      } else if !OnIts(s, h, id) {
        WorkStartsWithAClaim(p, s, step, h, id);
      }
      hide Sound, Apply;
    }
  }

  /** While one worker is at a remittance, no other step may write it. */
  lemma OnlyTheWorkerWrites(p: Limits.Policy, s: State, step: Step, h: HandlerId, id: RemittanceId)
    requires Sound(s) && Exclusive(s) && Careful(p, s, step) && OnIts(s, h, id) && Actor(step) != Some(h)
    ensures var s' := Apply(p, s, step); IsRemittance(s', id) && StatusOf(s', id) == StatusOf(s, id)
  {
    assert WorkerSteady(s, h) && forall g :: OnIts(s, g, id) ==> g == h;
    FreshRequestsLeaveItAlone(p, s, step, id);
    if Target(s, step) != Some(id) {
      OtherRemittancesUntouched(p, s, step, id);
    } else {
      assert !OnIts(s, step.h, id);
    }
    hide Sound, Exclusive, CommitStep;
  }

  /** No request that looks at the row again would commit to a remittance being settled, or settled, or refunded. */
  lemma FreshRequestsLeaveItAlone(p: Limits.Policy, s: State, step: Step, id: RemittanceId)
    requires IsRemittance(s, id) && RemittanceChecksPass(p, s, step)
    requires StatusOf(s, id).Settling? || StatusOf(s, id).Settled? || StatusOf(s, id).Refunded?
    ensures step.Commit? ==> Target(s, step) != Some(id)
  {
  }

  lemma StepKeepsWorkerSteady(p: Limits.Policy, s: State, step: Step, h: HandlerId)
    requires Sound(s) && Exclusive(s) && Careful(p, s, step) && h in Apply(p, s, step).handlers
    ensures WorkerSteady(Apply(p, s, step), h)
  {
    var s' := Apply(p, s, step);
    if Working(s', h) && Settles(s', h) {
      var id := RemittanceOf(s', h);
      if !OnIts(s, h, id) {
        WorkStartsWithAClaim(p, s, step, h, id);
        hide Sound, Exclusive, Careful;
      } else if Actor(step) != Some(h) {
        assert WorkerSteady(s, h);
        OtherHandlersUntouched(p, s, step, h);
        OnlyTheWorkerWrites(p, s, step, h, id);
        hide Sound, Exclusive, Careful, Apply;
      } else {
        assert WorkerSteady(s, h);
        WorkerStaysSteady(p, s, step, h);
        hide Sound, Exclusive, Careful, Apply;
      }
    }
  }

  lemma WorkerStaysSteady(p: Limits.Policy, s: State, step: Step, h: HandlerId)
    requires h in s.handlers && Settles(s, h) && Working(s, h) && WorkerSteady(s, h) && Actor(step) == Some(h)
    requires h in Apply(p, s, step).handlers
    ensures WorkerSteady(Apply(p, s, step), h)
  {
  }

  // -- rows ----------------------------------------------------------------------------------

  /** A remittance no step is about keeps both its status and its entries. */
  lemma OthersStayAgreed(p: Limits.Policy, s: State, step: Step, id: RemittanceId)
    requires Sound(s) && IsRemittance(s, id) && Agrees(s, id) && Target(s, step) != Some(id)
    ensures IsRemittance(Apply(p, s, step), id) && Agrees(Apply(p, s, step), id)
  {
    var s' := Apply(p, s, step);
    OtherRemittancesUntouched(p, s, step, id);
    StepIsSound(p, s, step);
    var credit, refund := CreditEntry(s.tables, id), RefundEntry(s.tables, id);
    if credit in s'.tables.books.entries && credit !in s.tables.books.entries {
      LogMovesOnlyForTarget(p, s, step, credit);
    }
    if refund in s'.tables.books.entries && refund !in s.tables.books.entries {
      LogMovesOnlyForTarget(p, s, step, refund);
    }
    hide Sound, Apply;
  }

  lemma NewRowsAgree(p: Limits.Policy, s: State, step: Step, id: RemittanceId)
    requires Sound(s) && !IsRemittance(s, id) && IsRemittance(Apply(p, s, step), id)
    ensures Agrees(Apply(p, s, step), id)
  {
    NewRowsComeFromRequests(p, s, step);
    assert forall e :: e in s.tables.books.entries ==> RemittanceEntry(s.tables, e) || CashOutEntry(s.tables, e);
    hide Sound;
  }

  /** The two outcomes a worker can write for its own remittance. */
  lemma OutcomeAgrees(p: Limits.Policy, s: State, step: Step, id: RemittanceId)
    requires step.CommitSuccess? || step.CommitFailure?
    requires Sound(s) && Exclusive(s) && OnIts(s, step.h, id)
    ensures IsRemittance(Apply(p, s, step), id) && Agrees(Apply(p, s, step), id)
  {
    assert WorkerSteady(s, step.h) && Agrees(s, id) && HandlerSound(s, step.h);
    if step.CommitSuccess? && s.handlers[step.h].phase.Paid? {
      SuccessSettles(s, step.h, id);
    } else if step.CommitFailure? && s.handlers[step.h].phase.Failing? {
      FailureFails(s, step.h, id);
    }
    hide Sound, Exclusive, Safe;
  }

  lemma SuccessSettles(s: State, h: HandlerId, id: RemittanceId)
    requires Sound(s) && Settles(s, h) && RemittanceOf(s, h) == id && s.handlers[h].phase == Paid(Settling)
    requires !IsCredited(s.tables, id) && !IsRefunded(s.tables, id) && StatusOf(s, id).Settling?
    ensures IsRemittance(CommitSuccessStep(s, h), id) && Agrees(CommitSuccessStep(s, h), id)
  {
  }

  lemma FailureFails(s: State, h: HandlerId, id: RemittanceId)
    requires Settles(s, h) && RemittanceOf(s, h) == id
    requires s.handlers[h].phase.Failing? && s.handlers[h].phase.loaded.Settling?
    requires !IsCredited(s.tables, id) && !IsRefunded(s.tables, id) && StatusOf(s, id).Settling?
    ensures IsRemittance(CommitFailureStep(s, h), id) && Agrees(CommitFailureStep(s, h), id)
  {
  }

  lemma CommitAgrees(p: Limits.Policy, s: State, q: RequestId, id: RemittanceId)
    requires Sound(s) && IsRemittance(s, id) && Agrees(s, id) && RemittanceChecksPass(p, s, Commit(q))
    requires q in s.requests && RequestTarget(s.requests[q]) == Some(id)
    ensures IsRemittance(CommitStep(p, s, q), id) && Agrees(CommitStep(p, s, q), id)
  {
    if s.requests[q].Refunding? {
      RefundAgrees(s, id);
    }
    hide Sound;
  }

  lemma RefundAgrees(s: State, id: RemittanceId)
    requires Sound(s) && IsRemittance(s, id) && !IsCredited(s.tables, id) && !IsRefunded(s.tables, id)
    ensures Refund(s.tables, id).Ok? && IsRefunded(Refund(s.tables, id).value, id)
    ensures !IsCredited(Refund(s.tables, id).value, id)
  {
  }

  lemma StepStaysAgreed(p: Limits.Policy, s: State, step: Step, id: RemittanceId)
    requires Sound(s) && Exclusive(s) && Careful(p, s, step) && IsRemittance(Apply(p, s, step), id)
    ensures Agrees(Apply(p, s, step), id)
  {
    if !IsRemittance(s, id) {
      NewRowsAgree(p, s, step, id);
    } else if Target(s, step) != Some(id) {
      assert Agrees(s, id);
      OthersStayAgreed(p, s, step, id);
    } else if step.Commit? {
      assert Agrees(s, id);
      CommitAgrees(p, s, step.q, id);
    } else if step.Claim? || step.Pay? {
      assert Agrees(s, id);
      ClaimOrPayAgrees(p, s, step, id);
    } else if OnIts(s, step.h, id) {
      OutcomeAgrees(p, s, step, id);
    } else {
      assert Agrees(s, id) && Apply(p, s, step) == s;
    }
    hide Sound, Exclusive, Apply;
  }

  lemma ClaimOrPayAgrees(p: Limits.Policy, s: State, step: Step, id: RemittanceId)
    requires IsRemittance(s, id) && Agrees(s, id) && (step.Claim? || step.Pay?)
    ensures IsRemittance(Apply(p, s, step), id) && Agrees(Apply(p, s, step), id)
  {
  }

  lemma StepStaysExclusive(p: Limits.Policy, s: State, step: Step)
    requires Sound(s) && Exclusive(s) && Careful(p, s, step)
    ensures Exclusive(Apply(p, s, step))
  {
    var s' := Apply(p, s, step);
    hide Sound, Exclusive, Careful, Apply, WorkerSteady, Agrees;
    forall h | h in s'.handlers
      ensures WorkerSteady(s', h)
    {
      StepKeepsWorkerSteady(p, s, step, h);
    }
    forall g, h, id | OnIts(s', g, id) && OnIts(s', h, id)
      ensures g == h
    {
      if g != h {
        StepKeepsWorkersApart(p, s, step, g, h, id);
      }
    }
    forall id: nat | IsRemittance(s', id)
      ensures Agrees(s', id)
    {
      StepStaysAgreed(p, s, step, id);
    }
    AllExclusive(s');
  }

  lemma AllExclusive(s: State)
    requires forall h | h in s.handlers :: WorkerSteady(s, h)
    requires forall g, h, id | OnIts(s, g, id) && OnIts(s, h, id) :: g == h
    requires forall id: nat | IsRemittance(s, id) :: Agrees(s, id)
    ensures Exclusive(s)
  {
  }

  lemma {:induction false} RunStaysExclusive(p: Limits.Policy, s: State, steps: seq<Step>, a: Assumed)
    requires Sound(s) && Exclusive(s) && Run(p, s, steps, a) && a.remittanceChecks && a.oneWorker
    ensures Sound(After(p, s, steps)) && Exclusive(After(p, s, steps))
    decreases |steps|
  {
    if steps != [] {
      StepIsSound(p, s, steps[0]);
      StepStaysExclusive(p, s, steps[0]);
      hide Sound, Exclusive, Apply, RemittanceChecksPass, OneWorkerPerRemittance;
      RunStaysExclusive(p, Apply(p, s, steps[0]), steps[1..], a);
    }
  }

  /** With fresh requests and one worker each, SETTLED means credited and REFUNDED means refunded, both ways. */
  lemma StatusAndLedgerAgree(
    p: Limits.Policy, pool: int, now: Instant, steps: seq<Step>, a: Assumed, id: RemittanceId)
    requires Run(p, Init(pool, now), steps, a) && a.remittanceChecks && a.oneWorker
    requires IsRemittance(After(p, Init(pool, now), steps), id)
    ensures
      var s := After(p, Init(pool, now), steps);
      && (StatusOf(s, id).Settled? <==> IsCredited(s.tables, id))
      && (StatusOf(s, id).Refunded? <==> IsRefunded(s.tables, id))
  {
    InitIsSound(pool, now);
    RunStaysExclusive(p, Init(pool, now), steps, a);
    assert Agrees(After(p, Init(pool, now), steps), id);
  }

  /** ...and then neither status is ever left. */
  lemma {:induction false} FinalStatusIsFinal(
    p: Limits.Policy, s: State, steps: seq<Step>, a: Assumed, id: RemittanceId)
    requires Sound(s) && Exclusive(s) && Run(p, s, steps, a) && a.remittanceChecks && a.oneWorker
    requires IsRemittance(s, id) && (StatusOf(s, id).Settled? || StatusOf(s, id).Refunded?)
    ensures var s' := After(p, s, steps); IsRemittance(s', id) && StatusOf(s', id) == StatusOf(s, id)
    decreases |steps|
  {
    if steps != [] {
      var s1 := Apply(p, s, steps[0]);
      StepIsSound(p, s, steps[0]);
      StepStaysExclusive(p, s, steps[0]);
      assert Agrees(s, id) && Agrees(s1, id);
      assert CreditEntry(s1.tables, id) == CreditEntry(s.tables, id);
      assert RefundEntry(s1.tables, id) == RefundEntry(s.tables, id);
      hide Sound, Exclusive, Apply, RemittanceChecksPass, OneWorkerPerRemittance;
      FinalStatusIsFinal(p, s1, steps[1..], a, id);
    }
  }
}
