/** A remittance leaves QUOTED exactly when its cash-in is confirmed, and only then is it worked on. */
module Funding {
  import opened Wrappers
  import opened Schema
  import opened Transactions
  import opened Stream
  import opened Protocol
  import opened SettlementSafety
  import opened Frames
  import Limits

  predicate FundedExactly(r: Remittance) {
    && (r.status.Quoted? <==> r.cashInConfirmedAt.None?)
    && (r.status.Quoted? <==> r.quoteExpiresAt.Some?)
  }

  predicate IsFunded(s: State, id: RemittanceId) {
    IsRemittance(s, id) && s.tables.remittances[id].cashInConfirmedAt.Some?
  }

  ghost predicate RequestFunded(s: State, r: Request) {
    (r.Queueing? ==> IsFunded(s, r.remittance))
    && (r.Requeueing? ==> IsFunded(s, r.remittance))
    && (r.Refunding? ==> IsFunded(s, r.remittance))
  }

  ghost predicate RowFunded(s: State, id: RemittanceId)
    requires IsRemittance(s, id)
  {
    && FundedExactly(s.tables.remittances[id])
    && (s.trails[id].submitted > 0 || s.trails[id].lastClaim.Some? ==> IsFunded(s, id))
  }

  ghost predicate Funded(s: State) {
    && |s.trails| == |s.tables.remittances|
    && (forall id: nat :: id < |s.trails| ==> RowFunded(s, id))
    && (forall h :: h in s.handlers && Working(s, h) && Settles(s, h) ==> IsFunded(s, RemittanceOf(s, h)))
    && (forall q :: q in s.requests ==> RequestFunded(s, s.requests[q]))
  }

  // -- one object at a time ----------------------------------------------------------

  lemma CommitFundsRow(p: Limits.Policy, s: State, q: RequestId, id: RemittanceId)
    requires Funded(s) && IsRemittance(CommitStep(p, s, q), id)
    requires q in s.requests && (RequestTarget(s.requests[q]) == Some(id) || s.requests[q].Quoting?)
    ensures RowFunded(CommitStep(p, s, q), id)
    ensures IsFunded(s, id) ==> IsFunded(CommitStep(p, s, q), id)
  {
    assert RequestFunded(s, s.requests[q]);
    if IsRemittance(s, id) {
      assert RowFunded(s, id);
    }
    hide Funded;
  }

  lemma StepFundsRow(p: Limits.Policy, s: State, step: Step, id: RemittanceId)
    requires Funded(s) && IsRemittance(Apply(p, s, step), id)
    ensures RowFunded(Apply(p, s, step), id)
    ensures IsFunded(s, id) ==> IsFunded(Apply(p, s, step), id)
  {
    if IsRemittance(s, id) {
      assert RowFunded(s, id);
    }
    if IsRemittance(s, id) && Target(s, step) != Some(id) {
      OtherRemittancesUntouched(p, s, step, id);
    } else if step.Commit? {
      NewRowsComeFromRequests(p, s, step);
      CommitFundsRow(p, s, step.q, id);
    } else {
      NewRowsComeFromRequests(p, s, step);
      if Working(s, step.h) {
        assert IsFunded(s, RemittanceOf(s, step.h));
      }
    }
    hide CommitStep, Funded;
  }

  lemma StepFundsHandler(p: Limits.Policy, s: State, step: Step, h: HandlerId)
    requires Sound(s) && Funded(s)
    requires var s' := Apply(p, s, step); h in s'.handlers && Working(s', h) && Settles(s', h)
    ensures IsFunded(s, RemittanceOf(Apply(p, s, step), h))
  {
    var s' := Apply(p, s, step);
    if h !in s.handlers {
      NewHandlersWait(p, s, step, h);
    } else {
      HandlersKeepTheirEntry(p, s, step, h);
      StreamMovesOnlyBy(p, s, step);
      assert HandlerSound(s, h);
      assert MessageOf(s', h) == MessageOf(s, h) && MessageKnown(s, MessageOf(s, h));
      if Working(s, h) {
        assert IsFunded(s, RemittanceOf(s, h));
      } else {
        assert RowFunded(s, RemittanceOf(s, h));
        OnlyAClaimStartsWork(p, s, step, h);
      }
    }
    hide Sound, Funded, Apply;
  }

  lemma OnlyAClaimStartsWork(p: Limits.Policy, s: State, step: Step, h: HandlerId)
    requires h in s.handlers && !Working(s, h) && Working(Apply(p, s, step), h) && Settles(s, h)
    ensures step == Claim(h) && Claimable(StatusOf(s, RemittanceOf(s, h)), s.handlers[h].reclaimed)
  {
    if Actor(step) != Some(h) {
      OtherHandlersUntouched(p, s, step, h);
    }
    hide CommitStep;
  }

  lemma StepFundsRequest(p: Limits.Policy, s: State, step: Step, q: RequestId)
    requires Funded(s) && q in Apply(p, s, step).requests
    ensures RequestFunded(s, Apply(p, s, step).requests[q])
  {
    if q in s.requests {
      assert RequestFunded(s, s.requests[q]);
    }
    if RequestActor(step) != Some(q) {
      OtherRequestsUntouched(p, s, step, q);
    } else if step.Begin? && (step.request.Queueing? || step.request.Requeueing? || step.request.Refunding?) {
      if IsRemittance(s, step.request.remittance) {
        assert RowFunded(s, step.request.remittance);
      }
    }
    hide Funded, CommitStep;
  }

  lemma StepStaysFunded(p: Limits.Policy, s: State, step: Step)
    requires Sound(s) && Funded(s)
    ensures Funded(Apply(p, s, step))
  {
    var s' := Apply(p, s, step);
    StepIsSound(p, s, step);
    hide Sound, Funded, Apply, RowFunded, RequestFunded;
    forall id: nat | IsRemittance(s', id)
      ensures RowFunded(s', id) && (IsFunded(s, id) ==> IsFunded(s', id))
    {
      StepFundsRow(p, s, step, id);
    }
    forall h | h in s'.handlers && Working(s', h) && Settles(s', h)
      ensures IsFunded(s, RemittanceOf(s', h))
    {
      StepFundsHandler(p, s, step, h);
    }
    forall q | q in s'.requests
      ensures RequestFunded(s, s'.requests[q])
    {
      StepFundsRequest(p, s, step, q);
    }
    AllFunded(s, s');
  }

  lemma AllFunded(s: State, s': State)
    requires |s.trails| == |s.tables.remittances| <= |s'.trails| == |s'.tables.remittances|
    requires forall id: nat | IsRemittance(s', id) :: RowFunded(s', id) && (IsFunded(s, id) ==> IsFunded(s', id))
    requires forall h | h in s'.handlers && Working(s', h) && Settles(s', h) :: IsFunded(s, RemittanceOf(s', h))
    requires forall q | q in s'.requests :: RequestFunded(s, s'.requests[q])
    ensures Funded(s')
  {
  }

  lemma {:induction false} RunStaysFunded(p: Limits.Policy, s: State, steps: seq<Step>)
    requires Sound(s) && Funded(s)
    ensures Funded(After(p, s, steps)) && Sound(After(p, s, steps))
    decreases |steps|
  {
    if steps != [] {
      hide Sound, Funded, Apply;
      StepIsSound(p, s, steps[0]);
      StepStaysFunded(p, s, steps[0]);
      RunStaysFunded(p, Apply(p, s, steps[0]), steps[1..]);
    }
  }

  /** No payment is submitted for a remittance before its cash-in is confirmed. */
  lemma NothingSubmittedBeforeCashIn(p: Limits.Policy, pool: int, now: Instant, steps: seq<Step>, id: RemittanceId)
    requires IsRemittance(After(p, Init(pool, now), steps), id)
    ensures var s := After(p, Init(pool, now), steps);
            && (s.trails[id].submitted > 0 ==> s.tables.remittances[id].cashInConfirmedAt.Some?)
            && (StatusOf(s, id).Quoted? <==> s.tables.remittances[id].cashInConfirmedAt.None?)
  {
    InitIsSound(pool, now);
    RunStaysFunded(p, Init(pool, now), steps);
    assert RowFunded(After(p, Init(pool, now), steps), id);
  }
}
