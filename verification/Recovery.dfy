/**
 No paid-in remittance is stranded, as long as an unacked message is
 handed over only after its earlier handler has stopped.
 */
module Recovery {
  import opened Wrappers
  import opened Schema
  import opened Bookkeeping
  import opened Transactions
  import opened Stream
  import opened Protocol
  import opened TableSafety
  import opened SettlementSafety
  import opened Frames
  import opened Funding
  import Limits

  // -- the invariant -------------------------------------------------------------------

  /** The message of the latest claim on a remittance that is being settled. */
  predicate HeldBy(s: State, id: RemittanceId, e: EntryId)
    requires IsRemittance(s, id)
  {
    StatusOf(s, id).Settling? && s.trails[id].lastClaim == Some(e)
  }

  ghost predicate RowRecoverable(s: State, id: RemittanceId)
    requires IsRemittance(s, id)
  {
    StatusOf(s, id).Settling? ==> s.trails[id].lastClaim.Some? && s.trails[id].lastClaim.value in s.stream.pending
  }

  /** What a handler knows about the remittance it settles. */
  ghost predicate HandlerOrderly(s: State, h: HandlerId)
    requires h in s.handlers
  {
    var x := s.handlers[h];
    && x.entry in s.stream.pending
    && (Settles(s, h) ==>
          var id := RemittanceOf(s, h);
          && (x.phase.Waiting? && !x.reclaimed ==> s.trails[id].lastClaim != Some(x.entry))
          && (x.phase.Finished? ==> !HeldBy(s, id, x.entry))
          && (x.phase.Failing? && x.phase.loaded.Failed? ==> !HeldBy(s, id, x.entry))
          && (x.phase.Ready? && x.phase.loaded.Settled? ==> IsCredited(s.tables, id))
          && (x.phase.Paid? && x.phase.loaded.Settled? ==> IsCredited(s.tables, id)))
  }

  ghost predicate OneHandlerPerMessage(s: State) {
    forall g, h :: g in s.handlers && h in s.handlers && g != h ==> s.handlers[g].entry != s.handlers[h].entry
  }

  ghost predicate Recoverable(s: State) {
    && OneHandlerPerMessage(s)
    && (forall h :: h in s.handlers ==> HandlerOrderly(s, h))
    && (forall id: nat :: IsRemittance(s, id) ==> RowRecoverable(s, id))
  }

  // -- one object at a time ----------------------------------------------------------------

  lemma MessagesStaySingle(p: Limits.Policy, s: State, step: Step, g: HandlerId, h: HandlerId)
    requires Sound(s) && Recoverable(s) && HandoverAfterStop(s, step)
    requires var s' := Apply(p, s, step); g in s'.handlers && h in s'.handlers && g != h
    requires g in s.handlers
    ensures var s' := Apply(p, s, step); s'.handlers[g].entry != s'.handlers[h].entry
  {
    HandlersKeepTheirEntry(p, s, step, g);
    if h in s.handlers {
      HandlersKeepTheirEntry(p, s, step, h);
    } else {
      NewHandlersWait(p, s, step, h);
      assert HandlerSound(s, g);
    }
    hide Sound, Apply;
  }

  lemma AtMostOneStarts(p: Limits.Policy, s: State, step: Step, g: HandlerId, h: HandlerId)
    requires var s' := Apply(p, s, step); g in s'.handlers && h in s'.handlers && g != h
    ensures g in s.handlers || h in s.handlers
  {
    if g !in s.handlers && h !in s.handlers {
      NewHandlersWait(p, s, step, g);
      NewHandlersWait(p, s, step, h);
    }
    hide Apply;
  }

  /** Only a claim makes a remittance SETTLING, and it leaves its message behind as the latest claim. */
  lemma OnlyClaimsSettle(p: Limits.Policy, s: State, step: Step, id: RemittanceId)
    requires |s.trails| == |s.tables.remittances|
    requires IsRemittance(Apply(p, s, step), id) && StatusOf(Apply(p, s, step), id).Settling?
    ensures
      var s' := Apply(p, s, step);
      || (IsRemittance(s, id) && StatusOf(s, id).Settling? && s'.trails[id].lastClaim == s.trails[id].lastClaim)
      || (step.Claim? && step.h in s.handlers && Settles(s, step.h) && RemittanceOf(s, step.h) == id
          && InPhase(s, step.h, Waiting) && s'.trails[id].lastClaim == Some(s.handlers[step.h].entry))
  {
    if IsRemittance(s, id) && Target(s, step) != Some(id) {
      OtherRemittancesUntouched(p, s, step, id);
    } else if step.Commit? {
      CommitNeverSettles(p, s, step.q, id);
    } else {
      NewRowsComeFromRequests(p, s, step);
    }
    hide CommitStep;
  }

  lemma CommitNeverSettles(p: Limits.Policy, s: State, q: RequestId, id: RemittanceId)
    requires |s.trails| == |s.tables.remittances|
    requires IsRemittance(CommitStep(p, s, q), id) && StatusOf(CommitStep(p, s, q), id).Settling?
    ensures IsRemittance(s, id) && StatusOf(s, id).Settling?
    ensures CommitStep(p, s, q).trails[id].lastClaim == s.trails[id].lastClaim
  {
  }

  lemma StepKeepsRowRecoverable(p: Limits.Policy, s: State, step: Step, id: RemittanceId)
    requires Sound(s) && Recoverable(s) && IsRemittance(Apply(p, s, step), id)
    ensures RowRecoverable(Apply(p, s, step), id)
  {
    var s' := Apply(p, s, step);
    if StatusOf(s', id).Settling? {
      OnlyClaimsSettle(p, s, step, id);
      StreamMovesOnlyBy(p, s, step);
      if step.Claim? && step.h in s.handlers {
        assert HandlerOrderly(s, step.h);
      }
      if IsRemittance(s, id) {
        assert RowRecoverable(s, id) && TrailSound(s, id);
      }
      PendingLosesOnlyAcked(p, s, step);
      if step.Ack? && step.h in s.handlers {
        assert HandlerOrderly(s, step.h) && HandlerSound(s, step.h);
      }
    }
    hide Sound, Recoverable, Apply;
  }

  lemma PendingLosesOnlyAcked(p: Limits.Policy, s: State, step: Step)
    ensures forall e :: e in s.stream.pending && e !in Apply(p, s, step).stream.pending ==>
              step.Ack? && InPhase(s, step.h, Finished) && s.handlers[step.h].entry == e
  {
    StreamMovesOnlyBy(p, s, step);
    hide CommitStep;
  }

  lemma LatestClaimMovesOnlyByClaim(p: Limits.Policy, s: State, step: Step, id: RemittanceId)
    requires IsRemittance(s, id) && IsRemittance(Apply(p, s, step), id)
    ensures
      var s' := Apply(p, s, step);
      || s'.trails[id].lastClaim == s.trails[id].lastClaim
      || (step.Claim? && step.h in s.handlers && s'.trails[id].lastClaim == Some(s.handlers[step.h].entry))
  {
    if Target(s, step) != Some(id) {
      OtherRemittancesUntouched(p, s, step, id);
    }
  }

  /** A handler that is not the one moving keeps its message... */
  lemma BystanderKeepsMessage(p: Limits.Policy, s: State, step: Step, h: HandlerId)
    requires Recoverable(s) && h in s.handlers && h in Apply(p, s, step).handlers && Actor(step) != Some(h)
    ensures var s' := Apply(p, s, step); s'.handlers[h] == s.handlers[h] && s'.handlers[h].entry in s'.stream.pending
  {
    OtherHandlersUntouched(p, s, step, h);
    PendingLosesOnlyAcked(p, s, step);
    assert HandlerOrderly(s, h);
    hide Apply;
  }

  /** ...and what it knows of its remittance stays true. */
  lemma BystanderStaysOrderly(p: Limits.Policy, s: State, step: Step, h: HandlerId)
    requires Sound(s) && Recoverable(s) && h in s.handlers && h in Apply(p, s, step).handlers
    requires Actor(step) != Some(h)
    ensures HandlerOrderly(Apply(p, s, step), h)
  {
    var s' := Apply(p, s, step);
    BystanderKeepsMessage(p, s, step, h);
    BystanderKeepsItsRemittance(p, s, step, h);
    assert HandlerOrderly(s, h);
    assert step.Claim? && step.h in s.handlers ==> s.handlers[step.h].entry != s.handlers[h].entry;
    hide Sound, Recoverable, Apply, HandlerOrderly, IsCredited;
    if Settles(s', h) {
      var id := RemittanceOf(s, h);
      LatestClaimMovesOnlyByClaim(p, s, step, id);
      if StatusOf(s', id).Settling? {
        OnlyClaimsSettle(p, s, step, id);
      }
    }
    OrderlyBeside(s, s', h);
  }

  /** What a handler knows survives as long as no other message becomes the row's latest claim through its own. */
  lemma OrderlyBeside(s: State, s': State, h: HandlerId)
    requires h in s.handlers && h in s'.handlers && s'.handlers[h] == s.handlers[h] && HandlerOrderly(s, h)
    requires s'.handlers[h].entry in s'.stream.pending
    requires Settles(s', h) ==>
               && Settles(s, h) && RemittanceOf(s', h) == RemittanceOf(s, h)
               && var id, e := RemittanceOf(s, h), s.handlers[h].entry;
                  && (IsCredited(s.tables, id) ==> IsCredited(s'.tables, id))
                  && (s'.trails[id].lastClaim == s.trails[id].lastClaim || s'.trails[id].lastClaim != Some(e))
                  && (HeldBy(s', id, e) ==> HeldBy(s, id, e))
    ensures HandlerOrderly(s', h)
  {
  }

  lemma BystanderKeepsItsRemittance(p: Limits.Policy, s: State, step: Step, h: HandlerId)
    requires Sound(s) && h in s.handlers && h in Apply(p, s, step).handlers
    requires Apply(p, s, step).handlers[h] == s.handlers[h]
    ensures
      var s' := Apply(p, s, step);
      && |s.trails| == |s.tables.remittances|
      && (Settles(s', h) ==>
            && Settles(s, h) && RemittanceOf(s', h) == RemittanceOf(s, h)
            && (IsCredited(s.tables, RemittanceOf(s, h)) ==> IsCredited(s'.tables, RemittanceOf(s, h))))
  {
    var s' := Apply(p, s, step);
    StreamMovesOnlyBy(p, s, step);
    StepIsSound(p, s, step);
    PartsAreSound(s);
    HandlerIsSound(s, h);
    assert MessageOf(s', h) == MessageOf(s, h) && MessageKnown(s, MessageOf(s, h));
    if Settles(s', h) {
      assert CreditEntry(s'.tables, RemittanceOf(s, h)) == CreditEntry(s.tables, RemittanceOf(s, h));
    }
    hide Sound, Safe, Apply;
  }

  lemma ClaimerStaysOrderly(s: State, h: HandlerId)
    requires Sound(s) && Recoverable(s) && h in s.handlers
    ensures HandlerOrderly(ClaimStep(s, h), h)
  {
    assert HandlerOrderly(s, h) && HandlerSound(s, h);
    if Settles(s, h) {
      assert RowRecoverable(s, RemittanceOf(s, h));
    }
    hide Sound, Recoverable;
  }

  lemma LookupStaysOrderly(s: State, h: HandlerId, r: Resolution, reply: Reply)
    requires Sound(s) && Recoverable(s) && h in s.handlers
    ensures HandlerOrderly(ResolveStep(s, h, r), h) && HandlerOrderly(PayStep(s, h, reply), h)
    ensures HandlerOrderly(LoadForFailureStep(s, h), h) && HandlerOrderly(BurnStep(s, h, reply), h)
  {
    assert HandlerOrderly(s, h) && HandlerSound(s, h);
    if Settles(s, h) {
      assert Backed(s.tables, RemittanceOf(s, h));
    }
    hide Sound, Recoverable;
  }

  lemma OutcomeStaysOrderly(s: State, h: HandlerId)
    requires Sound(s) && Recoverable(s) && h in s.handlers
    ensures h in CommitSuccessStep(s, h).handlers ==> HandlerOrderly(CommitSuccessStep(s, h), h)
    ensures HandlerOrderly(CommitFailureStep(s, h), h)
  {
    assert HandlerOrderly(s, h) && HandlerSound(s, h);
    if Settles(s, h) {
      CreditedCannotBeRecordedAgain(s.tables, RemittanceOf(s, h), Settled);
    }
    hide Sound, Recoverable;
  }

  lemma CreditedCannotBeRecordedAgain(t: Tables, id: RemittanceId, loaded: RemittanceStatus)
    requires id < |t.remittances|
    ensures IsCredited(t, id) ==> RecordSuccess(t, id, loaded).Err?
  {
  }

  lemma BurnerStaysOrderly(p: Limits.Policy, s: State, step: Step, h: HandlerId)
    requires Sound(s) && Recoverable(s) && h in s.handlers && h in Apply(p, s, step).handlers
    requires step == CommitBurn(h) || step == CommitReversal(h) || step == Ack(h) || step == Crash(h)
             || step.ReadNew? || step.Reclaim?
    requires Actor(step) == Some(h)
    ensures HandlerOrderly(Apply(p, s, step), h)
  {
    assert HandlerOrderly(s, h) && HandlerSound(s, h);
    hide Sound, Recoverable;
  }

  lemma StepKeepsHandlerOrderly(p: Limits.Policy, s: State, step: Step, h: HandlerId)
    requires Sound(s) && Recoverable(s) && HandoverAfterStop(s, step) && h in Apply(p, s, step).handlers
    ensures HandlerOrderly(Apply(p, s, step), h)
  {
    if h !in s.handlers {
      NewcomerIsOrderly(p, s, step, h);
    } else if Actor(step) != Some(h) {
      BystanderStaysOrderly(p, s, step, h);
    } else {
      match step
      case Claim(_) => ClaimerStaysOrderly(s, h);
      case Resolve(_, r) => LookupStaysOrderly(s, h, r, NotSubmitted);
      case Pay(_, reply) => LookupStaysOrderly(s, h, Resolved, reply);
      case LoadForFailure(_) => LookupStaysOrderly(s, h, Resolved, NotSubmitted);
      case Burn(_, reply) => LookupStaysOrderly(s, h, Resolved, reply);
      case CommitSuccess(_) => OutcomeStaysOrderly(s, h);
      case CommitFailure(_) => OutcomeStaysOrderly(s, h);
      case _ => BurnerStaysOrderly(p, s, step, h);
    }
    hide Sound, Recoverable, HandlerOrderly, CommitStep, ClaimStep, ResolveStep, PayStep, LoadForFailureStep,
         BurnStep, CommitSuccessStep, CommitFailureStep;
  }

  lemma NewcomerIsOrderly(p: Limits.Policy, s: State, step: Step, h: HandlerId)
    requires Sound(s) && Recoverable(s) && h !in s.handlers && h in Apply(p, s, step).handlers
    ensures HandlerOrderly(Apply(p, s, step), h)
  {
    NewHandlersWait(p, s, step, h);
    var s' := Apply(p, s, step);
    if Settles(s', h) {
      assert TrailSound(s, RemittanceOf(s', h));
    }
    hide Sound, Recoverable, CommitStep;
  }

  lemma StepStaysRecoverable(p: Limits.Policy, s: State, step: Step)
    requires Sound(s) && Recoverable(s) && HandoverAfterStop(s, step)
    ensures Recoverable(Apply(p, s, step))
  {
    var s' := Apply(p, s, step);
    forall g, h | g in s'.handlers && h in s'.handlers && g != h
      ensures s'.handlers[g].entry != s'.handlers[h].entry
    {
      hide Sound, Recoverable, HandoverAfterStop, Apply;
      AtMostOneStarts(p, s, step, g, h);
      if g in s.handlers {
        MessagesStaySingle(p, s, step, g, h);
      } else {
        MessagesStaySingle(p, s, step, h, g);
      }
    }
    forall h | h in s'.handlers
      ensures HandlerOrderly(s', h)
    {
      hide Sound, Recoverable, HandoverAfterStop, Apply;
      StepKeepsHandlerOrderly(p, s, step, h);
    }
    forall id: nat | IsRemittance(s', id)
      ensures RowRecoverable(s', id)
    {
      hide Sound, Recoverable, HandoverAfterStop, Apply;
      StepKeepsRowRecoverable(p, s, step, id);
    }
    hide Apply;
  }

  lemma {:induction false} RunStaysRecoverable(p: Limits.Policy, s: State, steps: seq<Step>, a: Assumed)
    requires Sound(s) && Recoverable(s) && Run(p, s, steps, a) && a.handover
    ensures Sound(After(p, s, steps)) && Recoverable(After(p, s, steps))
    decreases |steps|
  {
    if steps != [] {
      hide Sound, Recoverable, Apply, HandoverAfterStop;
      StepIsSound(p, s, steps[0]);
      StepStaysRecoverable(p, s, steps[0]);
      RunStaysRecoverable(p, Apply(p, s, steps[0]), steps[1..], a);
    }
  }

  lemma InitIsRecoverable(pool: int, now: Instant)
    ensures Sound(Init(pool, now)) && Funded(Init(pool, now)) && Recoverable(Init(pool, now))
  {
  }

  /**
   In every run with crashes anywhere, a paid-in remittance is finished, is
   somewhere an administrator can act on, or still has its message unacked.
   */
  lemma NoPaidInRemittanceIsStranded(
    p: Limits.Policy, pool: int, now: Instant, steps: seq<Step>, a: Assumed, id: RemittanceId)
    requires Run(p, Init(pool, now), steps, a) && a.handover
    requires IsFunded(After(p, Init(pool, now), steps), id)
    ensures
      var s := After(p, Init(pool, now), steps);
      var status := StatusOf(s, id);
      || status.Settled? || status.Refunded?
      || status.CashInConfirmed? || status.Queued? || status.Failed?
      || (status.Settling? && s.trails[id].lastClaim.Some? && s.trails[id].lastClaim.value in s.stream.pending)
  {
    InitIsRecoverable(pool, now);
    RunStaysRecoverable(p, Init(pool, now), steps, a);
    RunStaysFunded(p, Init(pool, now), steps);
    var s := After(p, Init(pool, now), steps);
    assert RowRecoverable(s, id) && RowFunded(s, id);
  }

  // -- from every reachable state the money can still be resolved ---------------------------

  ghost predicate IsResolved(t: Tables, id: RemittanceId) {
    IsCredited(t, id) || IsRefunded(t, id)
  }

  // Raised burns did not land, handovers are clean, and requests write what they checked.
  const ORDERLY := Assumed(true, true, true, true, false)

  lemma {:induction false} RunConcat(p: Limits.Policy, s: State, xs: seq<Step>, ys: seq<Step>, a: Assumed)
    requires Run(p, s, xs, a) && Run(p, After(p, s, xs), ys, a)
    ensures Run(p, s, xs + ys, a)
    ensures After(p, s, xs + ys) == After(p, After(p, s, xs), ys)
    decreases |xs|
  {
    if xs == [] {
      assert xs + ys == ys;
    } else {
      hide Apply, Permitted;
      assert (xs + ys)[0] == xs[0] && (xs + ys)[1..] == xs[1..] + ys;
      RunConcat(p, Apply(p, s, xs[0]), xs[1..], ys, a);
    }
  }

  lemma SingleStep(p: Limits.Policy, s: State, step: Step, a: Assumed)
    requires Permitted(p, s, step, a)
    ensures Run(p, s, [step], a) && After(p, s, [step]) == Apply(p, s, step)
  {
  }

  lemma ThenStep(p: Limits.Policy, s: State, xs: seq<Step>, step: Step, a: Assumed)
    requires Run(p, s, xs, a) && Permitted(p, After(p, s, xs), step, a)
    ensures Run(p, s, xs + [step], a)
    ensures After(p, s, xs + [step]) == Apply(p, After(p, s, xs), step)
  {
    hide Apply, Permitted;
    SingleStep(p, After(p, s, xs), step, a);
    RunConcat(p, s, xs, [step], a);
  }

  ghost predicate Reaches(p: Limits.Policy, s: State, s': State, a: Assumed) {
    exists steps :: Run(p, s, steps, a) && After(p, s, steps) == s'
  }

  lemma ReachesItself(p: Limits.Policy, s: State, a: Assumed)
    ensures Reaches(p, s, s, a)
  {
    assert Run(p, s, [], a) && After(p, s, []) == s;
  }

  /** One more step. */
  lemma Next(p: Limits.Policy, s: State, at: State, step: Step, a: Assumed)
    requires Reaches(p, s, at, a) && Permitted(p, at, step, a)
    ensures Reaches(p, s, Apply(p, at, step), a)
  {
    var steps :| Run(p, s, steps, a) && After(p, s, steps) == at;
    ThenStep(p, s, steps, step, a);
    hide *;
  }

  lemma FinalKeyIsFreeUntilResolved(t: Tables, id: RemittanceId)
    requires Safe(t) && id < |t.remittances| && !IsResolved(t, id)
    ensures !KeyTaken(t.books.entries, KeyOf(CreditEntry(t, id)))
    ensures !KeyTaken(t.books.entries, KeyOf(SentEntry(t, id)))
  {
    assert Backed(t, id);
    forall e | e in t.books.entries
      ensures KeyOf(e) != KeyOf(CreditEntry(t, id)) && KeyOf(e) != KeyOf(SentEntry(t, id))
    {
      assert RemittanceEntry(t, e) || CashOutEntry(t, e);
    }
  }

  /** A waiting handler that may claim, resolve, pay and record settles its remittance. */
  lemma HandlerCanSettle(p: Limits.Policy, s: State, h: HandlerId) returns (steps: seq<Step>)
    requires Sound(s) && InPhase(s, h, Waiting) && Settles(s, h)
    requires Claimable(StatusOf(s, RemittanceOf(s, h)), s.handlers[h].reclaimed)
    requires !IsResolved(s.tables, RemittanceOf(s, h))
    ensures Run(p, s, steps, ORDERLY) && IsResolved(After(p, s, steps).tables, RemittanceOf(s, h))
  {
    var id := RemittanceOf(s, h);
    FinalKeyIsFreeUntilResolved(s.tables, id);
    assert RemittancePriced(s.tables.remittances[id]);
    ClaimThenPay(s, h);
    SettlingSucceeds(PayStep(ResolveStep(ClaimStep(s, h), h, Resolved), h, Validated), h, id);
    steps := ClaimPayRecord(p, s, h);
    hide *;
  }

  lemma ClaimPayRecord(p: Limits.Policy, s: State, h: HandlerId) returns (steps: seq<Step>)
    ensures Run(p, s, steps, ORDERLY)
    ensures After(p, s, steps) ==
            CommitSuccessStep(PayStep(ResolveStep(ClaimStep(s, h), h, Resolved), h, Validated), h)
  {
    hide Run, After, ClaimStep, ResolveStep, PayStep, CommitSuccessStep;
    SingleStep(p, s, Claim(h), ORDERLY);
    ThenStep(p, s, [Claim(h)], Resolve(h, Resolved), ORDERLY);
    ThenStep(p, s, [Claim(h)] + [Resolve(h, Resolved)], Pay(h, Validated), ORDERLY);
    ThenStep(p, s, [Claim(h)] + [Resolve(h, Resolved)] + [Pay(h, Validated)], CommitSuccess(h), ORDERLY);
    steps := [Claim(h)] + [Resolve(h, Resolved)] + [Pay(h, Validated)] + [CommitSuccess(h)];
  }

  lemma ClaimThenPay(s: State, h: HandlerId)
    requires InPhase(s, h, Waiting) && Settles(s, h)
    requires Claimable(StatusOf(s, RemittanceOf(s, h)), s.handlers[h].reclaimed)
    ensures
      var s3 := PayStep(ResolveStep(ClaimStep(s, h), h, Resolved), h, Validated);
      && Settles(s3, h) && RemittanceOf(s3, h) == RemittanceOf(s, h) && s3.handlers[h].phase.Paid?
      && s3.tables.books == s.tables.books
      && SameTransfer(s.tables.remittances[RemittanceOf(s, h)], s3.tables.remittances[RemittanceOf(s, h)])
  {
  }

  lemma SettlingSucceeds(s: State, h: HandlerId, id: RemittanceId)
    requires Settles(s, h) && RemittanceOf(s, h) == id && s.handlers[h].phase.Paid?
    requires RemittancePriced(s.tables.remittances[id])
    requires !KeyTaken(s.tables.books.entries, KeyOf(CreditEntry(s.tables, id)))
    requires !KeyTaken(s.tables.books.entries, KeyOf(SentEntry(s.tables, id)))
    ensures IsResolved(CommitSuccessStep(s, h).tables, id)
  {
  }

  // -- getting a message to a handler --------------------------------------------------------

  lemma {:induction false} FreshId<T>(m: map<nat, T>) returns (id: nat)
    ensures id !in m
  {
    id := FreshAbove(m.Keys);
  }

  lemma {:induction false} FreshAbove(ids: set<nat>) returns (id: nat)
    ensures forall i :: i in ids ==> i < id
    decreases |ids|
  {
    if ids == {} {
      id := 0;
    } else {
      var x :| x in ids;
      var rest := FreshAbove(ids - {x});
      assert forall i :: i in ids ==> i == x || i in ids - {x};
      id := if x < rest then rest else x + 1;
    }
  }

  /** Delivering the backlog, without claiming any of it, brings the newest message to a fresh handler. */
  lemma {:induction false} DeliverNewest(p: Limits.Policy, s: State) returns (steps: seq<Step>, h: HandlerId)
    requires s.stream.delivered < |s.stream.messages|
    ensures Run(p, s, steps, ORDERLY)
    ensures
      var s' := After(p, s, steps);
      && InPhase(s', h, Waiting) && !s'.handlers[h].reclaimed
      && s'.handlers[h].entry == |s.stream.messages| - 1
      && s'.tables == s.tables && s'.trails == s.trails && s'.stream.messages == s.stream.messages
    decreases |s.stream.messages| - s.stream.delivered
  {
    h := FreshId(s.handlers);
    var step := ReadNew(h, "worker");
    SingleStep(p, s, step, ORDERLY);
    var s1 := Apply(p, s, step);
    if s1.stream.delivered == |s.stream.messages| {
      steps := [step];
    } else {
      var more;
      more, h := DeliverNewest(p, s1);
      RunConcat(p, s, [step], more, ORDERLY);
      steps := [step] + more;
    }
  }

  /** Publishing again makes sure there is a message to deliver. */
  lemma Republish(p: Limits.Policy, s: State, id: RemittanceId) returns (steps: seq<Step>)
    requires IsRemittance(s, id) && (StatusOf(s, id).CashInConfirmed? || StatusOf(s, id).Queued?)
    requires s.stream.delivered <= |s.stream.messages|
    ensures Run(p, s, steps, ORDERLY)
    ensures
      var s' := After(p, s, steps);
      && IsRemittance(s', id) && StatusOf(s', id).Queued?
      && s'.stream.delivered < |s'.stream.messages|
      && s'.stream.messages[|s'.stream.messages| - 1] == SettleRemittance(id)
      && s'.tables.books == s.tables.books
      && SameTransfer(s.tables.remittances[id], s'.tables.remittances[id])
  {
    var q := FreshId(s.requests);
    var begin := Begin(q, Queueing(id, StatusOf(s, id), false));
    SingleStep(p, s, begin, ORDERLY);
    var s1 := BeginStep(p, s, q, Queueing(id, StatusOf(s, id), false));
    ThenStep(p, s, [begin], Publish(q), ORDERLY);
    var s2 := PublishStep(s1, q);
    ThenStep(p, s, [begin] + [Publish(q)], Commit(q), ORDERLY);
    steps := [begin] + [Publish(q)] + [Commit(q)];
  }

  /** A message left pending by a stopped or abandoned handler can be taken over. */
  lemma TakeOver(p: Limits.Policy, s: State, e: EntryId) returns (steps: seq<Step>, h: HandlerId)
    requires OneHandlerPerMessage(s) && e in s.stream.pending
    ensures Run(p, s, steps, ORDERLY)
    ensures
      var s' := After(p, s, steps);
      && InPhase(s', h, Waiting) && s'.handlers[h].reclaimed && s'.handlers[h].entry == e
      && s'.tables == s.tables && s'.trails == s.trails && s'.stream.messages == s.stream.messages
  {
    h := FreshId(s.handlers);
    var take := Reclaim(h, e, "worker");
    if g :| g in s.handlers && s.handlers[g].entry == e {
      SingleStep(p, s, Crash(g), ORDERLY);
      assert HandoverAfterStop(Stopped(s, g), take);
      ThenStep(p, s, [Crash(g)], take, ORDERLY);
      steps := [Crash(g)] + [take];
    } else {
      SingleStep(p, s, take, ORDERLY);
      steps := [take];
    }
  }

  // -- the theorem -----------------------------------------------------------------------------

  /** SETTLING: the message of the latest claim is still there to be taken over. */
  lemma SettlingResolves(p: Limits.Policy, s: State, id: RemittanceId) returns (steps: seq<Step>)
    requires Sound(s) && Recoverable(s) && IsRemittance(s, id) && StatusOf(s, id).Settling? && !IsResolved(s.tables, id)
    ensures Run(p, s, steps, ORDERLY) && IsResolved(After(p, s, steps).tables, id)
  {
    assert RowRecoverable(s, id) && TrailSound(s, id);
    assert OneHandlerPerMessage(s);
    hide Sound, Recoverable, OneHandlerPerMessage, IsResolved, Run, After;
    var h;
    steps, h := TakeOver(p, s, s.trails[id].lastClaim.value);
    SameTablesSameResolution(s.tables, After(p, s, steps).tables, id);
    steps := ResolveAfter(p, s, steps, h, id);
  }

  lemma SameTablesSameResolution(t: Tables, t': Tables, id: RemittanceId)
    requires t' == t
    ensures IsResolved(t', id) == IsResolved(t, id)
  {
  }

  /** CASH_IN_CONFIRMED or QUEUED: it can be published again and settled. */
  lemma WaitingResolves(p: Limits.Policy, s: State, id: RemittanceId) returns (steps: seq<Step>)
    requires Sound(s) && IsRemittance(s, id) && (StatusOf(s, id).CashInConfirmed? || StatusOf(s, id).Queued?)
    requires !IsResolved(s.tables, id)
    ensures Run(p, s, steps, ORDERLY) && IsResolved(After(p, s, steps).tables, id)
  {
    hide Sound, IsResolved, Run, After;
    PartsAreSound(s);
    steps := Republish(p, s, id);
    RunIsSound(p, s, steps);
    var s1 := After(p, s, steps);
    SameRowsSameResolution(s, s1, id);
    var more, h := DeliverNewest(p, s1);
    RunConcat(p, s, steps, more, ORDERLY);
    SameTablesSameResolution(s1.tables, After(p, s1, more).tables, id);
    steps := ResolveAfter(p, s, steps + more, h, id);
  }

  /** From any orderly state a paid-in remittance can still be credited or refunded. */
  lemma CanStillBeResolved(p: Limits.Policy, s: State, id: RemittanceId) returns (steps: seq<Step>)
    requires Sound(s) && Funded(s) && Recoverable(s) && IsFunded(s, id)
    ensures Run(p, s, steps, ORDERLY) && IsResolved(After(p, s, steps).tables, id)
  {
    assert RowFunded(s, id) && Backed(s.tables, id);
    hide Sound, Funded, Recoverable;
    var status := StatusOf(s, id);
    if IsResolved(s.tables, id) {
      steps := [];
    } else if status.Failed? {
      steps := RefundResolves(p, s, id);
    } else if status.Settling? {
      steps := SettlingResolves(p, s, id);
    } else {
      steps := WaitingResolves(p, s, id);
    }
  }

  lemma SameRowsSameResolution(s: State, s': State, id: RemittanceId)
    requires IsRemittance(s, id) && IsRemittance(s', id) && s'.tables.books == s.tables.books
    requires SameTransfer(s.tables.remittances[id], s'.tables.remittances[id])
    ensures IsResolved(s'.tables, id) == IsResolved(s.tables, id)
  {
  }

  lemma ResolveAfter(p: Limits.Policy, s: State, first: seq<Step>, h: HandlerId, id: RemittanceId)
    returns (steps: seq<Step>)
    requires Sound(s) && Run(p, s, first, ORDERLY)
    requires
      var s' := After(p, s, first);
      && InPhase(s', h, Waiting) && Settles(s', h) && RemittanceOf(s', h) == id
      && Claimable(StatusOf(s', id), s'.handlers[h].reclaimed) && !IsResolved(s'.tables, id)
    ensures Run(p, s, steps, ORDERLY) && IsResolved(After(p, s, steps).tables, id)
  {
    RunIsSound(p, s, first);
    var rest := HandlerCanSettle(p, After(p, s, first), h);
    RunConcat(p, s, first, rest, ORDERLY);
    steps := first + rest;
    hide *;
  }

  lemma RefundResolves(p: Limits.Policy, s: State, id: RemittanceId) returns (steps: seq<Step>)
    requires Sound(s) && IsFunded(s, id) && StatusOf(s, id).Failed? && !IsResolved(s.tables, id)
    ensures Run(p, s, steps, ORDERLY) && IsResolved(After(p, s, steps).tables, id)
  {
    FinalKeyIsFreeUntilResolved(s.tables, id);
    assert RemittancePriced(s.tables.remittances[id]);
    assert KeyOf(RefundEntry(s.tables, id)) == KeyOf(CreditEntry(s.tables, id));
    hide Sound;
    var q := FreshId(s.requests);
    SingleStep(p, s, Begin(q, Refunding(id)), ORDERLY);
    ThenStep(p, s, [Begin(q, Refunding(id))], Commit(q), ORDERLY);
    steps := [Begin(q, Refunding(id))] + [Commit(q)];
  }

  /**
   However a run went, as long as handovers were clean, every paid-in
   remittance has a continuation that credits the recipient or refunds the
   sender.
   */
  lemma EveryPaidInRemittanceCanBeResolved(
    p: Limits.Policy, pool: int, now: Instant, steps: seq<Step>, a: Assumed, id: RemittanceId)
    requires Run(p, Init(pool, now), steps, a) && a.handover
    requires IsFunded(After(p, Init(pool, now), steps), id)
    ensures
      var s := After(p, Init(pool, now), steps);
      exists more :: Run(p, s, more, ORDERLY) && IsResolved(After(p, s, more).tables, id)
  {
    InitIsRecoverable(pool, now);
    RunStaysRecoverable(p, Init(pool, now), steps, a);
    RunStaysFunded(p, Init(pool, now), steps);
    var more := CanStillBeResolved(p, After(p, Init(pool, now), steps), id);
  }
}
