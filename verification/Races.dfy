/** Runs that show which assumptions the guarantees rest on, and exactly how SETTLED can be lost. */
module Races {
  import opened Wrappers
  import opened Schema
  import opened Bookkeeping
  import opened Transactions
  import opened Stream
  import opened Protocol
  import opened TableSafety
  import opened SettlementSafety
  import opened Frames
  import opened Funding
  import opened Recovery
  import opened CashOuts
  import opened OneWorker
  import opened Limits
  import Fees

  // -- SETTLED can be overwritten ------------------------------------------------------------

  /** A handler about to overwrite its remittance's status with FAILED. */
  predicate AboutToFail(s: State, step: Step, id: RemittanceId) {
    && step.CommitFailure? && Settles(s, step.h) && RemittanceOf(s, step.h) == id
    && s.handlers[step.h].phase.Failing? && !s.handlers[step.h].phase.loaded.Failed?
    && RecordFailure(s.tables, id, s.handlers[step.h].phase.loaded, s.handlers[step.h].phase.noted).Ok?
  }

  /** A request about to overwrite the status on the strength of what it read earlier. */
  predicate CommitsBlindly(s: State, step: Step, id: RemittanceId) {
    && step.Commit? && step.q in s.requests
    && match s.requests[step.q]
       case Confirming(i) => i == id
       case Requeueing(i) => i == id
       case Queueing(i, loaded, published) => i == id && published && !loaded.Queued?
       case _ => false
  }

  /**
   With nothing assumed, a SETTLED or REFUNDED remittance leaves that status
   on exactly these occasions: a slower handler records its own attempt as
   FAILED without looking at the row again, or a request that checked the
   row earlier confirms, requeues or marks it QUEUED.  A refund is not among
   them, and no claim is.
   */
  lemma FinalStatusIsLostExactlyToABlindWrite(p: Limits.Policy, s: State, step: Step, id: RemittanceId)
    requires Sound(s) && IsRemittance(s, id)
    requires StatusOf(s, id).Settled? || StatusOf(s, id).Refunded?
    ensures IsRemittance(Apply(p, s, step), id)
    ensures StatusOf(Apply(p, s, step), id) != StatusOf(s, id) <==>
              AboutToFail(s, step, id) || CommitsBlindly(s, step, id)
  {
    if Target(s, step) != Some(id) {
      OtherRemittancesUntouched(p, s, step, id);
    } else if step.CommitSuccess? {
      FinalIsNeverRecordedAgain(s, step.h, id);
    } else if step.Commit? {
      CommitOnFinal(p, s, step.q, id);
    }
    hide Sound, CommitStep;
  }

  lemma CommitOnFinal(p: Limits.Policy, s: State, q: RequestId, id: RemittanceId)
    requires Sound(s) && IsRemittance(s, id) && q in s.requests && RequestTarget(s.requests[q]) == Some(id)
    requires StatusOf(s, id).Settled? || StatusOf(s, id).Refunded?
    ensures IsRemittance(CommitStep(p, s, q), id)
    ensures StatusOf(CommitStep(p, s, q), id) != StatusOf(s, id) <==> CommitsBlindly(s, Commit(q), id)
  {
    assert Backed(s.tables, id);
    assert KeyOf(RefundEntry(s.tables, id)) == KeyOf(CreditEntry(s.tables, id));
    hide Sound;
  }

  /** When requests write what they checked, only the late failure remains. */
  lemma FinalStatusIsLostExactlyToALateFailure(p: Limits.Policy, s: State, step: Step, id: RemittanceId)
    requires Sound(s) && IsRemittance(s, id) && RemittanceChecksPass(p, s, step)
    requires StatusOf(s, id).Settled? || StatusOf(s, id).Refunded?
    ensures IsRemittance(Apply(p, s, step), id)
    ensures StatusOf(Apply(p, s, step), id) != StatusOf(s, id) <==> AboutToFail(s, step, id)
  {
    FinalStatusIsLostExactlyToABlindWrite(p, s, step, id);
    FreshRequestsLeaveItAlone(p, s, step, id);
    hide Sound, Apply, RemittanceChecksPass;
  }

  lemma FinalIsNeverRecordedAgain(s: State, h: HandlerId, id: RemittanceId)
    requires Sound(s) && IsRemittance(s, id) && (StatusOf(s, id).Settled? || StatusOf(s, id).Refunded?)
    ensures CommitSuccessStep(s, h).tables == s.tables || (Settles(s, h) && RemittanceOf(s, h) != id)
  {
    assert Backed(s.tables, id);
    assert KeyOf(RefundEntry(s.tables, id)) == KeyOf(CreditEntry(s.tables, id));
    hide Sound;
  }

  /** Whatever its status says by then, a credited remittance can be neither refunded nor credited again. */
  lemma CreditedIsNeverPaidOutAgain(t: Tables, id: RemittanceId, loaded: RemittanceStatus)
    requires id < |t.remittances| && IsCredited(t, id)
    ensures Refund(t, id).Err? && RecordSuccess(t, id, loaded).Err?
  {
  }

  // -- how a remittance loses its message ------------------------------------------------------

  /**
   An ack of the message that holds a SETTLING remittance, or a claim of the
   remittance through a message that was acked away meanwhile.
   */
  predicate LosesTheMessage(s: State, step: Step, id: RemittanceId)
    requires IsRemittance(s, id)
  {
    || (step.Ack? && InPhase(s, step.h, Finished) && HeldBy(s, id, s.handlers[step.h].entry))
    || (step.Claim? && InPhase(s, step.h, Waiting) && Settles(s, step.h) && RemittanceOf(s, step.h) == id
        && Claimable(StatusOf(s, id), s.handlers[step.h].reclaimed) && s.handlers[step.h].entry !in s.stream.pending)
  }

  /** With nothing assumed, a remittance that could be taken over stops being so at exactly those steps. */
  lemma TakeoverIsLostExactlyByLosingTheMessage(p: Limits.Policy, s: State, step: Step, id: RemittanceId)
    requires Sound(s) && IsRemittance(s, id) && RowRecoverable(s, id)
    ensures IsRemittance(Apply(p, s, step), id)
    ensures !RowRecoverable(Apply(p, s, step), id) <==> LosesTheMessage(s, step, id)
  {
    var s' := Apply(p, s, step);
    PartsAreSound(s);
    StepIsSound(p, s, step);
    PartsAreSound(s');
    assert IsRemittance(s', id);
    if step.Claim? || step.Ack? {
      hide Sound, RowRecoverable;
      ClaimOrAckLosesExactly(p, s, step, id);
    } else {
      if StatusOf(s', id).Settling? {
        OnlyClaimsSettle(p, s, step, id);
      }
      PendingLosesOnlyAcked(p, s, step);
      hide Sound, Apply;
    }
  }

  lemma ClaimOrAckLosesExactly(p: Limits.Policy, s: State, step: Step, id: RemittanceId)
    requires IsRemittance(s, id) && RowRecoverable(s, id) && (step.Claim? || step.Ack?)
    ensures IsRemittance(Apply(p, s, step), id)
    ensures !RowRecoverable(Apply(p, s, step), id) <==> LosesTheMessage(s, step, id)
  {
  }

  // -- a remittance nothing can reach ------------------------------------------------------------

  predicate Concerns(m: Message, id: RemittanceId) {
    m == SettleRemittance(id)
  }

  /** SETTLING, with no handler, no message and no request left that is about it. */
  ghost predicate Stranded(s: State, id: RemittanceId) {
    && IsRemittance(s, id) && StatusOf(s, id).Settling?
    && !IsResolved(s.tables, id)
    && (forall h :: h in s.handlers ==> !(Settles(s, h) && RemittanceOf(s, h) == id))
    && (forall e :: 0 <= e < |s.stream.messages| && (s.stream.delivered <= e || e in s.stream.pending) ==>
          !Concerns(s.stream.messages[e], id))
    && (forall q :: q in s.requests ==> RequestTarget(s.requests[q]) != Some(id))
  }

  lemma StrandedStepChangesNothing(p: Limits.Policy, s: State, step: Step, id: RemittanceId)
    requires Sound(s) && Stranded(s, id)
    ensures var s' := Apply(p, s, step);
            IsRemittance(s', id) && StatusOf(s', id).Settling? && !IsResolved(s'.tables, id)
    ensures Target(s, step) != Some(id)
  {
    var s' := Apply(p, s, step);
    assert Target(s, step) != Some(id);
    OtherRemittancesUntouched(p, s, step, id);
    StepIsSound(p, s, step);
    var credit, refund := CreditEntry(s.tables, id), RefundEntry(s.tables, id);
    if credit in s'.tables.books.entries {
      LogMovesOnlyForTarget(p, s, step, credit);
    }
    if refund in s'.tables.books.entries {
      LogMovesOnlyForTarget(p, s, step, refund);
    }
    hide Sound, Apply;
  }

  lemma NoHandlerArrives(p: Limits.Policy, s: State, step: Step, id: RemittanceId, h: HandlerId)
    requires Sound(s) && Stranded(s, id) && h in Apply(p, s, step).handlers
    ensures var s' := Apply(p, s, step); !(Settles(s', h) && RemittanceOf(s', h) == id)
  {
    var s' := Apply(p, s, step);
    StreamMovesOnlyBy(p, s, step);
    if h in s.handlers {
      HandlersKeepTheirEntry(p, s, step, h);
      assert HandlerSound(s, h);
      assert MessageOf(s', h) == MessageOf(s, h) && MessageKnown(s, MessageOf(s, h));
    } else {
      NewHandlersWait(p, s, step, h);
      ReadNewNeedsAMessage(p, s, step);
      assert MessageOf(s', h) == s.stream.messages[s'.handlers[h].entry];
      assert !Concerns(s.stream.messages[s'.handlers[h].entry], id);
    }
    hide Sound, Stranded, Apply;
  }

  lemma ReadNewNeedsAMessage(p: Limits.Policy, s: State, step: Step)
    ensures step.ReadNew? && Apply(p, s, step) != s ==> s.stream.delivered < |s.stream.messages|
  {
  }

  lemma NoMessageArrives(p: Limits.Policy, s: State, step: Step, id: RemittanceId, e: EntryId)
    requires Sound(s) && Stranded(s, id)
    requires var g := Apply(p, s, step).stream; e < |g.messages| && (g.delivered <= e || e in g.pending)
    ensures !Concerns(Apply(p, s, step).stream.messages[e], id)
  {
    var s' := Apply(p, s, step);
    if e < |s.stream.messages| {
      StreamMovesOnlyBy(p, s, step);
      assert s'.stream.messages[e] == s.stream.messages[e];
      if !(s.stream.delivered <= e || e in s.stream.pending) {
        NothingReturnsToPending(p, s, step, e);
      }
      hide Sound, Apply;
    } else {
      AddedMessagesAreRequested(p, s, step, e);
      hide Sound, Apply;
    }
  }

  lemma NothingReturnsToPending(p: Limits.Policy, s: State, step: Step, e: EntryId)
    requires e < s.stream.delivered && e !in s.stream.pending
    ensures e !in Apply(p, s, step).stream.pending && e < Apply(p, s, step).stream.delivered
  {
    StreamMovesOnlyBy(p, s, step);
    hide CommitStep;
  }

  lemma AddedMessagesAreRequested(p: Limits.Policy, s: State, step: Step, e: EntryId)
    requires |s.stream.messages| <= e < |Apply(p, s, step).stream.messages|
    ensures
      var m := Apply(p, s, step).stream.messages[e];
      m.SettleRemittance? ==> exists q :: q in s.requests && RequestTarget(s.requests[q]) == Some(m.remittance)
  {
    if step.Publish? {
      assert step.q in s.requests;
    } else if step.Commit? {
      assert step.q in s.requests;
    } else {
      StreamMovesOnlyBy(p, s, step);
    }
  }

  lemma NoRequestArrives(p: Limits.Policy, s: State, step: Step, id: RemittanceId, q: RequestId)
    requires Stranded(s, id) && q in Apply(p, s, step).requests
    ensures RequestTarget(Apply(p, s, step).requests[q]) != Some(id)
  {
    if RequestActor(step) != Some(q) {
      OtherRequestsUntouched(p, s, step, q);
    }
    hide CommitStep;
  }

  /** Nothing the system can do afterwards settles, refunds or even touches such a remittance. */
  lemma {:induction false} StrandedForever(p: Limits.Policy, s: State, steps: seq<Step>, id: RemittanceId)
    requires Sound(s) && Stranded(s, id)
    ensures Stranded(After(p, s, steps), id)
    decreases |steps|
  {
    if steps != [] {
      var s' := Apply(p, s, steps[0]);
      StepIsSound(p, s, steps[0]);
      StrandedStepChangesNothing(p, s, steps[0], id);
      forall h | h in s'.handlers
        ensures !(Settles(s', h) && RemittanceOf(s', h) == id)
      {
        hide Sound, Stranded, Apply;
        NoHandlerArrives(p, s, steps[0], id, h);
      }
      forall e | 0 <= e < |s'.stream.messages| && (s'.stream.delivered <= e || e in s'.stream.pending)
        ensures !Concerns(s'.stream.messages[e], id)
      {
        hide Sound, Stranded, Apply;
        NoMessageArrives(p, s, steps[0], id, e);
      }
      forall q | q in s'.requests
        ensures RequestTarget(s'.requests[q]) != Some(id)
      {
        hide Sound, Stranded, Apply;
        NoRequestArrives(p, s, steps[0], id, q);
      }
      assert Stranded(s', id);
      hide Sound, Stranded, Apply;
      StrandedForever(p, s', steps[1..], id);
    }
  }

  // -- such a remittance exists once a message is taken over from a live handler ---------------

  lemma FewerAssumptions(p: Limits.Policy, s: State, s': State, a: Assumed)
    requires Reaches(p, s, s', EVERYTHING)
    ensures Reaches(p, s, s', a)
  {
    var steps :| Run(p, s, steps, EVERYTHING) && After(p, s, steps) == s';
    RunWithFewer(p, s, steps, a);
  }

  lemma {:induction false} RunWithFewer(p: Limits.Policy, s: State, steps: seq<Step>, a: Assumed)
    requires Run(p, s, steps, EVERYTHING)
    ensures Run(p, s, steps, a)
    decreases |steps|
  {
    if steps != [] {
      hide Apply;
      RunWithFewer(p, Apply(p, s, steps[0]), steps[1..], a);
    }
  }

  // Everything assumed but clean handovers.
  const HASTY := Assumed(true, false, true, true, true)
  const EVERYTHING := Assumed(true, true, true, true, true)

  // A corridor whose limits take one such quote, and no second one beside it.
  const SNUG_POLICY := Policy(1_000, 1_000, 900, (day: Instant) => day)
  const SMALL_QUOTE := Fees.Quote(1_000, 18_500_000, 0, 0, 1_000, 540_540, 0, Fees.CashOutQuote(1, 0, 1, USD, 0))

  const QUOTED_ROW := NewQuote(1, 2, SMALL_QUOTE, 0, 900)
  const PAID_IN := ConfirmCashIn(Init(0, 0).tables.(remittances := [QUOTED_ROW]), 0, 0).remittances[0]

  /** A system holding one funded remittance, with nothing in flight but messages and handlers. */
  ghost predicate Single(s: State, status: RemittanceStatus, g: Group, handlers: map<HandlerId, Handler>) {
    && |s.tables.remittances| == 1 == |s.trails|
    && s.tables.remittances[0] == PAID_IN.(status := status) && s.now == 0
    && s.stream == g && s.handlers == handlers && s.requests == map[]
  }

  /** ...with an empty log and one message about it. */
  ghost predicate Lone(
    s: State, status: RemittanceStatus, delivered: nat, pending: map<EntryId, Consumer>,
    handlers: map<HandlerId, Handler>)
  {
    && Single(s, status, Group([SettleRemittance(0)], delivered, pending), handlers)
    && s.tables.books.entries == []
  }

  lemma QuoteFits(row: Remittance)
    requires row.zarCents == 1_000
    ensures AssertWithinLimits(SNUG_POLICY, [row], row.sender, 0, 0).Ok?
    ensures AssertWithinLimits(SNUG_POLICY, [], row.sender, 1_000, 0).Ok?
  {
    assert [] + [row] == [row];
    TotalAppend([], row, row.sender, DayStart(0), 0);
    TotalAppend([], row, row.sender, MonthStart(SNUG_POLICY, 0), 0);
  }

  // The system once the quote is taken out, and once it is paid in.
  const QUOTED_STATE :=
    Init(0, 0).(tables := Init(0, 0).tables.(remittances := [QUOTED_ROW]), trails := [NEW_TRAIL])
  const FUNDED_STATE := QUOTED_STATE.(tables := ConfirmCashIn(QUOTED_STATE.tables, 0, 0))
  const QUEUED_STATE := FUNDED_STATE.(
    tables := WithStatus(FUNDED_STATE.tables, 0, Queued), stream := Group([SettleRemittance(0)], 0, map[]))

  lemma QuoteOnce()
    ensures Reaches(SNUG_POLICY, Init(0, 0), QUOTED_STATE, EVERYTHING)
  {
    var p, s, quoting := SNUG_POLICY, Init(0, 0), Quoting(1, 2, SMALL_QUOTE, 0);
    QuoteFits(QUOTED_ROW);
    var s1 := s.(requests := map[0 := quoting]);
    assert BeginStep(p, s, 0, quoting) == s1;
    assert [] + [QUOTED_ROW] == [QUOTED_ROW];
    assert Done(s1, 0).requests == map[];
    assert CommitStep(p, s1, 0) == QUOTED_STATE;
    assert Permitted(p, s, Begin(0, quoting), EVERYTHING) && Permitted(p, s1, Commit(0), EVERYTHING);
    hide Reaches, BeginStep, CommitStep, Permitted;
    ReachesItself(p, s, EVERYTHING);
    Next(p, s, s, Begin(0, quoting), EVERYTHING);
    Next(p, s, s1, Commit(0), EVERYTHING);
  }

  lemma ConfirmOnce()
    ensures Reaches(SNUG_POLICY, Init(0, 0), FUNDED_STATE, EVERYTHING)
  {
    QuoteOnce();
    var p, s, confirming := SNUG_POLICY, QUOTED_STATE, Confirming(0);
    var s1 := s.(requests := map[0 := confirming]);
    assert BeginStep(p, s, 0, confirming) == s1;
    assert Done(s1, 0).requests == map[];
    assert CommitStep(p, s1, 0) == FUNDED_STATE;
    assert Permitted(p, s, Begin(0, confirming), EVERYTHING) && Permitted(p, s1, Commit(0), EVERYTHING);
    hide Reaches, BeginStep, CommitStep, Permitted;
    Next(p, Init(0, 0), s, Begin(0, confirming), EVERYTHING);
    Next(p, Init(0, 0), s1, Commit(0), EVERYTHING);
  }

  lemma QuoteConfirmAndQueue() returns (s': State)
    ensures Reaches(SNUG_POLICY, Init(0, 0), s', EVERYTHING)
    ensures s' == QUEUED_STATE && Lone(s', Queued, 0, map[], map[])
  {
    ConfirmOnce();
    var p, s, queueing := SNUG_POLICY, FUNDED_STATE, Queueing(0, CashInConfirmed, false);
    var s1 := s.(requests := map[0 := queueing]);
    assert BeginStep(p, s, 0, queueing) == s1;
    var s2 := s1.(stream := Group([SettleRemittance(0)], 0, map[]), requests := map[0 := queueing.(published := true)]);
    assert PublishStep(s1, 0) == s2 by { assert [] + [SettleRemittance(0)] == [SettleRemittance(0)]; }
    s' := QUEUED_STATE;
    assert Done(s2, 0).requests == map[];
    assert CommitStep(p, s2, 0) == s';
    assert Permitted(p, s, Begin(0, queueing), EVERYTHING) && Permitted(p, s1, Publish(0), EVERYTHING);
    assert Permitted(p, s2, Commit(0), EVERYTHING);
    assert Lone(s', Queued, 0, map[], map[]);
    hide Reaches, BeginStep, PublishStep, CommitStep, Permitted, Lone;
    Next(p, Init(0, 0), s, Begin(0, queueing), EVERYTHING);
    Next(p, Init(0, 0), s1, Publish(0), EVERYTHING);
    Next(p, Init(0, 0), s2, Commit(0), EVERYTHING);
  }

  lemma ClaimedOnce(s: State)
    requires Lone(s, Queued, 0, map[], map[])
    ensures Lone(ClaimStep(ReadNewStep(s, 1, "a"), 1), Settling, 1, map[0 := "a"], map[1 := Handler(0, false, Claimed)])
    ensures OneWorkerPerRemittance(ReadNewStep(s, 1, "a"), Claim(1))
  {
  }

  lemma FailedOnce(s: State)
    requires Lone(s, Settling, 1, map[0 := "a"], map[1 := Handler(0, false, Claimed)])
    ensures Lone(CommitFailureStep(LoadForFailureStep(ResolveStep(s, 1, NoRecipient), 1), 1),
                 RemittanceStatus.Failed, 1, map[0 := "a"], map[1 := Handler(0, false, Finished)])
  {
  }

  /** The first attempt fails, is recorded, and its handler has not acked yet. */
  lemma FailOnce(p: Limits.Policy, s0: State, s: State) returns (s': State)
    requires Reaches(p, s0, s, HASTY) && Lone(s, Queued, 0, map[], map[])
    ensures Reaches(p, s0, s', HASTY)
    ensures Lone(s', RemittanceStatus.Failed, 1, map[0 := "a"], map[1 := Handler(0, false, Finished)])
  {
    hide Reaches, Permitted, Lone, ReadNewStep, ClaimStep, ResolveStep, LoadForFailureStep, CommitFailureStep;
    ClaimedOnce(s);
    var s1 := ReadNewStep(s, 1, "a");
    var s2 := ClaimStep(s1, 1);
    FailedOnce(s2);
    var s3 := ResolveStep(s2, 1, NoRecipient);
    var s4 := LoadForFailureStep(s3, 1);
    s' := CommitFailureStep(s4, 1);
    assert Apply(p, s, ReadNew(1, "a")) == s1;
    assert Apply(p, s1, Claim(1)) == s2;
    assert Apply(p, s2, Resolve(1, NoRecipient)) == s3;
    assert Apply(p, s3, LoadForFailure(1)) == s4;
    assert Apply(p, s4, CommitFailure(1)) == s';
    hide Apply;
    Hasty(p, s, ReadNew(1, "a"));
    Next(p, s0, s, ReadNew(1, "a"), HASTY);
    Hasty(p, s1, Claim(1));
    Next(p, s0, s1, Claim(1), HASTY);
    Hasty(p, s2, Resolve(1, NoRecipient));
    Next(p, s0, s2, Resolve(1, NoRecipient), HASTY);
    Hasty(p, s3, LoadForFailure(1));
    Next(p, s0, s3, LoadForFailure(1), HASTY);
    Hasty(p, s4, CommitFailure(1));
    Next(p, s0, s4, CommitFailure(1), HASTY);
  }

  lemma Requeued(p: Limits.Policy, s: State)
    requires Lone(s, RemittanceStatus.Failed, 1, map[0 := "a"], map[1 := Handler(0, false, Finished)])
    ensures var s1 := BeginStep(p, s, 0, Requeueing(0));
            && CommitsFresh(p, s1, Commit(0))
            && Lone(CommitStep(p, s1, 0), CashInConfirmed, 1, map[0 := "a"], map[1 := Handler(0, false, Finished)])
  {
  }

  lemma TakenOver(s: State)
    requires Lone(s, CashInConfirmed, 1, map[0 := "a"], map[1 := Handler(0, false, Finished)])
    ensures var s1 := ReclaimStep(s, 2, 0, "b");
            && OneWorkerPerRemittance(s1, Claim(2))
            && Lone(ClaimStep(s1, 2), Settling, 1, map[0 := "b"],
                    map[1 := Handler(0, false, Finished), 2 := Handler(0, true, Claimed)])
  {
    assert Lone(ReclaimStep(s, 2, 0, "b"), CashInConfirmed, 1, map[0 := "b"],
                map[1 := Handler(0, false, Finished), 2 := Handler(0, true, Waiting)]);
  }

  lemma AckedAway(s: State)
    requires Lone(s, Settling, 1, map[0 := "b"],
                  map[1 := Handler(0, false, Finished), 2 := Handler(0, true, Claimed)])
    ensures Lone(Stopped(AckStep(s, 1), 2), Settling, 1, map[], map[])
  {
  }

  lemma Retry(p: Limits.Policy, s0: State, s: State) returns (s': State)
    requires Reaches(p, s0, s, HASTY)
    requires Lone(s, RemittanceStatus.Failed, 1, map[0 := "a"], map[1 := Handler(0, false, Finished)])
    ensures Reaches(p, s0, s', HASTY)
    ensures Lone(s', CashInConfirmed, 1, map[0 := "a"], map[1 := Handler(0, false, Finished)])
  {
    Requeued(p, s);
    var s1 := BeginStep(p, s, 0, Requeueing(0));
    s' := CommitStep(p, s1, 0);
    hide Reaches, Permitted, Lone, BeginStep, CommitStep, CommitsFresh;
    Hasty(p, s, Begin(0, Requeueing(0)));
    Next(p, s0, s, Begin(0, Requeueing(0)), HASTY);
    Hasty(p, s1, Commit(0));
    Next(p, s0, s1, Commit(0), HASTY);
  }

  /** A retry claims through the same message, which the first handler then acks away. */
  lemma LoseTheMessage(p: Limits.Policy, s0: State, s: State) returns (s': State)
    requires Reaches(p, s0, s, HASTY)
    requires Lone(s, CashInConfirmed, 1, map[0 := "a"], map[1 := Handler(0, false, Finished)])
    ensures Reaches(p, s0, s', HASTY)
    ensures Lone(s', Settling, 1, map[], map[])
  {
    hide Reaches, Permitted, Lone, ReclaimStep, ClaimStep, AckStep, Stopped, OneWorkerPerRemittance;
    TakenOver(s);
    var s1 := ReclaimStep(s, 2, 0, "b");
    var s2 := ClaimStep(s1, 2);
    AckedAway(s2);
    var s3 := AckStep(s2, 1);
    s' := Stopped(s3, 2);
    assert Apply(p, s, Reclaim(2, 0, "b")) == s1;
    assert Apply(p, s1, Claim(2)) == s2;
    assert Apply(p, s2, Ack(1)) == s3;
    assert Apply(p, s3, Crash(2)) == s';
    hide Apply;
    Hasty(p, s, Reclaim(2, 0, "b"));
    Next(p, s0, s, Reclaim(2, 0, "b"), HASTY);
    Hasty(p, s1, Claim(2));
    Next(p, s0, s1, Claim(2), HASTY);
    Hasty(p, s2, Ack(1));
    Next(p, s0, s2, Ack(1), HASTY);
    Hasty(p, s3, Crash(2));
    Next(p, s0, s3, Crash(2), HASTY);
  }

  /** The steps a run without clean handovers is free to take. */
  lemma Hasty(p: Limits.Policy, s: State, step: Step)
    ensures !step.Burn? && (step.Commit? ==> CommitsFresh(p, s, step))
            && (step.Claim? ==> OneWorkerPerRemittance(s, step)) ==>
              Permitted(p, s, step, HASTY)
  {
  }

  /**
   Without clean handovers a paid-in remittance can be stranded for good,
   even with fresh requests, honest burns and one worker at a time.
   */
  lemma CleanHandoverIsNeeded()
    ensures exists s :: Reaches(SNUG_POLICY, Init(0, 0), s, HASTY) && IsFunded(s, 0) && Stranded(s, 0)
  {
    var p, s0 := SNUG_POLICY, Init(0, 0);
    var queued := QuoteConfirmAndQueue();
    FewerAssumptions(p, s0, queued, HASTY);
    var failed := FailOnce(p, s0, queued);
    var retried := Retry(p, s0, failed);
    var s := LoseTheMessage(p, s0, retried);
    assert Stranded(s, 0) && IsFunded(s, 0);
    hide *;
  }

  // -- a duplicate message is enough to overwrite SETTLED --------------------------------------

  const TWO_MESSAGES := [SettleRemittance(0), SettleRemittance(0)]

  lemma QueueAgain(p: Limits.Policy, s0: State, s: State) returns (s': State)
    requires Reaches(p, s0, s, ORDERLY) && Lone(s, Queued, 0, map[], map[])
    ensures Reaches(p, s0, s', ORDERLY)
    ensures Single(s', Queued, Group(TWO_MESSAGES, 0, map[]), map[]) && s'.tables.books.entries == []
  {
    var queueing := Queueing(0, Queued, false);
    var s1 := BeginStep(p, s, 0, queueing);
    assert s1 == s.(requests := map[0 := queueing]);
    var s2 := PublishStep(s1, 0);
    assert s2.requests == map[0 := queueing.(published := true)];
    assert [SettleRemittance(0)] + [SettleRemittance(0)] == TWO_MESSAGES;
    s' := CommitStep(p, s2, 0);
    assert Permitted(p, s, Begin(0, queueing), ORDERLY) && Permitted(p, s1, Publish(0), ORDERLY);
    assert Permitted(p, s2, Commit(0), ORDERLY);
    assert Single(s', Queued, Group(TWO_MESSAGES, 0, map[]), map[]) && s'.tables.books.entries == [];
    hide Reaches, Permitted, Single, BeginStep, PublishStep, CommitStep;
    Next(p, s0, s, Begin(0, queueing), ORDERLY);
    Next(p, s0, s1, Publish(0), ORDERLY);
    Next(p, s0, s2, Commit(0), ORDERLY);
  }

  /** ...with an empty log and two messages about it. */
  ghost predicate Twice(
    s: State, delivered: nat, pending: map<EntryId, Consumer>, handlers: map<HandlerId, Handler>)
  {
    && Single(s, Settling, Group(TWO_MESSAGES, delivered, pending), handlers)
    && s.tables.books.entries == []
  }

  lemma ClaimedFirst(s: State)
    requires Single(s, Queued, Group(TWO_MESSAGES, 0, map[]), map[]) && s.tables.books.entries == []
    ensures Twice(ClaimStep(ReadNewStep(s, 1, "a"), 1), 1, map[0 := "a"], map[1 := Handler(0, false, Claimed)])
  {
  }

  lemma DroppedByTheSecond(s: State)
    requires Twice(s, 1, map[0 := "a"], map[1 := Handler(0, false, Claimed)])
    ensures Twice(Stopped(ReadNewStep(s, 2, "b"), 2), 2, map[0 := "a", 1 := "b"], map[1 := Handler(0, false, Claimed)])
  {
  }

  lemma ReclaimedByTheThird(s: State)
    requires Twice(s, 2, map[0 := "a", 1 := "b"], map[1 := Handler(0, false, Claimed)])
    ensures HandoverAfterStop(s, Reclaim(3, 1, "c"))
    ensures Twice(ClaimStep(ReclaimStep(s, 3, 1, "c"), 3), 2, map[0 := "a", 1 := "c"],
                  map[1 := Handler(0, false, Claimed), 3 := Handler(1, true, Claimed)])
  {
    assert Twice(ReclaimStep(s, 3, 1, "c"), 2, map[0 := "a", 1 := "c"],
                 map[1 := Handler(0, false, Claimed), 3 := Handler(1, true, Waiting)]);
  }

  /** One handler claims; another's death hands its duplicate message to a third, which may claim SETTLING. */
  lemma ClaimTwice(p: Limits.Policy, s0: State, s: State) returns (s': State)
    requires Reaches(p, s0, s, ORDERLY)
    requires Single(s, Queued, Group(TWO_MESSAGES, 0, map[]), map[]) && s.tables.books.entries == []
    ensures Reaches(p, s0, s', ORDERLY)
    ensures Twice(s', 2, map[0 := "a", 1 := "c"],
                  map[1 := Handler(0, false, Claimed), 3 := Handler(1, true, Claimed)])
  {
    hide Reaches, Permitted, Twice, Single, ReadNewStep, ClaimStep, ReclaimStep, Stopped, HandoverAfterStop;
    var s1 := ReadNewStep(s, 1, "a");
    ClaimedFirst(s);
    var s2 := ClaimStep(s1, 1);
    DroppedByTheSecond(s2);
    var s3 := ReadNewStep(s2, 2, "b");
    var s4 := Stopped(s3, 2);
    ReclaimedByTheThird(s4);
    var s5 := ReclaimStep(s4, 3, 1, "c");
    s' := ClaimStep(s5, 3);
    assert Apply(p, s, ReadNew(1, "a")) == s1;
    assert Apply(p, s1, Claim(1)) == s2;
    assert Apply(p, s2, ReadNew(2, "b")) == s3;
    assert Apply(p, s3, Crash(2)) == s4;
    assert Apply(p, s4, Reclaim(3, 1, "c")) == s5;
    assert Apply(p, s5, Claim(3)) == s';
    hide Apply;
    Orderly(p, s, ReadNew(1, "a"));
    Next(p, s0, s, ReadNew(1, "a"), ORDERLY);
    Orderly(p, s1, Claim(1));
    Next(p, s0, s1, Claim(1), ORDERLY);
    Orderly(p, s2, ReadNew(2, "b"));
    Next(p, s0, s2, ReadNew(2, "b"), ORDERLY);
    Orderly(p, s3, Crash(2));
    Next(p, s0, s3, Crash(2), ORDERLY);
    Orderly(p, s4, Reclaim(3, 1, "c"));
    Next(p, s0, s4, Reclaim(3, 1, "c"), ORDERLY);
    Orderly(p, s5, Claim(3));
    Next(p, s0, s5, Claim(3), ORDERLY);
  }

  /** Both handlers get as far as knowing where the money goes, and the first one's payment validates. */
  lemma PaidFirst(s: State)
    requires Twice(s, 2, map[0 := "a", 1 := "c"],
                   map[1 := Handler(0, false, Claimed), 3 := Handler(1, true, Claimed)])
    ensures Twice(PayStep(ResolveStep(ResolveStep(s, 1, Resolved), 3, Resolved), 1, Validated),
                  2, map[0 := "a", 1 := "c"],
                  map[1 := Handler(0, false, Paid(Settling)), 3 := Handler(1, true, Ready(Settling))])
  {
  }

  /** ...and is credited; the other's attempt is rejected and starts to record its failure. */
  ghost predicate Credited(s: State, status: RemittanceStatus, handlers: map<HandlerId, Handler>) {
    && Single(s, status, Group(TWO_MESSAGES, 2, map[0 := "a", 1 := "c"]), handlers)
    && s.tables.books.entries == [CreditEntry(s.tables, 0), SentEntry(s.tables, 0)]
  }

  lemma CreditedFirst(s: State)
    requires Twice(s, 2, map[0 := "a", 1 := "c"],
                   map[1 := Handler(0, false, Paid(Settling)), 3 := Handler(1, true, Ready(Settling))])
    ensures Credited(CommitSuccessStep(s, 1), Settled,
                     map[1 := Handler(0, false, Finished), 3 := Handler(1, true, Ready(Settling))])
  {
  }

  lemma FailedSecond(s: State)
    requires Credited(s, Settled, map[1 := Handler(0, false, Finished), 3 := Handler(1, true, Ready(Settling))])
    ensures
      var s' := CommitFailureStep(LoadForFailureStep(PayStep(s, 3, Raised(false)), 3), 3);
      IsRemittance(s', 0) && StatusOf(s', 0).Failed? && IsCredited(s'.tables, 0)
  {
  }

  lemma SettleThenFail(p: Limits.Policy, s0: State, s: State) returns (s': State)
    requires Reaches(p, s0, s, ORDERLY)
    requires Twice(s, 2, map[0 := "a", 1 := "c"],
                   map[1 := Handler(0, false, Claimed), 3 := Handler(1, true, Claimed)])
    ensures Reaches(p, s0, s', ORDERLY)
    ensures IsRemittance(s', 0) && StatusOf(s', 0).Failed? && IsCredited(s'.tables, 0)
  {
    hide Reaches, Permitted, Twice, Credited, ResolveStep, PayStep, CommitSuccessStep, LoadForFailureStep,
         CommitFailureStep;
    PaidFirst(s);
    var s1 := ResolveStep(s, 1, Resolved);
    var s2 := ResolveStep(s1, 3, Resolved);
    var s3 := PayStep(s2, 1, Validated);
    CreditedFirst(s3);
    var s4 := CommitSuccessStep(s3, 1);
    FailedSecond(s4);
    var s5 := PayStep(s4, 3, Raised(false));
    var s6 := LoadForFailureStep(s5, 3);
    s' := CommitFailureStep(s6, 3);
    assert Apply(p, s, Resolve(1, Resolved)) == s1;
    assert Apply(p, s1, Resolve(3, Resolved)) == s2;
    assert Apply(p, s2, Pay(1, Validated)) == s3;
    assert Apply(p, s3, CommitSuccess(1)) == s4;
    assert Apply(p, s4, Pay(3, Raised(false))) == s5;
    assert Apply(p, s5, LoadForFailure(3)) == s6;
    assert Apply(p, s6, CommitFailure(3)) == s';
    hide Apply;
    Orderly(p, s, Resolve(1, Resolved));
    Next(p, s0, s, Resolve(1, Resolved), ORDERLY);
    Orderly(p, s1, Resolve(3, Resolved));
    Next(p, s0, s1, Resolve(3, Resolved), ORDERLY);
    Orderly(p, s2, Pay(1, Validated));
    Next(p, s0, s2, Pay(1, Validated), ORDERLY);
    Orderly(p, s3, CommitSuccess(1));
    Next(p, s0, s3, CommitSuccess(1), ORDERLY);
    Orderly(p, s4, Pay(3, Raised(false)));
    Next(p, s0, s4, Pay(3, Raised(false)), ORDERLY);
    Orderly(p, s5, LoadForFailure(3));
    Next(p, s0, s5, LoadForFailure(3), ORDERLY);
    Orderly(p, s6, CommitFailure(3));
    Next(p, s0, s6, CommitFailure(3), ORDERLY);
  }

  /** The steps an orderly run is free to take. */
  lemma Orderly(p: Limits.Policy, s: State, step: Step)
    ensures !step.Commit? && !step.Burn? && (step.Reclaim? ==> HandoverAfterStop(s, step)) ==>
              Permitted(p, s, step, ORDERLY)
  {
  }

  /**
   Clean handovers and fresh requests do not leave one worker per
   remittance: a message published twice is enough to turn a credited
   remittance FAILED.
   */
  lemma DuplicateMessageCanOverwriteSettled()
    ensures exists s :: Reaches(SNUG_POLICY, Init(0, 0), s, ORDERLY)
                        && IsRemittance(s, 0) && StatusOf(s, 0).Failed? && IsCredited(s.tables, 0)
  {
    var p, s0 := SNUG_POLICY, Init(0, 0);
    var queued := QuoteConfirmAndQueue();
    FewerAssumptions(p, s0, queued, ORDERLY);
    var twice := QueueAgain(p, s0, queued);
    var claimed := ClaimTwice(p, s0, twice);
    var s := SettleThenFail(p, s0, claimed);
    hide *;
  }
}
