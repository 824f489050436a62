/**
 A cash-out is all or nothing: burned at most once, and paid out or
 refunded but never both, exactly as long as no approval or rejection is
 written to a row that has moved too far since it was checked.
 */
module CashOuts {
  import opened Wrappers
  import opened Schema
  import opened Bookkeeping
  import opened Transactions
  import opened Stream
  import opened Protocol
  import opened TableSafety
  import opened SettlementSafety
  import opened Frames
  import Limits
  import Fees

  // -- the invariant ---------------------------------------------------------------------

  /** Handler h has claimed cash-out c and not yet written an outcome. */
  ghost predicate IsBurning(s: State, h: HandlerId, c: CashOutId) {
    && h in s.handlers && Burns(s, h) && CashOutOf(s, h) == c
    && (s.handlers[h].phase.BurnClaimed? || s.handlers[h].phase.BurnLanded? || s.handlers[h].phase.BurnRejected?)
  }

  ghost predicate EntryAt(s: State, place: Option<nat>, e: Entry) {
    place.Some? ==> place.value < |s.tables.books.entries| && s.tables.books.entries[place.value] == e
  }

  /** The log entries of a cash-out are its debit, and the one its status calls for. */
  ghost predicate Accounted(s: State, c: CashOutId)
    requires IsCashOut(s, c)
  {
    var row := s.tables.cashOuts[c];
    && EntryAt(s, Some(row.debitEntry), DebitEntry(row.user, row.gross, c))
    && EntryAt(s, row.creditEntry, PayoutEntry(s.tables, c))
    && EntryAt(s, s.burns[c].reversal, ReversalEntry(s.tables, c))
    && (row.status.Completed? <==> row.creditEntry.Some?)
    && (row.status.Failed? <==> s.burns[c].reversal.Some?)
    && (row.status.Completed? ==> row.payoutAmount > 0)
    && forall i {:trigger s.tables.books.entries[i]} ::
         0 <= i < |s.tables.books.entries| && s.tables.books.entries[i].cashOut == Some(c) ==>
           Some(i) == Some(row.debitEntry) || Some(i) == row.creditEntry || Some(i) == s.burns[c].reversal
  }

  /** `honest`: a burn that raised did not land. */
  ghost predicate Burnt(s: State, c: CashOutId, honest: bool)
    requires IsCashOut(s, c)
  {
    var status, burn := s.tables.cashOuts[c].status, s.burns[c];
    && burn.landed <= burn.submitted <= 1
    && (status.Requested? || status.Approved? ==> burn.submitted == 0)
    && (status.Completed? ==> burn.landed == 1)
    && (honest && status.Failed? ==> burn.landed == 0)
  }

  ghost predicate BurnerSteady(s: State, h: HandlerId, c: CashOutId, honest: bool)
    requires IsBurning(s, h, c)
  {
    var phase, burn := s.handlers[h].phase, s.burns[c];
    && s.tables.cashOuts[c].status.Processing?
    && (phase.BurnClaimed? ==> burn.submitted == 0)
    && (phase.BurnLanded? ==> burn.landed == 1)
    && (phase.BurnRejected? && honest ==> burn.landed == 0)
  }

  ghost predicate AllOrNothing(s: State, honest: bool) {
    && (forall c: nat :: IsCashOut(s, c) ==> Accounted(s, c) && Burnt(s, c, honest))
    && (forall h, c :: IsBurning(s, h, c) ==> BurnerSteady(s, h, c, honest))
    && (forall g, h, c :: IsBurning(s, g, c) && IsBurning(s, h, c) ==> g == h)
  }

  /**
   An approval or a rejection finds its cash-out where it can still take it:
   not yet claimed, or claimed by a handler that is gone and left no burn
   the outcome would contradict.
   */
  ghost predicate CommitsInTime(s: State, step: Step, honest: bool) {
    step.Commit? && step.q in s.requests && WritesCashOut(s.requests[step.q]) ==>
      var r := s.requests[step.q];
      IsCashOut(s, r.cashOut) ==> Takes(s, r.cashOut, r.Approving?, honest)
  }

  ghost predicate Takes(s: State, c: CashOutId, approving: bool, honest: bool)
    requires IsCashOut(s, c)
  {
    var status := s.tables.cashOuts[c].status;
    || status.Requested? || status.Approved?
    || (status.Processing? && (forall h :: !IsBurning(s, h, c))
        && if approving then s.burns[c].submitted == 0 else honest ==> s.burns[c].landed == 0)
  }

  lemma FreshCommitsAreInTime(p: Limits.Policy, s: State, step: Step, honest: bool)
    requires CashOutChecksPass(p, s, step)
    ensures CommitsInTime(s, step, honest)
  {
  }

  // -- frames ------------------------------------------------------------------------------

  /** A step writes cash-out entries only about its target, or about the cash-out it opens. */
  lemma CashOutLogMovesOnlyForTarget(p: Limits.Policy, s: State, step: Step, i: nat)
    requires |s.tables.books.entries| <= i < |Apply(p, s, step).tables.books.entries|
    ensures var owner := Apply(p, s, step).tables.books.entries[i].cashOut;
            owner.Some? ==>
              CashOutTarget(s, step) == owner || (OpensCashOut(s, step) && owner == Some(|s.tables.cashOuts|))
  {
    if step.Commit? {
      CommitLogsOnlyForCashOut(p, s, step.q, i);
    }
    hide CommitStep;
  }

  lemma CommitLogsOnlyForCashOut(p: Limits.Policy, s: State, q: RequestId, i: nat)
    requires |s.tables.books.entries| <= i < |CommitStep(p, s, q).tables.books.entries|
    ensures q in s.requests
    ensures
      var owner := CommitStep(p, s, q).tables.books.entries[i].cashOut;
      owner.Some? ==>
        || RequestCashOutTarget(s.requests[q]) == owner
        || (s.requests[q].CashingOut? && owner == Some(|s.tables.cashOuts|))
  {
  }

  lemma EntryStaysAt(s: State, s': State, place: Option<nat>, e: Entry)
    requires s.tables.books.entries <= s'.tables.books.entries && EntryAt(s, place, e)
    ensures EntryAt(s', place, e)
  {
  }

  lemma OtherCashOutsStayAccounted(p: Limits.Policy, s: State, step: Step, c: CashOutId)
    requires Sound(s) && IsCashOut(s, c) && Accounted(s, c) && CashOutTarget(s, step) != Some(c)
    ensures IsCashOut(Apply(p, s, step), c) && Accounted(Apply(p, s, step), c)
  {
    var s' := Apply(p, s, step);
    OtherCashOutsUntouched(p, s, step, c);
    StepIsSound(p, s, step);
    assert s.tables.books.entries <= s'.tables.books.entries;
    hide Sound, Apply, EntryAt;
    var row := s.tables.cashOuts[c];
    EntryStaysAt(s, s', Some(row.debitEntry), DebitEntry(row.user, row.gross, c));
    EntryStaysAt(s, s', row.creditEntry, PayoutEntry(s.tables, c));
    EntryStaysAt(s, s', s.burns[c].reversal, ReversalEntry(s.tables, c));
    forall i | 0 <= i < |s'.tables.books.entries| && s'.tables.books.entries[i].cashOut == Some(c)
      ensures Some(i) == Some(row.debitEntry) || Some(i) == row.creditEntry || Some(i) == s.burns[c].reversal
    {
      if i < |s.tables.books.entries| {
        assert s.tables.books.entries[i] == s'.tables.books.entries[i];
      } else {
        CashOutLogMovesOnlyForTarget(p, s, step, i);
      }
    }
  }

  // -- each transaction on its own cash-out --------------------------------------------------

  lemma OpeningAccounts(s: State, user: UserId, price: Fees.CashOutQuote, key: Option<string>, s': State)
    requires Sound(s) && OpenCashOut(s.tables, user, price, key).Ok?
    requires s'.tables == OpenCashOut(s.tables, user, price, key).value && s'.burns == s.burns + [NEW_BURN]
    ensures var c := |s.tables.cashOuts|; IsCashOut(s', c) && Accounted(s', c) && Burnt(s', c, true)
  {
    var c, log := |s.tables.cashOuts|, s.tables.books.entries;
    assert s'.tables.books.entries == log + [DebitEntry(user, price.gross, c)];
    assert s'.tables.cashOuts[c].debitEntry == |log| && s'.burns[c] == NEW_BURN;
    forall i | 0 <= i < |log|
      ensures log[i].cashOut != Some(c)
    {
      assert log[i] in log;
      assert RemittanceEntry(s.tables, log[i]) || CashOutEntry(s.tables, log[i]);
    }
    hide Sound, OpenCashOut;
  }

  lemma CompletionAccounts(s: State, c: CashOutId, s': State)
    requires IsCashOut(s, c) && Accounted(s, c) && s.tables.cashOuts[c].status.Processing?
    requires CompleteCashOut(s.tables, c).Ok? && s'.burns == s.burns
    requires s'.tables == CompleteCashOut(s.tables, c).value
    ensures IsCashOut(s', c) && Accounted(s', c)
  {
  }

  lemma ReversalAccounts(s: State, c: CashOutId, s': State)
    requires IsCashOut(s, c) && Accounted(s, c) && FailCashOut(s.tables, c).Ok?
    requires !s.tables.cashOuts[c].status.Completed? && !s.tables.cashOuts[c].status.Failed?
    requires s'.tables == Reversed(s, c).tables && s'.burns == Reversed(s, c).burns
    ensures IsCashOut(s', c) && Accounted(s', c)
  {
  }

  /** A row whose status moves among the open ones keeps its entries. */
  lemma OpenRowAccounts(s: State, c: CashOutId, s': State)
    requires IsCashOut(s, c) && Accounted(s, c) && IsCashOut(s', c)
    requires s'.tables.books == s.tables.books
    requires s'.tables.cashOuts[c].(status := Requested) == s.tables.cashOuts[c].(status := Requested)
    requires s'.burns[c].reversal == s.burns[c].reversal
    requires s'.tables.cashOuts[c].status != s.tables.cashOuts[c].status ==>
               s.tables.cashOuts[c].creditEntry.None? && s.burns[c].reversal.None?
               && !s'.tables.cashOuts[c].status.Completed? && !s'.tables.cashOuts[c].status.Failed?
    ensures Accounted(s', c)
  {
  }

  // -- one cash-out through one step ------------------------------------------------------------

  ghost predicate InOrder(s: State, c: CashOutId, honest: bool) {
    IsCashOut(s, c) && Accounted(s, c) && Burnt(s, c, honest)
  }

  lemma CommitKeepsCashOut(p: Limits.Policy, s: State, q: RequestId, c: CashOutId, honest: bool)
    requires Sound(s) && InOrder(s, c, honest) && CommitsInTime(s, Commit(q), honest)
    requires q in s.requests && RequestCashOutTarget(s.requests[q]) == Some(c)
    ensures InOrder(CommitStep(p, s, q), c, honest)
  {
    var s' := CommitStep(p, s, q);
    if s.requests[q].Approving? {
      OpenRowAccounts(s, c, s');
    } else {
      FailCashOutIsSafe(s.tables, c);
      ReversalAccounts(s, c, s');
    }
    hide Sound, Accounted;
  }

  lemma ClaimKeepsCashOut(s: State, h: HandlerId, c: CashOutId, honest: bool)
    requires InOrder(s, c, honest) && Burns(s, h) && CashOutOf(s, h) == c
    ensures InOrder(ClaimStep(s, h), c, honest)
  {
  }

  lemma BurnKeepsCashOut(s: State, h: HandlerId, reply: Reply, c: CashOutId, honest: bool)
    requires InOrder(s, c, honest) && Burns(s, h) && CashOutOf(s, h) == c
    requires IsBurning(s, h, c) ==> BurnerSteady(s, h, c, honest)
    ensures InOrder(BurnStep(s, h, reply), c, honest)
  {
  }

  lemma OutcomeKeepsCashOut(s: State, h: HandlerId, c: CashOutId, honest: bool)
    requires Sound(s) && InOrder(s, c, honest) && Burns(s, h) && CashOutOf(s, h) == c
    requires IsBurning(s, h, c) ==> BurnerSteady(s, h, c, honest)
    ensures InOrder(CommitBurnStep(s, h), c, honest) && InOrder(CommitReversalStep(s, h), c, honest)
  {
    if s.handlers[h].phase.BurnLanded? && CompleteCashOut(s.tables, c).Ok? {
      CompletionAccounts(s, c, CommitBurnStep(s, h));
    } else if s.handlers[h].phase.BurnRejected? {
      FailCashOutIsSafe(s.tables, c);
      ReversalAccounts(s, c, CommitReversalStep(s, h));
    }
    hide Sound, Accounted;
  }

  lemma StepKeepsCashOut(p: Limits.Policy, s: State, step: Step, c: CashOutId, honest: bool)
    requires Sound(s) && AllOrNothing(s, honest) && CommitsInTime(s, step, honest)
    requires IsCashOut(Apply(p, s, step), c)
    ensures InOrder(Apply(p, s, step), c, honest)
  {
    if !IsCashOut(s, c) {
      NewCashOutInOrder(p, s, step, c, honest);
    } else {
      assert Accounted(s, c) && Burnt(s, c, honest);
      if CashOutTarget(s, step) != Some(c) {
        OtherCashOutsStayAccounted(p, s, step, c);
        OtherCashOutsUntouched(p, s, step, c);
      } else {
        TargetStaysInOrder(p, s, step, c, honest);
      }
    }
    hide Sound, AllOrNothing, Apply, CommitsInTime, Accounted;
  }

  lemma NewCashOutInOrder(p: Limits.Policy, s: State, step: Step, c: CashOutId, honest: bool)
    requires Sound(s) && !IsCashOut(s, c) && IsCashOut(Apply(p, s, step), c)
    ensures InOrder(Apply(p, s, step), c, honest)
  {
    NewRowsComeFromRequests(p, s, step);
    var r := s.requests[step.q];
    OpeningAccounts(s, r.user, r.price, r.key, Apply(p, s, step));
    hide Sound, Accounted, OpenCashOut;
  }

  lemma TargetStaysInOrder(p: Limits.Policy, s: State, step: Step, c: CashOutId, honest: bool)
    requires Sound(s) && AllOrNothing(s, honest) && CommitsInTime(s, step, honest)
    requires InOrder(s, c, honest) && CashOutTarget(s, step) == Some(c)
    ensures InOrder(Apply(p, s, step), c, honest)
  {
    if step.Commit? {
      CommitKeepsCashOut(p, s, step.q, c, honest);
    } else {
      assert IsBurning(s, step.h, c) ==> BurnerSteady(s, step.h, c, honest);
      hide Sound, AllOrNothing, InOrder, ClaimStep, BurnStep, CommitBurnStep, CommitReversalStep;
      if step.Claim? {
        ClaimKeepsCashOut(s, step.h, c, honest);
      } else if step.Burn? {
        BurnKeepsCashOut(s, step.h, step.reply, c, honest);
      } else {
        OutcomeKeepsCashOut(s, step.h, c, honest);
      }
    }
    hide Sound, AllOrNothing, InOrder, CommitsInTime;
  }

  // -- burners --------------------------------------------------------------------------------

  /** Only the claim of an APPROVED cash-out starts a burn. */
  lemma BurningStartsWithAClaim(p: Limits.Policy, s: State, step: Step, h: HandlerId, c: CashOutId)
    requires Sound(s) && IsBurning(Apply(p, s, step), h, c) && !IsBurning(s, h, c)
    ensures step == Claim(h) && Burns(s, h) && CashOutOf(s, h) == c && s.tables.cashOuts[c].status.Approved?
  {
    var s' := Apply(p, s, step);
    if h !in s.handlers {
      NewHandlersWait(p, s, step, h);
    } else {
      HandlersKeepTheirEntry(p, s, step, h);
      StreamMovesOnlyBy(p, s, step);
      assert HandlerSound(s, h);
      assert MessageOf(s', h) == MessageOf(s, h) && MessageKnown(s, MessageOf(s, h));
      if Actor(step) != Some(h) {
        OtherHandlersUntouched(p, s, step, h);
      }
    }
    hide Sound, CommitStep;
  }

  lemma StepKeepsBurnersApart(
    p: Limits.Policy, s: State, step: Step, g: HandlerId, h: HandlerId, c: CashOutId, honest: bool)
    requires Sound(s) && AllOrNothing(s, honest) && g != h
    ensures !(IsBurning(Apply(p, s, step), g, c) && IsBurning(Apply(p, s, step), h, c))
  {
    var s' := Apply(p, s, step);
    if IsBurning(s', g, c) && IsBurning(s', h, c) {
      assert IsBurning(s, g, c) ==> BurnerSteady(s, g, c, honest);
      assert IsBurning(s, h, c) ==> BurnerSteady(s, h, c, honest);
      if !IsBurning(s, g, c) {
        BurningStartsWithAClaim(p, s, step, g, c);
      }
      if !IsBurning(s, h, c) {
        BurningStartsWithAClaim(p, s, step, h, c);
      }
    }
    hide Sound, Apply;
  }

  /** While a handler burns a cash-out no other step moves it. */
  lemma OnlyTheBurnerMoves(p: Limits.Policy, s: State, step: Step, h: HandlerId, c: CashOutId, honest: bool)
    requires AllOrNothing(s, honest) && CommitsInTime(s, step, honest) && IsBurning(s, h, c)
    requires Actor(step) != Some(h)
    ensures
      var s' := Apply(p, s, step);
      && IsCashOut(s', c)
      && s'.tables.cashOuts[c].status == s.tables.cashOuts[c].status && s'.burns[c] == s.burns[c]
  {
    assert BurnerSteady(s, h, c, honest);
    assert forall g :: IsBurning(s, g, c) ==> g == h;
    if CashOutTarget(s, step) != Some(c) {
      OtherCashOutsUntouched(p, s, step, c);
    } else {
      assert !IsBurning(s, step.h, c);
    }
    hide AllOrNothing, CommitStep;
  }

  lemma StepKeepsBurnerSteady(p: Limits.Policy, s: State, step: Step, h: HandlerId, c: CashOutId, honest: bool)
    requires Sound(s) && AllOrNothing(s, honest) && CommitsInTime(s, step, honest)
    requires honest ==> RaisedBurnDidNotLand(step)
    requires IsBurning(Apply(p, s, step), h, c)
    ensures BurnerSteady(Apply(p, s, step), h, c, honest)
  {
    if !IsBurning(s, h, c) {
      BurningStartsWithAClaim(p, s, step, h, c);
      assert Burnt(s, c, honest);
      hide Sound, AllOrNothing;
    } else if Actor(step) != Some(h) {
      assert BurnerSteady(s, h, c, honest);
      OnlyTheBurnerMoves(p, s, step, h, c, honest);
      OtherHandlersUntouched(p, s, step, h);
      hide Sound, AllOrNothing, Apply;
    } else {
      assert BurnerSteady(s, h, c, honest) && Burnt(s, c, honest);
      hide Sound, AllOrNothing;
      BurnerStaysSteady(p, s, step, h, c, honest);
    }
  }

  lemma BurnerStaysSteady(p: Limits.Policy, s: State, step: Step, h: HandlerId, c: CashOutId, honest: bool)
    requires IsBurning(s, h, c) && BurnerSteady(s, h, c, honest) && Burnt(s, c, honest) && Actor(step) == Some(h)
    requires honest ==> RaisedBurnDidNotLand(step)
    requires IsBurning(Apply(p, s, step), h, c)
    ensures BurnerSteady(Apply(p, s, step), h, c, honest)
  {
  }

  // -- one step ---------------------------------------------------------------------------------

  lemma StepStaysAllOrNothing(p: Limits.Policy, s: State, step: Step, honest: bool)
    requires Sound(s) && AllOrNothing(s, honest) && CommitsInTime(s, step, honest)
    requires honest ==> RaisedBurnDidNotLand(step)
    ensures AllOrNothing(Apply(p, s, step), honest)
  {
    var s' := Apply(p, s, step);
    hide Sound, AllOrNothing, Apply, CommitsInTime, Accounted, Burnt, IsBurning, BurnerSteady;
    forall c: nat | IsCashOut(s', c)
      ensures Accounted(s', c) && Burnt(s', c, honest)
    {
      StepKeepsCashOut(p, s, step, c, honest);
    }
    forall h, c | IsBurning(s', h, c)
      ensures BurnerSteady(s', h, c, honest)
    {
      StepKeepsBurnerSteady(p, s, step, h, c, honest);
    }
    forall g, h, c | IsBurning(s', g, c) && IsBurning(s', h, c)
      ensures g == h
    {
      if g != h {
        StepKeepsBurnersApart(p, s, step, g, h, c, honest);
      }
    }
    EachAllOrNothing(s', honest);
  }

  lemma EachAllOrNothing(s: State, honest: bool)
    requires forall c: nat | IsCashOut(s, c) :: Accounted(s, c) && Burnt(s, c, honest)
    requires forall h, c | IsBurning(s, h, c) :: BurnerSteady(s, h, c, honest)
    requires forall g, h, c | IsBurning(s, g, c) && IsBurning(s, h, c) :: g == h
    ensures AllOrNothing(s, honest)
  {
  }

  // -- exactly when a step keeps it ----------------------------------------------------------------

  /** An approval or rejection that comes too late for its cash-out breaks it, whichever way it is late. */
  lemma LateCommitBreaksIt(p: Limits.Policy, s: State, q: RequestId, honest: bool)
    requires Sound(s) && AllOrNothing(s, honest) && !CommitsInTime(s, Commit(q), honest)
    ensures !AllOrNothing(CommitStep(p, s, q), honest)
  {
    var c, s' := s.requests[q].cashOut, CommitStep(p, s, q);
    assert Accounted(s, c) && Burnt(s, c, honest);
    FailCashOutIsSafe(s.tables, c);
    hide Sound, AllOrNothing, Takes, Accounted;
    if s.tables.cashOuts[c].status.Processing? {
      LateForProcessing(p, s, q, honest);
    } else {
      LateForFinal(p, s, q, c);
    }
    if AllOrNothing(s', honest) {
      EachIsAllOrNothing(s', c, honest);
    }
  }

  lemma EachIsAllOrNothing(s: State, c: CashOutId, honest: bool)
    requires AllOrNothing(s, honest) && IsCashOut(s, c)
    ensures Accounted(s, c) && Burnt(s, c, honest)
    ensures forall h :: IsBurning(s, h, c) ==> BurnerSteady(s, h, c, honest)
  {
  }

  lemma LateForProcessing(p: Limits.Policy, s: State, q: RequestId, honest: bool)
    requires q in s.requests && WritesCashOut(s.requests[q]) && IsCashOut(s, s.requests[q].cashOut)
    requires var c := s.requests[q].cashOut;
             s.tables.cashOuts[c].status.Processing? && !Takes(s, c, s.requests[q].Approving?, honest)
             && FailCashOut(s.tables, c).Ok?
    ensures
      var c, s' := s.requests[q].cashOut, CommitStep(p, s, q);
      && IsCashOut(s', c)
      && (Burnt(s', c, honest) ==> exists h :: IsBurning(s', h, c) && !BurnerSteady(s', h, c, honest))
  {
    var c, s' := s.requests[q].cashOut, CommitStep(p, s, q);
    if h :| IsBurning(s, h, c) {
      assert IsBurning(s', h, c);
    }
  }

  lemma LateForFinal(p: Limits.Policy, s: State, q: RequestId, c: CashOutId)
    requires q in s.requests && WritesCashOut(s.requests[q]) && s.requests[q].cashOut == c
    requires IsCashOut(s, c) && Accounted(s, c) && FailCashOut(s.tables, c).Ok?
    requires s.tables.cashOuts[c].status.Completed? || s.tables.cashOuts[c].status.Failed?
    ensures IsCashOut(CommitStep(p, s, q), c) && !Accounted(CommitStep(p, s, q), c)
  {
    var s' := CommitStep(p, s, q);
    if s.tables.cashOuts[c].status.Failed? && s.requests[q].Rejecting? {
      var k := s.burns[c].reversal.value;
      assert s'.tables.books.entries[k] == ReversalEntry(s.tables, c);
    }
  }

  /**
   A step keeps every cash-out all or nothing if and only if it is no
   approval or rejection that comes too late for its cash-out.
   */
  lemma StaysAllOrNothingExactlyWhen(p: Limits.Policy, s: State, step: Step, honest: bool)
    requires Sound(s) && AllOrNothing(s, honest) && (honest ==> RaisedBurnDidNotLand(step))
    ensures AllOrNothing(Apply(p, s, step), honest) <==> CommitsInTime(s, step, honest)
  {
    if CommitsInTime(s, step, honest) {
      StepStaysAllOrNothing(p, s, step, honest);
    } else {
      LateCommitBreaksIt(p, s, step.q, honest);
      assert Apply(p, s, step) == CommitStep(p, s, step.q);
    }
    hide Sound, AllOrNothing, CommitsInTime, Apply, CommitStep;
  }

  /** A landed burn is about to pay out a cash-out. */
  predicate AboutToComplete(s: State, step: Step, c: CashOutId) {
    && step.CommitBurn? && InPhase(s, step.h, BurnLanded) && Burns(s, step.h) && CashOutOf(s, step.h) == c
    && s.tables.cashOuts[c].payoutAmount > 0
  }

  /**
   With nothing assumed, a COMPLETED or FAILED cash-out leaves that status
   at exactly these steps: an approval of it, a rejection of one that was
   paid out, and a landed burn paying out one that was refunded.
   */
  lemma OutcomeIsLostExactlyWhen(p: Limits.Policy, s: State, step: Step, c: CashOutId)
    requires Sound(s) && IsCashOut(s, c)
    requires s.tables.cashOuts[c].status.Completed? || s.tables.cashOuts[c].status.Failed?
    ensures IsCashOut(Apply(p, s, step), c)
    ensures
      var status := s.tables.cashOuts[c].status;
      Apply(p, s, step).tables.cashOuts[c].status != status <==>
        || (step.Commit? && step.q in s.requests && s.requests[step.q] == Approving(c))
        || (step.Commit? && step.q in s.requests && s.requests[step.q].Rejecting? && s.requests[step.q].cashOut == c
            && status.Completed?)
        || (AboutToComplete(s, step, c) && status.Failed?)
  {
    if CashOutTarget(s, step) != Some(c) {
      OtherCashOutsUntouched(p, s, step, c);
    } else if step.Commit? {
      FailCashOutIsSafe(s.tables, c);
    }
    hide Sound, Safe;
  }

  // -- runs ----------------------------------------------------------------------------------------

  lemma {:induction false} RunStaysAllOrNothing(p: Limits.Policy, s: State, steps: seq<Step>, a: Assumed)
    requires Sound(s) && AllOrNothing(s, a.burns) && Run(p, s, steps, a) && a.cashOutChecks
    ensures Sound(After(p, s, steps)) && AllOrNothing(After(p, s, steps), a.burns)
    decreases |steps|
  {
    if steps != [] {
      StepIsSound(p, s, steps[0]);
      FreshCommitsAreInTime(p, s, steps[0], a.burns);
      StepStaysAllOrNothing(p, s, steps[0], a.burns);
      hide Sound, AllOrNothing, Apply, CashOutChecksPass, CommitsInTime, RaisedBurnDidNotLand;
      RunStaysAllOrNothing(p, Apply(p, s, steps[0]), steps[1..], a);
    }
  }

  /** Where the log speaks of a cash-out. */
  ghost function EntriesOf(log: seq<Entry>, c: CashOutId): set<nat> {
    set i: nat | i < |log| && log[i].cashOut == Some(c)
  }

  /**
   In every run each cash-out is burned at most once; its log holds its
   debit, plus the payout exactly if it is COMPLETED, plus the reversal
   exactly if it is FAILED; COMPLETED means the burn landed, and FAILED
   that it did not.
   */
  lemma EveryCashOutIsAllOrNothing(
    p: Limits.Policy, pool: int, now: Instant, steps: seq<Step>, a: Assumed, c: CashOutId)
    requires Run(p, Init(pool, now), steps, a) && a.cashOutChecks
    requires IsCashOut(After(p, Init(pool, now), steps), c)
    ensures
      var s := After(p, Init(pool, now), steps);
      var row, burn, log := s.tables.cashOuts[c], s.burns[c], s.tables.books.entries;
      var d := row.debitEntry;
      && burn.landed <= burn.submitted <= 1
      && d in EntriesOf(log, c) && log[d] == DebitEntry(row.user, row.gross, c)
      && (row.status.Completed? ==>
            && burn.landed == 1 && row.payoutAmount > 0
            && exists k: nat :: k != d && EntriesOf(log, c) == {d, k} && log[k] == PayoutEntry(s.tables, c))
      && (row.status.Failed? ==>
            && (a.burns ==> burn.landed == 0)
            && exists k: nat :: k != d && EntriesOf(log, c) == {d, k} && log[k] == ReversalEntry(s.tables, c))
      && (!row.status.Completed? && !row.status.Failed? ==> EntriesOf(log, c) == {d})
  {
    RunStaysAllOrNothing(p, Init(pool, now), steps, a);
    var s := After(p, Init(pool, now), steps);
    assert Accounted(s, c) && Burnt(s, c, a.burns);
    hide Run, After, AllOrNothing, Sound;
    EntriesAreExact(s, c);
  }

  lemma EntriesAreExact(s: State, c: CashOutId)
    requires IsCashOut(s, c) && Accounted(s, c)
    ensures
      var row, log := s.tables.cashOuts[c], s.tables.books.entries;
      var d := row.debitEntry;
      && d in EntriesOf(log, c) && log[d] == DebitEntry(row.user, row.gross, c)
      && (row.status.Completed? ==>
            var k := row.creditEntry.value; k != d && EntriesOf(log, c) == {d, k} && log[k] == PayoutEntry(s.tables, c))
      && (row.status.Failed? ==>
            var k := s.burns[c].reversal.value;
            k != d && EntriesOf(log, c) == {d, k} && log[k] == ReversalEntry(s.tables, c))
      && (!row.status.Completed? && !row.status.Failed? ==> EntriesOf(log, c) == {d})
  {
  }

  // -- a cash-out whose burner stopped -------------------------------------------------------------

  /** No request that looks at the row again would commit to a cash-out being burned. */
  lemma FreshRequestsLeaveProcessingAlone(p: Limits.Policy, s: State, step: Step, c: CashOutId)
    requires IsCashOut(s, c) && s.tables.cashOuts[c].status.Processing? && CashOutChecksPass(p, s, step)
    ensures step.Commit? ==> CashOutTarget(s, step) != Some(c)
  {
  }

  /** PROCESSING with no handler at work on it. */
  ghost predicate Abandoned(s: State, c: CashOutId) {
    IsCashOut(s, c) && s.tables.cashOuts[c].status.Processing? && forall h :: !IsBurning(s, h, c)
  }

  lemma AbandonedStepChangesNothing(p: Limits.Policy, s: State, step: Step, c: CashOutId)
    requires Sound(s) && Abandoned(s, c) && CashOutChecksPass(p, s, step)
    ensures
      var s' := Apply(p, s, step);
      Abandoned(s', c) && s'.tables.cashOuts[c] == s.tables.cashOuts[c] && s'.burns[c] == s.burns[c]
  {
    var s' := Apply(p, s, step);
    FreshRequestsLeaveProcessingAlone(p, s, step, c);
    if CashOutTarget(s, step) != Some(c) {
      OtherCashOutsUntouched(p, s, step, c);
    } else {
      assert !IsBurning(s, step.h, c);
    }
    forall h
      ensures !IsBurning(s', h, c)
    {
      if IsBurning(s', h, c) {
        assert !IsBurning(s, h, c);
        BurningStartsWithAClaim(p, s, step, h, c);
      }
      hide Sound, Apply;
    }
    hide Sound, IsBurning, CommitStep;
  }

  /** No redelivery, retry or admin action ever completes or refunds such a cash-out. */
  lemma {:induction false} AbandonedForever(p: Limits.Policy, s: State, steps: seq<Step>, a: Assumed, c: CashOutId)
    requires Sound(s) && Abandoned(s, c) && Run(p, s, steps, a) && a.cashOutChecks
    ensures
      var s' := After(p, s, steps);
      Abandoned(s', c) && s'.tables.cashOuts[c] == s.tables.cashOuts[c] && s'.burns[c] == s.burns[c]
    decreases |steps|
  {
    if steps != [] {
      StepIsSound(p, s, steps[0]);
      AbandonedStepChangesNothing(p, s, steps[0], c);
      hide Sound, Abandoned, Apply, CashOutChecksPass;
      AbandonedForever(p, Apply(p, s, steps[0]), steps[1..], a, c);
    }
  }

  /** A worker that dies between claiming a cash-out and recording its outcome leaves it PROCESSING for good. */
  lemma ABurnersDeathIsFinal(
    p: Limits.Policy, s: State, h: HandlerId, c: CashOutId, more: seq<Step>, a: Assumed)
    requires Sound(s) && AllOrNothing(s, a.burns) && IsBurning(s, h, c) && a.cashOutChecks
    requires Run(p, Stopped(s, h), more, a)
    ensures
      var s' := After(p, Stopped(s, h), more);
      && IsCashOut(s', c) && s'.tables.cashOuts[c] == s.tables.cashOuts[c] && s'.burns[c] == s.burns[c]
      && s'.tables.cashOuts[c].status.Processing?
  {
    var s1 := Stopped(s, h);
    assert BurnerSteady(s, h, c, a.burns);
    assert Abandoned(s1, c) by {
      forall g
        ensures !IsBurning(s1, g, c)
      {
        assert IsBurning(s1, g, c) ==> IsBurning(s, g, c);
      }
    }
    StepIsSound(p, s, Crash(h));
    hide Sound, AllOrNothing, IsBurning;
    AbandonedForever(p, s1, more, a, c);
  }

  /** A landed burn completes exactly if the payout is positive; otherwise nothing commits and the handler stops. */
  lemma LandedBurnCompletesExactlyWhenItPaysOut(s: State, h: HandlerId, c: CashOutId)
    requires IsBurning(s, h, c) && s.handlers[h].phase.BurnLanded? && !s.tables.cashOuts[c].status.Completed?
    ensures
      var s' := CommitBurnStep(s, h);
      && (s'.tables.cashOuts[c].status.Completed? <==> s.tables.cashOuts[c].payoutAmount > 0)
      && (s.tables.cashOuts[c].payoutAmount == 0 ==> s'.tables == s.tables && h !in s'.handlers)
  {
  }
}
