/**
 Safety over every run, with no assumption on timing: messages may be
 duplicated or taken over from a live handler, requests may act on stale
 reads, payments may land and still raise.
 */
module SettlementSafety {
  import opened Wrappers
  import opened Schema
  import opened Bookkeeping
  import opened Transactions
  import opened Stream
  import opened Protocol
  import opened TableSafety
  import Fees
  import Limits

  // -- the invariant -------------------------------------------------------------

  predicate MessageKnown(s: State, m: Message) {
    match m
    case SettleRemittance(id) => IsRemittance(s, id)
    case BurnCashOut(id) => IsCashOut(s, id)
  }

  ghost predicate HandlerSound(s: State, h: HandlerId)
    requires h in s.handlers
  {
    var phase := s.handlers[h].phase;
    && s.handlers[h].entry < s.stream.delivered
    && (phase.Claimed? || phase.Ready? || phase.Paid? || phase.MustFail? || phase.Failing? ==> Settles(s, h))
    && (phase.BurnClaimed? || phase.BurnLanded? || phase.BurnRejected? ==> Burns(s, h))
    && (phase.Paid? ==> s.trails[RemittanceOf(s, h)].landed > 0)
  }

  ghost predicate TrailSound(s: State, id: RemittanceId)
    requires IsRemittance(s, id)
  {
    var trail := s.trails[id];
    && (trail.credited <==> IsCredited(s.tables, id))
    && (trail.credited ==> trail.landed > 0)
    && trail.landed <= trail.submitted
    && (trail.lastClaim.Some? ==>
          && trail.lastClaim.value < s.stream.delivered <= |s.stream.messages|
          && s.stream.messages[trail.lastClaim.value] == SettleRemittance(id))
  }

  ghost predicate RequestSound(s: State, r: Request) {
    match r
    case Quoting(_, _, quote, askedAt) => Priced(quote) && askedAt <= s.now
    case Confirming(id) => IsRemittance(s, id)
    case Queueing(id, _, _) => IsRemittance(s, id)
    case Requeueing(id) => IsRemittance(s, id)
    case Refunding(id) => IsRemittance(s, id)
    case CashingOut(_, price, _) => PricedCashOut(price)
    case Approving(id) => IsCashOut(s, id)
    case QueueingBurn(id) => IsCashOut(s, id)
    case Rejecting(id, _) => IsCashOut(s, id)
  }

  ghost predicate Sound(s: State) {
    && Safe(s.tables)
    && |s.trails| == |s.tables.remittances| && |s.burns| == |s.tables.cashOuts|
    && WellFormed(s.stream)
    && (forall m :: m in s.stream.messages ==> MessageKnown(s, m))
    && (forall h :: h in s.handlers ==> HandlerSound(s, h))
    && (forall q :: q in s.requests ==> RequestSound(s, s.requests[q]))
    && (forall id: nat :: id < |s.trails| ==> TrailSound(s, id))
  }

  lemma PartsAreSound(s: State)
    requires Sound(s)
    ensures Safe(s.tables) && WellFormed(s.stream)
    ensures |s.trails| == |s.tables.remittances| && |s.burns| == |s.tables.cashOuts|
  {
  }

  lemma HandlerIsSound(s: State, h: HandlerId)
    requires Sound(s)
    ensures h in s.handlers ==> HandlerSound(s, h)
  {
  }

  lemma RequestIsSound(s: State, q: RequestId)
    requires Sound(s)
    ensures q in s.requests ==> RequestSound(s, s.requests[q])
  {
  }

  lemma TrailsAreSound(s: State)
    requires Sound(s)
    ensures forall id: nat :: id < |s.trails| ==> IsRemittance(s, id) && TrailSound(s, id)
  {
  }

  lemma InitIsSound(pool: int, now: Instant)
    ensures Sound(Init(pool, now))
  {
  }

  // -- what growth of a state leaves alone ------------------------------------------

  ghost predicate Grows(s: State, s': State) {
    && Extends(s.tables, s'.tables)
    && |s.trails| <= |s'.trails| && |s.burns| <= |s'.burns|
    && s.stream.messages <= s'.stream.messages && s.stream.delivered <= s'.stream.delivered
    && s.now <= s'.now
    && forall id: nat :: id < |s.trails| ==>
         s.trails[id].landed <= s'.trails[id].landed && s.trails[id].submitted <= s'.trails[id].submitted
  }

  /** Everything in Sound but the tables, when only they and one trail moved. */
  lemma GrowthIsSound(s: State, s': State)
    requires Sound(s) && Grows(s, s') && Safe(s'.tables)
    requires |s'.trails| == |s'.tables.remittances| && |s'.burns| == |s'.tables.cashOuts|
    requires WellFormed(s'.stream)
    requires forall m :: m in s'.stream.messages ==> m in s.stream.messages || MessageKnown(s', m)
    requires forall h :: h in s'.handlers ==> (h in s.handlers && s'.handlers[h] == s.handlers[h]) || HandlerSound(s', h)
    requires forall q :: q in s'.requests ==>
               (q in s.requests && s'.requests[q] == s.requests[q]) || RequestSound(s', s'.requests[q])
    requires forall id: nat :: id < |s'.trails| ==> TrailSound(s', id)
    ensures Sound(s')
  {
  }

  // -- steps ----------------------------------------------------------------------------

  /** A step that leaves the tables alone. */
  lemma QuietStepIsSound(s: State, s': State)
    requires Sound(s) && Grows(s, s') && s'.tables == s.tables
    requires |s'.trails| == |s.trails| && |s'.burns| == |s.burns| && WellFormed(s'.stream)
    requires forall m :: m in s'.stream.messages ==> m in s.stream.messages || MessageKnown(s', m)
    requires forall h :: h in s'.handlers ==> (h in s.handlers && s'.handlers[h] == s.handlers[h]) || HandlerSound(s', h)
    requires forall q :: q in s'.requests ==>
               (q in s.requests && s'.requests[q] == s.requests[q]) || RequestSound(s', s'.requests[q])
    requires forall id: nat :: id < |s.trails| ==>
               var trail, trail' := s.trails[id], s'.trails[id];
               && trail'.credited == trail.credited && trail'.lastClaim == trail.lastClaim
               && trail'.landed <= trail'.submitted
    ensures Sound(s')
  {
    forall id: nat | id < |s'.trails|
      ensures TrailSound(s', id)
    {
      assert TrailSound(s, id);
    }
    GrowthIsSound(s, s');
  }

  lemma BeginIsSound(p: Limits.Policy, s: State, q: RequestId, r: Request)
    requires Sound(s)
    ensures Sound(BeginStep(p, s, q, r)) && Grows(s, BeginStep(p, s, q, r))
  {
    PartsAreSound(s);
    TrailsSubmittedCoverLanded(s);
    hide Sound, Safe;
    QuietStepIsSound(s, BeginStep(p, s, q, r));
  }

  lemma PublishIsSound(s: State, q: RequestId)
    requires Sound(s)
    ensures Sound(PublishStep(s, q)) && Grows(s, PublishStep(s, q))
  {
    PartsAreSound(s);
    TrailsSubmittedCoverLanded(s);
    RequestIsSound(s, q);
    hide Sound, Safe;
    QuietStepIsSound(s, PublishStep(s, q));
  }

  lemma DoneIsSound(s: State, q: RequestId)
    requires Sound(s)
    ensures Sound(Done(s, q)) && Grows(s, Done(s, q))
  {
    PartsAreSound(s);
    TrailsSubmittedCoverLanded(s);
    hide Sound, Safe;
    QuietStepIsSound(s, Done(s, q));
  }

  lemma TrailsSubmittedCoverLanded(s: State)
    requires Sound(s)
    ensures forall id: nat :: id < |s.trails| ==> s.trails[id].landed <= s.trails[id].submitted
  {
    TrailsAreSound(s);
    hide Sound;
    forall id: nat | id < |s.trails|
      ensures s.trails[id].landed <= s.trails[id].submitted
    {
      assert TrailSound(s, id);
    }
  }

  lemma DeliveryIsSound(s: State, h: HandlerId, c: Consumer)
    requires Sound(s)
    ensures Sound(ReadNewStep(s, h, c)) && Grows(s, ReadNewStep(s, h, c))
  {
    PartsAreSound(s);
    TrailsSubmittedCoverLanded(s);
    hide Sound, Safe;
    QuietStepIsSound(s, ReadNewStep(s, h, c));
  }

  lemma HandoverIsSound(s: State, h: HandlerId, e: EntryId, c: Consumer)
    requires Sound(s)
    ensures Sound(ReclaimStep(s, h, e, c)) && Grows(s, ReclaimStep(s, h, e, c))
  {
    PartsAreSound(s);
    TrailsSubmittedCoverLanded(s);
    hide Sound, Safe;
    QuietStepIsSound(s, ReclaimStep(s, h, e, c));
  }

  lemma StopIsSound(s: State, h: HandlerId)
    requires Sound(s)
    ensures Sound(AckStep(s, h)) && Grows(s, AckStep(s, h))
    ensures Sound(Stopped(s, h)) && Grows(s, Stopped(s, h))
  {
    PartsAreSound(s);
    TrailsSubmittedCoverLanded(s);
    hide Sound, Safe;
    QuietStepIsSound(s, AckStep(s, h));
    QuietStepIsSound(s, Stopped(s, h));
  }

  lemma TickIsSound(s: State, d: nat)
    requires Sound(s)
    ensures var later := s.(now := s.now + d); Sound(later) && Grows(s, later)
  {
    PartsAreSound(s);
    TrailsSubmittedCoverLanded(s);
    var later := s.(now := s.now + d);
    forall q | q in later.requests
      ensures RequestSound(later, later.requests[q])
    {
      RequestIsSound(s, q);
    }
    hide Sound, Safe;
    QuietStepIsSound(s, later);
  }

  lemma LookupIsSound(s: State, h: HandlerId, r: Resolution)
    requires Sound(s)
    ensures Sound(ResolveStep(s, h, r)) && Grows(s, ResolveStep(s, h, r))
  {
    PartsAreSound(s);
    TrailsSubmittedCoverLanded(s);
    HandlerIsSound(s, h);
    hide Sound, Safe;
    QuietStepIsSound(s, ResolveStep(s, h, r));
  }

  lemma LoadIsSound(s: State, h: HandlerId)
    requires Sound(s)
    ensures Sound(LoadForFailureStep(s, h)) && Grows(s, LoadForFailureStep(s, h))
  {
    PartsAreSound(s);
    TrailsSubmittedCoverLanded(s);
    HandlerIsSound(s, h);
    hide Sound, Safe;
    QuietStepIsSound(s, LoadForFailureStep(s, h));
  }

  lemma PayIsSound(s: State, h: HandlerId, reply: Reply)
    requires Sound(s)
    ensures Sound(PayStep(s, h, reply)) && Grows(s, PayStep(s, h, reply))
  {
    PartsAreSound(s);
    TrailsSubmittedCoverLanded(s);
    HandlerIsSound(s, h);
    hide Sound, Safe;
    QuietStepIsSound(s, PayStep(s, h, reply));
  }

  lemma BurnIsSound(s: State, h: HandlerId, reply: Reply)
    requires Sound(s)
    ensures Sound(BurnStep(s, h, reply)) && Grows(s, BurnStep(s, h, reply))
  {
    PartsAreSound(s);
    TrailsSubmittedCoverLanded(s);
    HandlerIsSound(s, h);
    hide Sound, Safe;
    QuietStepIsSound(s, BurnStep(s, h, reply));
  }

  lemma ClaimKeepsTrail(s: State, h: HandlerId, id: RemittanceId)
    requires IsRemittance(s, id) && TrailSound(s, id) && WellFormed(s.stream)
    requires h in s.handlers ==> HandlerSound(s, h)
    ensures TrailSound(ClaimStep(s, h), id)
  {
  }

  /** What a handler's commit leaves alone. */
  ghost predicate MovesOnly(s: State, s': State) {
    && s'.stream == s.stream && s'.requests == s.requests && s'.now == s.now
    && |s'.trails| == |s.trails| == |s'.tables.remittances|
    && |s'.burns| == |s.burns| == |s'.tables.cashOuts|
    && (forall id: nat :: id < |s.trails| ==>
          s'.trails[id].landed == s.trails[id].landed && s'.trails[id].submitted == s.trails[id].submitted)
    && (forall g :: g in s'.handlers ==> g in s.handlers && (s'.handlers[g] == s.handlers[g] || HandlerSound(s', g)))
  }

  lemma ClaimMovesOnly(s: State, h: HandlerId)
    requires |s.trails| == |s.tables.remittances| && |s.burns| == |s.tables.cashOuts|
    requires h in s.handlers ==> HandlerSound(s, h)
    ensures MovesOnly(s, ClaimStep(s, h))
  {
  }

  lemma SuccessMovesOnly(s: State, h: HandlerId)
    requires |s.trails| == |s.tables.remittances| && |s.burns| == |s.tables.cashOuts|
    requires h in s.handlers ==> HandlerSound(s, h)
    ensures MovesOnly(s, CommitSuccessStep(s, h))
  {
  }

  lemma FailureMovesOnly(s: State, h: HandlerId)
    requires |s.trails| == |s.tables.remittances| && |s.burns| == |s.tables.cashOuts|
    requires h in s.handlers ==> HandlerSound(s, h)
    ensures MovesOnly(s, CommitFailureStep(s, h))
  {
  }

  lemma CommittedMoveIsSound(s: State, s': State)
    requires Sound(s) && MovesOnly(s, s') && Safe(s'.tables) && Extends(s.tables, s'.tables)
    requires forall id: nat :: IsRemittance(s', id) ==> TrailSound(s', id)
    ensures Sound(s') && Grows(s, s')
  {
  }

  lemma ClaimIsSound(s: State, h: HandlerId)
    requires Sound(s)
    ensures Sound(ClaimStep(s, h)) && Grows(s, ClaimStep(s, h))
  {
    var s' := ClaimStep(s, h);
    PartsAreSound(s);
    TrailsAreSound(s);
    HandlerIsSound(s, h);
    ClaimedTablesAreSafe(s, h);
    ClaimMovesOnly(s, h);
    hide Sound, Safe, TrailSound, Extends, HandlerSound, ClaimStep;
    forall id: nat | IsRemittance(s', id)
      ensures TrailSound(s', id)
    {
      assert IsRemittance(s, id) && TrailSound(s, id);
      ClaimKeepsTrail(s, h, id);
    }
    CommittedMoveIsSound(s, s');
  }

  lemma ClaimedTablesAreSafe(s: State, h: HandlerId)
    requires Sound(s)
    ensures Safe(ClaimStep(s, h).tables) && Extends(s.tables, ClaimStep(s, h).tables)
  {
    PartsAreSound(s);
    RowUpdateIsSafe(s.tables, ClaimStep(s, h).tables);
    hide Sound;
  }

  lemma SuccessIsRecordedSafely(s: State, h: HandlerId)
    requires Sound(s)
    ensures var s' := CommitSuccessStep(s, h); Safe(s'.tables) && Extends(s.tables, s'.tables)
  {
    PartsAreSound(s);
    if Settles(s, h) && s.handlers[h].phase.Paid? {
      var id, loaded := RemittanceOf(s, h), s.handlers[h].phase.loaded;
      if RecordSuccess(s.tables, id, loaded).Ok? {
        RecordSuccessIsSafe(s.tables, id, loaded);
      }
    }
    hide Sound, Safe, RecordSuccess;
  }

  lemma SuccessKeepsTrail(s: State, h: HandlerId, id: RemittanceId)
    requires Sound(s) && IsRemittance(s, id)
    ensures IsRemittance(CommitSuccessStep(s, h), id) && TrailSound(CommitSuccessStep(s, h), id)
  {
    TrailsAreSound(s);
    HandlerIsSound(s, h);
    assert TrailSound(s, id);
    SuccessIsRecordedSafely(s, h);
    hide Sound, Safe;
  }

  lemma CommitSuccessIsSound(s: State, h: HandlerId)
    requires Sound(s)
    ensures Sound(CommitSuccessStep(s, h)) && Grows(s, CommitSuccessStep(s, h))
  {
    var s' := CommitSuccessStep(s, h);
    PartsAreSound(s);
    HandlerIsSound(s, h);
    SuccessIsRecordedSafely(s, h);
    SuccessMovesOnly(s, h);
    hide Sound, Safe, TrailSound, Extends, HandlerSound, CommitSuccessStep;
    forall id: nat | IsRemittance(s', id)
      ensures TrailSound(s', id)
    {
      SuccessKeepsTrail(s, h, id);
    }
    CommittedMoveIsSound(s, s');
  }

  lemma FailureIsRecordedSafely(s: State, h: HandlerId)
    requires Sound(s)
    ensures var s' := CommitFailureStep(s, h); Safe(s'.tables) && Extends(s.tables, s'.tables)
  {
    PartsAreSound(s);
    if Settles(s, h) && s.handlers[h].phase.Failing? {
      var id, f := RemittanceOf(s, h), s.handlers[h].phase;
      if RecordFailure(s.tables, id, f.loaded, f.noted).Ok? {
        RecordFailureIsSafe(s.tables, id, f.loaded, f.noted);
      }
    }
    hide Sound, Safe, RecordFailure;
  }

  lemma FailureKeepsTrail(s: State, h: HandlerId, id: RemittanceId)
    requires Sound(s) && IsRemittance(s, id)
    ensures IsRemittance(CommitFailureStep(s, h), id) && TrailSound(CommitFailureStep(s, h), id)
  {
    TrailsAreSound(s);
    assert TrailSound(s, id);
    FailureIsRecordedSafely(s, h);
    hide Sound, Safe;
  }

  lemma CommitFailureIsSound(s: State, h: HandlerId)
    requires Sound(s)
    ensures Sound(CommitFailureStep(s, h)) && Grows(s, CommitFailureStep(s, h))
  {
    var s' := CommitFailureStep(s, h);
    PartsAreSound(s);
    HandlerIsSound(s, h);
    FailureIsRecordedSafely(s, h);
    FailureMovesOnly(s, h);
    hide Sound, Safe, TrailSound, Extends, HandlerSound, CommitFailureStep;
    forall id: nat | IsRemittance(s', id)
      ensures TrailSound(s', id)
    {
      FailureKeepsTrail(s, h, id);
    }
    CommittedMoveIsSound(s, s');
  }

  lemma CommitBurnIsSound(s: State, h: HandlerId)
    requires Sound(s)
    ensures Sound(CommitBurnStep(s, h)) && Grows(s, CommitBurnStep(s, h))
  {
    PartsAreSound(s);
    HandlerIsSound(s, h);
    if Burns(s, h) && s.handlers[h].phase.BurnLanded? && CompleteCashOut(s.tables, CashOutOf(s, h)).Ok? {
      CompleteCashOutIsSafe(s.tables, CashOutOf(s, h));
    }
    hide Sound, Safe;
    CashOutCommitIsSound(s, CommitBurnStep(s, h));
  }

  lemma CommitReversalIsSound(s: State, h: HandlerId)
    requires Sound(s)
    ensures Sound(CommitReversalStep(s, h)) && Grows(s, CommitReversalStep(s, h))
  {
    PartsAreSound(s);
    HandlerIsSound(s, h);
    if Burns(s, h) {
      FailCashOutIsSafe(s.tables, CashOutOf(s, h));
    }
    hide Sound, Safe;
    CashOutCommitIsSound(s, CommitReversalStep(s, h));
  }

  /** A commit that only adds cash-out entries leaves every trail sound. */
  lemma CashOutCommitIsSound(s: State, s': State)
    requires Sound(s) && Safe(s'.tables) && Extends(s.tables, s'.tables)
    requires s'.trails == s.trails && s'.tables.remittances == s.tables.remittances
    requires s'.now == s.now && s'.stream == s.stream && |s'.burns| == |s'.tables.cashOuts|
    requires |s'.tables.books.entries| <= |s.tables.books.entries| + 1
    requires forall e :: e in s'.tables.books.entries ==> e in s.tables.books.entries || e.remittance.None?
    requires forall q :: q in s'.requests ==> q in s.requests && s'.requests[q] == s.requests[q]
    requires forall h :: h in s'.handlers ==> h in s.handlers && (s'.handlers[h] == s.handlers[h] || HandlerSound(s', h))
    ensures Sound(s') && Grows(s, s')
  {
    PartsAreSound(s);
    TrailsAreSound(s);
    hide Sound, Safe;
    forall id: nat | id < |s'.trails|
      ensures TrailSound(s', id)
    {
      assert TrailSound(s, id);
    }
    GrowthIsSound(s, s');
  }

  lemma CommitIsSound(p: Limits.Policy, s: State, q: RequestId)
    requires Sound(s)
    ensures Sound(CommitStep(p, s, q)) && Grows(s, CommitStep(p, s, q))
  {
    if q in s.requests {
      hide Sound, Grows, CommitStep;
      var r := s.requests[q];
      if r.Refunding? {
        RefundRequestIsSound(p, s, q);
      } else if r.CashingOut? || r.Approving? || r.Rejecting? {
        CashOutRequestIsSound(p, s, q);
      } else {
        RowRequestIsSound(p, s, q);
      }
    }
  }

  lemma RefundRequestIsSound(p: Limits.Policy, s: State, q: RequestId)
    requires Sound(s) && q in s.requests && s.requests[q].Refunding?
    ensures Sound(CommitStep(p, s, q)) && Grows(s, CommitStep(p, s, q))
  {
    var id := s.requests[q].remittance;
    PartsAreSound(s);
    RequestIsSound(s, q);
    if Refund(s.tables, id).Ok? {
      RefundIsSafe(s.tables, id);
    }
    hide Sound, Safe;
    RefundCommitIsSound(s, CommitStep(p, s, q));
  }

  lemma RowRequestIsSound(p: Limits.Policy, s: State, q: RequestId)
    requires Sound(s) && q in s.requests
    requires var r := s.requests[q]; r.Quoting? || r.Confirming? || r.Queueing? || r.Requeueing? || r.QueueingBurn?
    ensures Sound(CommitStep(p, s, q)) && Grows(s, CommitStep(p, s, q))
  {
    PartsAreSound(s);
    RequestIsSound(s, q);
    RowRequestTables(p, s, q);
    RowRequestTrails(p, s, q);
    RowRequestRest(p, s, q);
    hide Sound, Safe, Extends, CommitStep;
    RowCommitIsSound(s, CommitStep(p, s, q));
  }

  /** Everything else stays as it was, but for the request itself and a burn message it may publish. */
  lemma RowRequestRest(p: Limits.Policy, s: State, q: RequestId)
    requires q in s.requests && RequestSound(s, s.requests[q])
    requires var r := s.requests[q]; r.Quoting? || r.Confirming? || r.Queueing? || r.Requeueing? || r.QueueingBurn?
    ensures
      var s' := CommitStep(p, s, q);
      && s'.tables.books == s.tables.books && s'.tables.cashOuts == s.tables.cashOuts && s'.burns == s.burns
      && s'.stream.delivered == s.stream.delivered && s'.stream.pending == s.stream.pending
      && s'.handlers == s.handlers && s'.now == s.now && s.stream.messages <= s'.stream.messages
      && (forall m :: m in s'.stream.messages ==> m in s.stream.messages || MessageKnown(s', m))
      && (forall o :: o in s'.requests ==> o in s.requests && s'.requests[o] == s.requests[o])
  {
    hide Limits.AssertWithinLimits;
  }

  lemma RowRequestTrails(p: Limits.Policy, s: State, q: RequestId)
    requires q in s.requests && |s.trails| == |s.tables.remittances|
    requires var r := s.requests[q]; r.Quoting? || r.Confirming? || r.Queueing? || r.Requeueing? || r.QueueingBurn?
    ensures
      var s' := CommitStep(p, s, q);
      && |s.trails| <= |s'.trails| == |s'.tables.remittances|
      && forall id: nat :: id < |s'.trails| ==>
           if id < |s.trails| then s'.trails[id].(requeues := 0) == s.trails[id].(requeues := 0)
           else s'.trails[id] == NEW_TRAIL
  {
  }

  /** Requests that only insert or update remittance rows. */
  lemma RowRequestTables(p: Limits.Policy, s: State, q: RequestId)
    requires Sound(s) && q in s.requests
    requires var r := s.requests[q]; r.Quoting? || r.Confirming? || r.Queueing? || r.Requeueing? || r.QueueingBurn?
    ensures var s' := CommitStep(p, s, q); Safe(s'.tables) && Extends(s.tables, s'.tables)
  {
    PartsAreSound(s);
    RequestIsSound(s, q);
    RowUpdateIsSafe(s.tables, CommitStep(p, s, q).tables);
    hide Sound;
  }

  lemma CashOutRequestIsSound(p: Limits.Policy, s: State, q: RequestId)
    requires Sound(s) && q in s.requests
    requires var r := s.requests[q]; r.CashingOut? || r.Approving? || r.Rejecting?
    ensures Sound(CommitStep(p, s, q)) && Grows(s, CommitStep(p, s, q))
  {
    PartsAreSound(s);
    RequestIsSound(s, q);
    CashOutRequestTables(p, s, q);
    hide Sound, Safe;
    CashOutCommitIsSound(s, CommitStep(p, s, q));
  }

  lemma CashOutRequestTables(p: Limits.Policy, s: State, q: RequestId)
    requires Sound(s) && q in s.requests
    requires var r := s.requests[q]; r.CashingOut? || r.Approving? || r.Rejecting?
    ensures var s' := CommitStep(p, s, q); Safe(s'.tables) && Extends(s.tables, s'.tables)
  {
    PartsAreSound(s);
    RequestIsSound(s, q);
    match s.requests[q]
    case CashingOut(user, price, key) =>
      if OpenCashOut(s.tables, user, price, key).Ok? {
        OpenCashOutIsSafe(s.tables, user, price, key);
      }
      hide Sound, Safe;
    case Approving(id) =>
      assert CashOutPriced(s.tables.cashOuts[id]);
      RowUpdateIsSafe(s.tables, CommitStep(p, s, q).tables);
      hide Sound, Safe;
    case Rejecting(id, _) =>
      FailCashOutIsSafe(s.tables, id);
      hide Sound, Safe;
  }

  lemma RowCommitIsSound(s: State, s': State)
    requires Sound(s) && Safe(s'.tables) && Grows(s, s') && s'.tables.books == s.tables.books
    requires |s'.trails| == |s'.tables.remittances| && |s'.burns| == |s'.tables.cashOuts|
    requires s'.stream.delivered == s.stream.delivered && s'.stream.pending == s.stream.pending
    requires s'.handlers == s.handlers
    requires forall m :: m in s'.stream.messages ==> m in s.stream.messages || MessageKnown(s', m)
    requires forall q :: q in s'.requests ==> q in s.requests && s'.requests[q] == s.requests[q]
    requires forall id: nat :: id < |s'.trails| ==>
               if id < |s.trails| then s'.trails[id].(requeues := 0) == s.trails[id].(requeues := 0)
               else s'.trails[id] == NEW_TRAIL
    ensures Sound(s')
  {
    PartsAreSound(s);
    TrailsAreSound(s);
    forall id: nat | id < |s'.trails|
      ensures TrailSound(s', id)
    {
      if id < |s.trails| {
        assert TrailSound(s, id);
        assert s'.trails[id].(requeues := 0) == s.trails[id].(requeues := 0);
      } else {
        assert CreditEntry(s'.tables, id) !in s.tables.books.entries by {
          assert forall e :: e in s.tables.books.entries ==> RemittanceEntry(s.tables, e) || CashOutEntry(s.tables, e);
        }
      }
    }
    GrowthIsSound(s, s');
  }

  lemma RefundCommitIsSound(s: State, s': State)
    requires Sound(s) && Safe(s'.tables) && Grows(s, s')
    requires s'.trails == s.trails && |s'.tables.remittances| == |s.trails| && s'.tables.cashOuts == s.tables.cashOuts
    requires s'.stream == s.stream && s'.handlers == s.handlers && s'.burns == s.burns
    requires forall e :: e in s'.tables.books.entries ==> e in s.tables.books.entries || e.currency.ZAR?
    requires forall q :: q in s'.requests ==> q in s.requests && s'.requests[q] == s.requests[q]
    ensures Sound(s')
  {
    forall id: nat | id < |s'.trails|
      ensures TrailSound(s', id)
    {
      assert TrailSound(s, id);
    }
    GrowthIsSound(s, s');
  }

  lemma StepIsSound(p: Limits.Policy, s: State, step: Step)
    requires Sound(s)
    ensures Sound(Apply(p, s, step)) && Grows(s, Apply(p, s, step))
  {
    hide Sound, Grows, BeginStep, PublishStep, CommitStep, ReadNewStep, ReclaimStep, AckStep, ClaimStep, ResolveStep,
         PayStep, CommitSuccessStep, LoadForFailureStep, CommitFailureStep, BurnStep, CommitBurnStep, CommitReversalStep;
    match step
    case Begin(q, r) => BeginIsSound(p, s, q, r);
    case Publish(q) => PublishIsSound(s, q);
    case Abort(q) => DoneIsSound(s, q);
    case Commit(q) => CommitIsSound(p, s, q);
    case ReadNew(h, c) => DeliveryIsSound(s, h, c);
    case Reclaim(h, e, c) => HandoverIsSound(s, h, e, c);
    case Claim(h) => ClaimIsSound(s, h);
    case Resolve(h, r) => LookupIsSound(s, h, r);
    case Pay(h, reply) => PayIsSound(s, h, reply);
    case CommitSuccess(h) => CommitSuccessIsSound(s, h);
    case LoadForFailure(h) => LoadIsSound(s, h);
    case CommitFailure(h) => CommitFailureIsSound(s, h);
    case Burn(h, reply) => BurnIsSound(s, h, reply);
    case CommitBurn(h) => CommitBurnIsSound(s, h);
    case CommitReversal(h) => CommitReversalIsSound(s, h);
    case Ack(h) => StopIsSound(s, h);
    case Crash(h) => StopIsSound(s, h);
    case Tick(d) => TickIsSound(s, d);
  }

  // -- every run ---------------------------------------------------------------------------

  lemma {:induction false} RunIsSound(p: Limits.Policy, s: State, steps: seq<Step>)
    requires Sound(s)
    ensures Sound(After(p, s, steps))
    decreases |steps|
  {
    if steps != [] {
      StepIsSound(p, s, steps[0]);
      RunIsSound(p, Apply(p, s, steps[0]), steps[1..]);
    }
  }

  /** An entry that says money reached somebody for this remittance, whoever and however much. */
  predicate PaysOut(e: Entry, id: RemittanceId) {
    e.remittance == Some(id) && e.direction.Incoming? && e.status.Success?
  }

  /**
   In every interleaving each remittance has at most one entry that pays
   anyone anything, and that entry pays its recipient the tokens or its
   sender the rand; SETTLED and REFUNDED are backed by theirs, and a credit by a
   payment that landed.
   */
  lemma NeverCreditedTwiceNorRefundedToo(p: Limits.Policy, pool: int, now: Instant, steps: seq<Step>, id: RemittanceId)
    requires id < |After(p, Init(pool, now), steps).tables.remittances|
    ensures
      var s := After(p, Init(pool, now), steps);
      var log := s.tables.books.entries;
      && IsRemittance(s, id)
      && (forall i, j :: 0 <= i < j < |log| ==> !(PaysOut(log[i], id) && PaysOut(log[j], id)))
      && (forall i :: 0 <= i < |log| && PaysOut(log[i], id) ==>
            var e, r := log[i], s.tables.remittances[id];
            || (e.currency == UCTUSD && e.wallet == r.recipient && e.amount == r.uctusd)
            || (e.currency == ZAR && e.wallet == r.sender && e.amount == r.zarCents * 10_000))
      && (StatusOf(s, id).Settled? ==> IsCredited(s.tables, id))
      && (StatusOf(s, id).Refunded? ==> IsRefunded(s.tables, id))
      && (IsCredited(s.tables, id) ==> s.trails[id].landed > 0)
  {
    InitIsSound(pool, now);
    RunIsSound(p, Init(pool, now), steps);
    var s := After(p, Init(pool, now), steps);
    PartsAreSound(s);
    TrailsAreSound(s);
    assert Backed(s.tables, id) && TrailSound(s, id);
    hide Sound, After;
    PayingEntriesAreOne(s.tables, id);
  }

  lemma PayingEntriesAreOne(t: Tables, id: RemittanceId)
    requires Safe(t) && id < |t.remittances|
    ensures
      var log := t.books.entries;
      && (forall i, j :: 0 <= i < j < |log| ==> !(PaysOut(log[i], id) && PaysOut(log[j], id)))
      && (forall i :: 0 <= i < |log| && PaysOut(log[i], id) ==>
            var e, r := log[i], t.remittances[id];
            || (e.currency == UCTUSD && e.wallet == r.recipient && e.amount == r.uctusd)
            || (e.currency == ZAR && e.wallet == r.sender && e.amount == r.zarCents * 10_000))
  {
    var log := t.books.entries;
    forall i, j | 0 <= i < j < |log|
      ensures !(PaysOut(log[i], id) && PaysOut(log[j], id))
    {
      assert KeyOf(log[i]).Some? ==> KeyOf(log[i]) != KeyOf(log[j]);
    }
    forall i | 0 <= i < |log| && PaysOut(log[i], id)
      ensures log[i] == CreditEntry(t, id) || log[i] == RefundEntry(t, id)
    {
      assert log[i] in log;
      assert RemittanceEntry(t, log[i]) || CashOutEntry(t, log[i]);
    }
    hide Safe;
  }

  /** The audit log replays to every balance, after any sequence of the system's own calls. */
  lemma LogReplaysToEveryBalance(p: Limits.Policy, pool: int, now: Instant, steps: seq<Step>, a: Account)
    ensures var books := After(p, Init(pool, now), steps).tables.books;
            BalanceOf(books, a) == Replay(books.entries, a)
  {
    InitIsSound(pool, now);
    RunIsSound(p, Init(pool, now), steps);
  }

  /** The log is append-only: no later step changes or drops an entry. */
  lemma {:induction false} LogIsAppendOnly(p: Limits.Policy, s: State, steps: seq<Step>)
    requires Sound(s)
    ensures s.tables.books.entries <= After(p, s, steps).tables.books.entries
    decreases |steps|
  {
    if steps != [] {
      StepIsSound(p, s, steps[0]);
      LogIsAppendOnly(p, Apply(p, s, steps[0]), steps[1..]);
    }
  }
}
