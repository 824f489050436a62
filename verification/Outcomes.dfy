/**
 What handling one message without interruption comes to, from its claim to
 its ack: who was paid, what the row says, and whether the message is gone.
 */
module Outcomes {
  import opened Wrappers
  import opened Schema
  import opened Bookkeeping
  import opened Transactions
  import opened Stream
  import opened Protocol
  import opened TableSafety
  import opened SettlementSafety
  import opened Payments
  import F = Failures
  import W = Worker
  import L = Limits

  /** The statuses a worker may claim; only a message taken over may claim SETTLING. */
  predicate MayClaim(status: RemittanceStatus, reclaimed: bool) {
    match status
    case CashInConfirmed => true
    case Queued => true
    case Settling => reclaimed
    case _ => false
  }

  /** The compare-and-swap: a claim takes exactly those, and leaves everything else as it was. */
  lemma ClaimTakesExactly(s: State, h: HandlerId, id: RemittanceId)
    requires InPhase(s, h, Waiting) && Settles(s, h) && RemittanceOf(s, h) == id
    ensures
      var s', row := ClaimStep(s, h), s.tables.remittances[id];
      if MayClaim(row.status, s.handlers[h].reclaimed) then
        && InPhase(s', h, Claimed)
        && s'.tables == s.tables.(remittances := s.tables.remittances[id := row.(status := Settling)])
      else InPhase(s', h, Finished) && s'.tables == s.tables && s'.trails == s.trails
  {
  }

  /** So a message read new never disturbs a remittance that is being settled. */
  lemma NewMessagesNeverClaimSettling(s: State, h: HandlerId)
    requires InPhase(s, h, Waiting) && Settles(s, h) && !s.handlers[h].reclaimed
    requires StatusOf(s, RemittanceOf(s, h)).Settling?
    ensures var s' := AckStep(ClaimStep(s, h), h);
            s'.tables == s.tables && s'.trails == s.trails && s'.pool == s.pool && h !in s'.handlers
  {
  }

  // -- a settlement ---------------------------------------------------------------------------

  /** What an uninterrupted settlement leaves of its row, its log and its pool. */
  ghost predicate SettledAs(s: State, s': State, id: RemittanceId, resolution: Resolution, reply: Reply)
    requires IsRemittance(s, id)
  {
    var row := s.tables.remittances[id];
    var log, log' := s.tables.books.entries, s'.tables.books.entries;
    var shown := Entry(row.recipient, Some(id), Incoming, UCTUSD, row.uctusd, EntryStatus.Failed, None);
    && IsRemittance(s', id)
    && (if resolution.Resolved? && reply.Validated? then
          if Unpaid(s.tables, id) then
            && log' == log + [Entry(row.recipient, Some(id), Incoming, UCTUSD, row.uctusd, EntryStatus.Success, None)]
                 + [Entry(row.sender, Some(id), Outgoing, ZAR, row.zarCents * 10_000, EntryStatus.Success, None)]
            && OnlyMoves(s.tables.books, s'.tables.books, row.recipient, UCTUSD, row.uctusd)
            && StatusOf(s', id).Settled?
          else s'.tables.books == s.tables.books && StatusOf(s', id).Settling?
        else
          && log' == log + (if resolution.NoRecipient? || shown in log then [] else [shown])
          && s'.tables.books.balances == s.tables.books.balances
          && StatusOf(s', id).Failed?)
    && s'.pool == s.pool + (if resolution.Resolved? then Landed(reply) * row.uctusd else 0)
  }

  /** Only a payment moves the pool, and by what landed. */
  lemma SettlingMovesThePool(s: State, h: HandlerId, resolution: Resolution, reply: Reply)
    ensures ClaimStep(s, h).pool == s.pool && ResolveStep(s, h, resolution).pool == s.pool
    ensures CommitSuccessStep(s, h).pool == s.pool && AckStep(s, h).pool == s.pool
    ensures W.FailureAttempt(s, h).pool == s.pool
    ensures PayStep(s, h, reply).pool ==
            if Settles(s, h) && s.handlers[h].phase.Ready? then
              s.pool + Landed(reply) * s.tables.remittances[RemittanceOf(s, h)].uctusd
            else s.pool
  {
  }

  /** A handler that may not claim is done, and so is its message. */
  lemma SkippedSettlement(
    s: State, h: HandlerId, id: RemittanceId, resolution: Resolution, reply: Reply)
    requires InPhase(s, h, Waiting) && Settles(s, h) && RemittanceOf(s, h) == id
    requires !MayClaim(StatusOf(s, id), s.handlers[h].reclaimed)
    ensures
      var s' := W.Handling(s, h, SettleRemittance(id), resolution, reply);
      && s'.tables == s.tables && s'.trails == s.trails && s'.pool == s.pool
      && h !in s'.handlers && s'.stream == Acked(s.stream, s.handlers[h].entry)
  {
    ClaimTakesExactly(s, h, id);
    var s1 := ClaimStep(s, h);
    assert s1.pool == s.pool && s1.stream == s.stream && s1.handlers[h].entry == s.handlers[h].entry;
    hide ClaimStep, ResolveStep, PayStep, CommitSuccessStep, LoadForFailureStep, CommitFailureStep;
    W.NothingLeftToDo(s1, h, resolution, reply);
  }

  lemma ClaimedForSettling(p: L.Policy, s: State, h: HandlerId, id: RemittanceId)
    requires Sound(s) && InPhase(s, h, Waiting) && Settles(s, h) && RemittanceOf(s, h) == id
    requires MayClaim(StatusOf(s, id), s.handlers[h].reclaimed)
    ensures
      var s1 := ClaimStep(s, h);
      && Sound(s1) && InPhase(s1, h, Claimed) && Settles(s1, h) && RemittanceOf(s1, h) == id
      && s1.tables == s.tables.(remittances := s.tables.remittances[id := s.tables.remittances[id].(status := Settling)])
      && s1.pool == s.pool && StatusOf(s1, id).Settling?
  {
    ClaimTakesExactly(s, h, id);
    W.ClaimMoves(p, s, h, id);
    hide Sound;
  }

  /** From the pool's answer to the outcome: the payment validated. */
  lemma ValidatedSettlement(p: L.Policy, s: State, h: HandlerId, id: RemittanceId)
    requires Sound(s) && InPhase(s, h, Ready(Settling)) && Settles(s, h) && RemittanceOf(s, h) == id
    requires StatusOf(s, id).Settling?
    ensures
      var s' := W.FailureAttempt(W.FailureAttempt(CommitSuccessStep(PayStep(s, h, Validated), h), h), h);
      && Sound(s') && SettledAs(s, s', id, Resolved, Validated)
      && (if Unpaid(s.tables, id) then InPhase(s', h, Finished) else h !in s'.handlers)
  {
    hide Sound, PayStep, CommitSuccessStep, W.FailureAttempt;
    W.PaymentMoves(p, s, h, Settling, Validated);
    SettlingMovesThePool(s, h, Resolved, Validated);
    var s1 := PayStep(s, h, Validated);
    W.SuccessAttempted(p, s1, h, id, Settling);
    SettlingMovesThePool(s1, h, Resolved, Validated);
    SoundTablesAreSafe(s1);
    SettlementPaysTheRecipient(s1.tables, id, Settling);
    W.NothingLeftToDo(CommitSuccessStep(s1, h), h, Resolved, Validated);
    SoundTablesAreSafe(CommitSuccessStep(s1, h));
  }

  lemma SoundTablesAreSafe(s: State)
    requires Sound(s)
    ensures Safe(s.tables) && |s.trails| == |s.tables.remittances| && |s.burns| == |s.tables.cashOuts|
  {
  }

  /** ...or something went wrong before, which `noted` says the recipient is to see. */
  lemma FailedSettlement(p: L.Policy, s: State, h: HandlerId, id: RemittanceId, noted: bool)
    requires Sound(s) && InPhase(s, h, MustFail(noted)) && Settles(s, h) && RemittanceOf(s, h) == id
    requires StatusOf(s, id).Settling?
    ensures
      var s' := W.FailureAttempt(W.FailureAttempt(s, h), h);
      var row := s.tables.remittances[id];
      var shown := Entry(row.recipient, Some(id), Incoming, UCTUSD, row.uctusd, EntryStatus.Failed, None);
      && Sound(s') && InPhase(s', h, Finished) && IsRemittance(s', id) && StatusOf(s', id).Failed?
      && s'.pool == s.pool && s'.tables.books.balances == s.tables.books.balances
      && s'.tables.books.entries == s.tables.books.entries
           + (if noted && shown !in s.tables.books.entries then [shown] else [])
  {
    W.FailureIsRecorded(p, s, h, id, noted);
    SoundTablesAreSafe(s);
    F.FailIsTotal(s.tables, id, Settling, noted);
    F.FailEndsFailedExactlyWhen(s.tables, id, Settling, noted);
    SettlingMovesThePool(s, h, Resolved, Validated);
    SettlingMovesThePool(W.FailureAttempt(s, h), h, Resolved, Validated);
    SoundTablesAreSafe(W.FailureAttempt(W.FailureAttempt(s, h), h));
    hide Sound, Safe, W.FailureAttempt, F.Fail;
  }

  /** Everything between the claim and the ack. */
  function Course(s: State, h: HandlerId, resolution: Resolution, reply: Reply): State {
    var paid := PayStep(ResolveStep(s, h, resolution), h, reply);
    W.FailureAttempt(W.FailureAttempt(CommitSuccessStep(paid, h), h), h)
  }

  lemma ClaimedSettlement(
    p: L.Policy, s: State, h: HandlerId, id: RemittanceId, resolution: Resolution, reply: Reply)
    requires Sound(s) && InPhase(s, h, Claimed) && Settles(s, h) && RemittanceOf(s, h) == id
    requires StatusOf(s, id).Settling?
    ensures
      var s' := Course(s, h, resolution, reply);
      && Sound(s') && SettledAs(s, s', id, resolution, reply)
      && (if resolution.Resolved? && reply.Validated? && !Unpaid(s.tables, id) then h !in s'.handlers
          else InPhase(s', h, Finished))
  {
    hide Sound, ResolveStep, PayStep, CommitSuccessStep, W.FailureAttempt;
    W.LookupMoves(p, s, h, resolution);
    SettlingMovesThePool(s, h, resolution, reply);
    var s1 := ResolveStep(s, h, resolution);
    var s2 := PayStep(s1, h, reply);
    SoundTablesAreSafe(s1);
    if resolution.Resolved? && reply.Validated? {
      ValidatedSettlement(p, s1, h, id);
    } else if resolution.Resolved? {
      W.PaymentMoves(p, s1, h, Settling, reply);
      SettlingMovesThePool(s1, h, resolution, reply);
      SoundTablesAreSafe(s2);
      W.NotPaying(s2, h, reply);
      FailedSettlement(p, s2, h, id, true);
    } else {
      W.NotPaying(s1, h, reply);
      FailedSettlement(p, s1, h, id, resolution.NoPool?);
    }
  }

  /** The claim itself moves nothing the outcome is measured by. */
  lemma SameOutcomeBeforeTheClaim(s: State, s1: State, s': State, id: RemittanceId, resolution: Resolution, reply: Reply)
    requires IsRemittance(s, id) && IsRemittance(s1, id) && SettledAs(s1, s', id, resolution, reply)
    requires s1.tables ==
             s.tables.(remittances := s.tables.remittances[id := s.tables.remittances[id].(status := Settling)])
    requires s1.pool == s.pool
    ensures SettledAs(s, s', id, resolution, reply) && (Unpaid(s1.tables, id) <==> Unpaid(s.tables, id))
  {
  }

  /**
   Handled without interruption, a settlement message pays the recipient and
   notes the sender's rand if the payment validates and nobody was paid yet;
   stays unacked with the row SETTLING if somebody was; and otherwise ends
   FAILED with no balance moved, shown once to a recipient who was found.
   A message that may not claim its row changes nothing.
   */
  lemma SettlementEndsExactly(
    p: L.Policy, s: State, h: HandlerId, id: RemittanceId, resolution: Resolution, reply: Reply)
    requires Sound(s) && InPhase(s, h, Waiting) && Settles(s, h) && RemittanceOf(s, h) == id
    ensures
      var s' := W.Handling(s, h, SettleRemittance(id), resolution, reply);
      && h !in s'.handlers
      && (if MayClaim(StatusOf(s, id), s.handlers[h].reclaimed) then
            && SettledAs(s, s', id, resolution, reply)
            && s'.stream == (if resolution.Resolved? && reply.Validated? && !Unpaid(s.tables, id) then s.stream
                             else Acked(s.stream, s.handlers[h].entry))
          else s'.tables == s.tables && s'.pool == s.pool && s'.stream == Acked(s.stream, s.handlers[h].entry))
  {
    if !MayClaim(StatusOf(s, id), s.handlers[h].reclaimed) {
      SkippedSettlement(s, h, id, resolution, reply);
    } else {
      ClaimedSettlementEnds(p, s, h, id, resolution, reply);
    }
    hide Sound, MayClaim, SettledAs, W.Handling;
  }

  lemma ClaimedSettlementEnds(
    p: L.Policy, s: State, h: HandlerId, id: RemittanceId, resolution: Resolution, reply: Reply)
    requires Sound(s) && InPhase(s, h, Waiting) && Settles(s, h) && RemittanceOf(s, h) == id
    requires MayClaim(StatusOf(s, id), s.handlers[h].reclaimed)
    ensures
      var s' := W.Handling(s, h, SettleRemittance(id), resolution, reply);
      && h !in s'.handlers && SettledAs(s, s', id, resolution, reply)
      && s'.stream == (if resolution.Resolved? && reply.Validated? && !Unpaid(s.tables, id) then s.stream
                       else Acked(s.stream, s.handlers[h].entry))
  {
    hide Sound, MayClaim, SettledAs, Unpaid, Course, ClaimStep, AckStep, W.SettlementOf, W.Handling;
    ClaimedForSettling(p, s, h, id);
    var s1 := ClaimStep(s, h);
    var s2 := Course(s1, h, resolution, reply);
    ClaimedSettlement(p, s1, h, id, resolution, reply);
    SameOutcomeBeforeTheClaim(s, s1, s2, id, resolution, reply);
    CourseIsTheHandling(s, h, id, resolution, reply);
    W.HandledThenAcked(p, s, h, s.handlers[h].entry, SettleRemittance(id), resolution, reply, s2);
    SameOutcomeAfterTheAck(s, s2, h, id, resolution, reply);
  }

  lemma CourseIsTheHandling(s: State, h: HandlerId, id: RemittanceId, resolution: Resolution, reply: Reply)
    ensures Course(ClaimStep(s, h), h, resolution, reply) == W.SettlementOf(s, h, resolution, reply)
    ensures W.Handling(s, h, SettleRemittance(id), resolution, reply)
            == AckStep(W.SettlementOf(s, h, resolution, reply), h)
  {
  }

  lemma SameOutcomeAfterTheAck(
    s: State, s': State, h: HandlerId, id: RemittanceId, resolution: Resolution, reply: Reply)
    requires IsRemittance(s, id) && SettledAs(s, s', id, resolution, reply)
    ensures SettledAs(s, AckStep(s', h), id, resolution, reply)
  {
  }

  // -- a burn -----------------------------------------------------------------------------------

  /** What an uninterrupted burn leaves of its cash-out, its log and the pool. */
  ghost predicate BurnedAs(s: State, s': State, c: CashOutId, reply: Reply)
    requires IsCashOut(s, c)
  {
    var row, books, books' := s.tables.cashOuts[c], s.tables.books, s'.tables.books;
    && IsCashOut(s', c)
    && (if reply.Validated? && row.payoutAmount > 0 then
          && s'.tables.cashOuts[c] == row.(status := Completed, creditEntry := Some(|books.entries|))
          && books'.entries == books.entries
               + [Entry(row.user, None, Incoming, row.payoutCurrency, row.payoutAmount, EntryStatus.Success, Some(c))]
          && OnlyMoves(books, books', row.user, row.payoutCurrency, row.payoutAmount)
        else if reply.Validated? then
          s'.tables.cashOuts[c] == row.(status := Processing) && books' == books
        else
          && s'.tables.cashOuts[c] == row.(status := CashOutStatus.Failed)
          && books'.entries == books.entries
               + [Entry(row.user, None, Incoming, UCTUSD, row.gross, EntryStatus.Success, Some(c))]
          && OnlyMoves(books, books', row.user, UCTUSD, row.gross))
    && s'.pool == s.pool - Landed(reply) * row.net
  }

  lemma BurnsMoveThePool(s: State, h: HandlerId, reply: Reply)
    ensures ClaimStep(s, h).pool == s.pool && CommitBurnStep(s, h).pool == s.pool
    ensures CommitReversalStep(s, h).pool == s.pool
    ensures BurnStep(s, h, reply).pool ==
            if Burns(s, h) && s.handlers[h].phase.BurnClaimed? then
              s.pool - Landed(reply) * s.tables.cashOuts[CashOutOf(s, h)].net
            else s.pool
  {
  }

  lemma ClaimedForBurning(p: L.Policy, s: State, h: HandlerId, c: CashOutId)
    requires Sound(s) && InPhase(s, h, Waiting) && Burns(s, h) && CashOutOf(s, h) == c
    ensures
      var s1, row := ClaimStep(s, h), s.tables.cashOuts[c];
      && Sound(s1) && s1.pool == s.pool && s1.stream == s.stream
      && h in s1.handlers && s1.handlers[h].entry == s.handlers[h].entry
      && (if row.status.Approved? then
            && InPhase(s1, h, BurnClaimed) && Burns(s1, h) && CashOutOf(s1, h) == c
            && s1.tables == s.tables.(cashOuts := s.tables.cashOuts[c := row.(status := Processing)])
          else InPhase(s1, h, Finished) && s1.tables == s.tables)
  {
    StepIsSound(p, s, Claim(h));
    hide Sound;
  }

  /** From the ledger's answer to the outcome. */
  lemma ClaimedBurn(p: L.Policy, s: State, h: HandlerId, c: CashOutId, reply: Reply)
    requires Sound(s) && InPhase(s, h, BurnClaimed) && Burns(s, h) && CashOutOf(s, h) == c
    requires s.tables.cashOuts[c].status.Processing?
    ensures
      var s' := CommitReversalStep(CommitBurnStep(BurnStep(s, h, reply), h), h);
      && Sound(s') && BurnedAs(s, s', c, reply)
      && (if reply.Validated? && s.tables.cashOuts[c].payoutAmount == 0 then h !in s'.handlers
          else InPhase(s', h, Finished))
  {
    hide Sound, BurnStep, CommitBurnStep, CommitReversalStep;
    W.BurnMoves(p, s, h, c, reply);
    BurnsMoveThePool(s, h, reply);
    var s1 := BurnStep(s, h, reply);
    var s2 := CommitBurnStep(s1, h);
    SoundTablesAreSafe(s1);
    BurnsMoveThePool(s1, h, reply);
    if reply.Validated? {
      W.CompletionAttempted(p, s1, h, c);
      CompletionPaysThePayout(s1.tables, c);
      SoundTablesAreSafe(s2);
      W.NothingLeftToDo(s2, h, Resolved, reply);
    } else {
      W.NotCompleting(s1, h);
      W.ReversalAttempted(p, s1, h, c);
      ReversalReturnsTheGross(s1.tables, c);
      SoundTablesAreSafe(CommitReversalStep(s1, h));
    }
  }

  lemma SameBurnBeforeTheClaim(s: State, s1: State, s': State, c: CashOutId, reply: Reply)
    requires IsCashOut(s, c) && IsCashOut(s1, c) && BurnedAs(s1, s', c, reply) && s1.pool == s.pool
    requires s1.tables == s.tables.(cashOuts := s.tables.cashOuts[c := s.tables.cashOuts[c].(status := Processing)])
    ensures BurnedAs(s, s', c, reply)
  {
  }

  lemma SameBurnAfterTheAck(s: State, s': State, h: HandlerId, c: CashOutId, reply: Reply)
    requires IsCashOut(s, c) && BurnedAs(s, s', c, reply)
    ensures BurnedAs(s, AckStep(s', h), c, reply)
  {
  }

  /**
   Handled without interruption, the message of an approved cash-out pays its
   user the payout in the payout's currency if the burn validates and there is
   something to pay; leaves it PROCESSING with the message unacked if there is
   not; and otherwise gives the gross back.  Any other cash-out is left alone.
   */
  lemma BurnEndsExactly(
    p: L.Policy, s: State, h: HandlerId, c: CashOutId, resolution: Resolution, reply: Reply)
    requires Sound(s) && InPhase(s, h, Waiting) && Burns(s, h) && CashOutOf(s, h) == c
    ensures
      var s', row := W.Handling(s, h, BurnCashOut(c), resolution, reply), s.tables.cashOuts[c];
      && h !in s'.handlers
      && (if row.status.Approved? then
            && BurnedAs(s, s', c, reply)
            && s'.stream == (if reply.Validated? && row.payoutAmount == 0 then s.stream
                             else Acked(s.stream, s.handlers[h].entry))
          else s'.tables == s.tables && s'.pool == s.pool && s'.stream == Acked(s.stream, s.handlers[h].entry))
  {
    hide Sound, BurnedAs, ClaimStep, BurnStep, CommitBurnStep, CommitReversalStep, AckStep, W.Handling;
    ClaimedForBurning(p, s, h, c);
    var s1 := ClaimStep(s, h);
    BurnIsTheHandling(s, h, c, resolution, reply);
    if s.tables.cashOuts[c].status.Approved? {
      ClaimedBurn(p, s1, h, c, reply);
      var s2 := W.BurnOf(s, h, reply);
      SameBurnBeforeTheClaim(s, s1, s2, c, reply);
      W.HandledThenAcked(p, s, h, s.handlers[h].entry, BurnCashOut(c), resolution, reply, s2);
      SameBurnAfterTheAck(s, s2, h, c, reply);
    } else {
      W.NothingLeftToDo(s1, h, resolution, reply);
      W.HandledThenAcked(p, s, h, s.handlers[h].entry, BurnCashOut(c), resolution, reply, s1);
      AckMovesNothingElse(s1, h);
    }
  }

  lemma BurnIsTheHandling(s: State, h: HandlerId, c: CashOutId, resolution: Resolution, reply: Reply)
    ensures W.BurnOf(s, h, reply) == CommitReversalStep(CommitBurnStep(BurnStep(ClaimStep(s, h), h, reply), h), h)
    ensures W.Handling(s, h, BurnCashOut(c), resolution, reply) == AckStep(W.BurnOf(s, h, reply), h)
  {
  }

  lemma AckMovesNothingElse(s: State, h: HandlerId)
    ensures AckStep(s, h).pool == s.pool && AckStep(s, h).tables == s.tables
  {
  }
}
