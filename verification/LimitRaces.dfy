/** Exactly when a remittance that is already there comes to count for more against its sender's limits. */
module LimitRaces {
  import opened Wrappers
  import opened Schema
  import opened Bookkeeping
  import opened Transactions
  import opened Stream
  import opened Protocol
  import opened Limits
  import opened TableSafety
  import opened SettlementSafety
  import opened Frames
  import opened Funding
  import opened LimitSafety
  import opened OneWorker
  import opened Races

  /** A confirmation of a quote that is about to commit although the quote has run out. */
  predicate ConfirmsExpired(s: State, step: Step, id: RemittanceId) {
    && IsRemittance(s, id) && IsQuoteExpired(s.tables.remittances[id], s.now)
    && step.Commit? && step.q in s.requests && s.requests[step.q] == Confirming(id)
  }

  /** An expired quote is left only by being confirmed. */
  lemma ExpiredQuoteMovesExactlyWhenConfirmed(p: Policy, s: State, step: Step, id: RemittanceId)
    requires Funded(s) && IsRemittance(s, id) && IsQuoteExpired(s.tables.remittances[id], s.now)
    ensures IsRemittance(Apply(p, s, step), id)
    ensures
      var r' := Apply(p, s, step).tables.remittances[id];
      if ConfirmsExpired(s, step, id) then r'.status.CashInConfirmed? && r'.cashInConfirmedAt.Some?
      else r' == s.tables.remittances[id]
  {
    assert RowFunded(s, id);
    if Target(s, step) != Some(id) {
      OtherRemittancesUntouched(p, s, step, id);
    } else if step.Commit? {
      assert RequestFunded(s, s.requests[step.q]);
    } else {
      assert forall h :: h in s.handlers && Working(s, h) && Settles(s, h) ==> IsFunded(s, RemittanceOf(s, h));
    }
    hide Funded;
  }

  /** A status other than REFUNDED counts in full once the remittance is paid in. */
  lemma PaidInCountsInFull(r: Remittance, sender: UserId, since: Instant, now: Instant)
    requires FundedExactly(r) && r.cashInConfirmedAt.Some?
    ensures CountedCents(r, sender, since, now) == if r.status.Refunded? then 0 else Ceiling(r, sender, since)
  {
  }

  /**
   With nothing assumed, a row inside the window comes to count for more at
   exactly these steps: its REFUNDED status is overwritten, or it is
   confirmed after it expired.
   */
  lemma CountRisesExactlyWhen(
    p: Policy, s: State, step: Step, id: RemittanceId, sender: UserId, since: Instant, since': Instant)
    requires Sound(s) && Funded(s) && IsRemittance(s, id) && since <= since'
    ensures
      var r, s' := s.tables.remittances[id], Apply(p, s, step);
      && IsRemittance(s', id)
      && (CountedCents(s'.tables.remittances[id], sender, since', s'.now) > CountedCents(r, sender, since, s.now) <==>
            && r.sender == sender && since' <= r.createdAt
            && (|| (r.status.Refunded? && (AboutToFail(s, step, id) || CommitsBlindly(s, step, id)))
                || ConfirmsExpired(s, step, id)))
  {
    var s' := Apply(p, s, step);
    RowKeepsItsTransfer(p, s, step, id);
    var r, r' := s.tables.remittances[id], s'.tables.remittances[id];
    hide Sound, Funded, Apply, AboutToFail, CommitsBlindly;
    if r.status.Refunded? {
      FinalStatusIsLostExactlyToABlindWrite(p, s, step, id);
      PaidInCountsInFull(r, sender, since, s.now);
      PaidInCountsInFull(r', sender, since', s'.now);
    } else if IsQuoteExpired(r, s.now) {
      ExpiredQuoteMovesExactlyWhenConfirmed(p, s, step, id);
    } else {
      CountsAtMostItsCeiling(r, sender, since, s.now);
      CountsAtMostItsCeiling(r', sender, since', s'.now);
    }
  }

  lemma RowKeepsItsTransfer(p: Policy, s: State, step: Step, id: RemittanceId)
    requires Sound(s) && Funded(s) && IsRemittance(s, id)
    ensures
      var s' := Apply(p, s, step);
      && IsRemittance(s', id) && s.now <= s'.now
      && var r, r' := s.tables.remittances[id], s'.tables.remittances[id];
         && SameTransfer(r, r') && r'.createdAt == r.createdAt && r.zarCents > 0
         && FundedExactly(r) && FundedExactly(r')
         && (r.cashInConfirmedAt.Some? ==> r'.cashInConfirmedAt.Some?)
  {
    var s' := Apply(p, s, step);
    StepIsSound(p, s, step);
    StepStaysFunded(p, s, step);
    CreationTimeIsKept(p, s, step, id);
    StepFundsRow(p, s, step, id);
    assert RowFunded(s, id) && RowFunded(s', id) && RemittancePriced(s.tables.remittances[id]);
    hide Sound, Funded, Apply;
  }

  /** When requests write what they checked, only a late failure over a refund is left. */
  lemma CountRisesExactlyByALateFailure(
    p: Policy, s: State, step: Step, id: RemittanceId, sender: UserId, since: Instant, since': Instant)
    requires Sound(s) && Funded(s) && IsRemittance(s, id) && since <= since' && RemittanceChecksPass(p, s, step)
    ensures
      var r, s' := s.tables.remittances[id], Apply(p, s, step);
      && IsRemittance(s', id)
      && (CountedCents(s'.tables.remittances[id], sender, since', s'.now) > CountedCents(r, sender, since, s.now) <==>
            r.sender == sender && since' <= r.createdAt && r.status.Refunded? && AboutToFail(s, step, id))
  {
    CountRisesExactlyWhen(p, s, step, id, sender, since, since');
    if StatusOf(s, id).Refunded? {
      FreshRequestsLeaveItAlone(p, s, step, id);
    }
    hide Sound, Funded, Apply;
  }
}
