/**
 Limits as reservations: a quote holds headroom from its commit, nothing
 but a new quote ever takes more, and no interleaving of quote requests
 carries a sender past the daily or monthly limit.
 */
module LimitSafety {
  import opened Wrappers
  import opened Schema
  import opened Transactions
  import opened Stream
  import opened Protocol
  import opened Limits
  import opened TableSafety
  import opened SettlementSafety
  import opened Frames
  import opened Funding
  import opened OneWorker

  // -- one row ---------------------------------------------------------------------------

  /** The most a row can count, whatever its status. */
  function Ceiling(r: Remittance, sender: UserId, since: Instant): nat {
    if r.sender == sender && since <= r.createdAt then r.zarCents else 0
  }

  lemma CountsAtMostItsCeiling(r: Remittance, sender: UserId, since: Instant, now: Instant)
    ensures CountedCents(r, sender, since, now) <= Ceiling(r, sender, since)
    ensures FundedExactly(r) && !r.status.Refunded? && !IsQuoteExpired(r, now) ==>
              CountedCents(r, sender, since, now) == Ceiling(r, sender, since)
  {
  }

  lemma CreationTimeIsKept(p: Policy, s: State, step: Step, id: RemittanceId)
    requires IsRemittance(s, id)
    ensures IsRemittance(Apply(p, s, step), id)
    ensures Apply(p, s, step).tables.remittances[id].createdAt == s.tables.remittances[id].createdAt
  {
    if Target(s, step) != Some(id) {
      OtherRemittancesUntouched(p, s, step, id);
    }
  }

  /** A quote that aged out can never be funded: nothing touches it again. */
  lemma ExpiredQuotesStayPut(p: Policy, s: State, step: Step, id: RemittanceId)
    requires Funded(s) && RemittanceChecksPass(p, s, step)
    requires IsRemittance(s, id) && IsQuoteExpired(s.tables.remittances[id], s.now)
    ensures IsRemittance(Apply(p, s, step), id)
    ensures Apply(p, s, step).tables.remittances[id] == s.tables.remittances[id]
  {
    assert forall h :: h in s.handlers && Working(s, h) && Settles(s, h) ==> IsFunded(s, RemittanceOf(s, h));
    assert RowFunded(s, id);
    if Target(s, step) != Some(id) {
      OtherRemittancesUntouched(p, s, step, id);
    }
    hide Funded;
  }

  lemma RefundedRowsStayRefunded(p: Policy, s: State, step: Step, id: RemittanceId)
    requires Sound(s) && Exclusive(s) && Careful(p, s, step)
    requires IsRemittance(s, id) && StatusOf(s, id).Refunded?
    ensures IsRemittance(Apply(p, s, step), id) && StatusOf(Apply(p, s, step), id).Refunded?
  {
    var a := Assumed(false, false, true, false, true);
    assert Run(p, s, [step], a) && After(p, s, [step]) == Apply(p, s, step) by {
      assert [step][1..] == [];
      hide Apply, RemittanceChecksPass, OneWorkerPerRemittance;
      assert After(p, Apply(p, s, step), []) == Apply(p, s, step);
    }
    hide Apply, Sound, Exclusive, Run, After;
    FinalStatusIsFinal(p, s, [step], a, id);
  }

  /** No step but a new quote makes any row count for more, and the clock only makes it count for less. */
  lemma CountNeverRises(
    p: Policy, s: State, step: Step, id: RemittanceId, sender: UserId, since: Instant, since': Instant)
    requires Sound(s) && Funded(s) && Exclusive(s) && Careful(p, s, step)
    requires IsRemittance(s, id) && since <= since'
    ensures
      var s' := Apply(p, s, step);
      && IsRemittance(s', id)
      && CountedCents(s'.tables.remittances[id], sender, since', s'.now)
           <= CountedCents(s.tables.remittances[id], sender, since, s.now)
  {
    var s' := Apply(p, s, step);
    StepIsSound(p, s, step);
    CreationTimeIsKept(p, s, step, id);
    var r, r' := s.tables.remittances[id], s'.tables.remittances[id];
    assert RowFunded(s, id) && SameTransfer(r, r') && s.now <= s'.now;
    if r.status.Refunded? {
      RefundedRowsStayRefunded(p, s, step, id);
    } else if IsQuoteExpired(r, s.now) {
      ExpiredQuotesStayPut(p, s, step, id);
    } else {
      CountsAtMostItsCeiling(r, sender, since, s.now);
      CountsAtMostItsCeiling(r', sender, since', s'.now);
    }
    hide Sound, Funded, Exclusive, Careful, Apply;
  }

  // -- a sender's totals ----------------------------------------------------------------------

  lemma {:induction false} TotalOfOldRowsNeverRises(
    p: Policy, s: State, step: Step, sender: UserId, since: Instant, since': Instant, n: nat)
    requires Sound(s) && Funded(s) && Exclusive(s) && Careful(p, s, step) && since <= since'
    requires n <= |s.tables.remittances| <= |Apply(p, s, step).tables.remittances|
    ensures
      var s' := Apply(p, s, step);
      Total(s'.tables.remittances[..n], sender, since', s'.now) <= Total(s.tables.remittances[..n], sender, since, s.now)
  {
    var s' := Apply(p, s, step);
    assert |s.trails| == |s.tables.remittances|;
    hide Sound, Funded, Exclusive, Careful, Apply;
    forall i: nat | i < n
      ensures CountedCents(s'.tables.remittances[i], sender, since', s'.now)
                <= CountedCents(s.tables.remittances[i], sender, since, s.now)
    {
      CountNeverRises(p, s, step, i, sender, since, since');
    }
    TotalMonotone(s.tables.remittances[..n], s'.tables.remittances[..n], sender, since, since', s.now, s'.now);
  }

  /** Usage never rises except by a new quote. */
  lemma UsageRisesOnlyByAQuote(p: Policy, s: State, step: Step, sender: UserId)
    requires Sound(s) && Funded(s) && Exclusive(s) && Careful(p, s, step) && IsCalendar(p)
    requires !InsertsQuote(s, step)
    ensures
      var s' := Apply(p, s, step);
      && DailyTotal(s'.tables.remittances, sender, s'.now) <= DailyTotal(s.tables.remittances, sender, s.now)
      && MonthlyTotal(p, s'.tables.remittances, sender, s'.now) <= MonthlyTotal(p, s.tables.remittances, sender, s.now)
  {
    var s' := Apply(p, s, step);
    NewRowsComeFromRequests(p, s, step);
    StepIsSound(p, s, step);
    assert s.now <= s'.now;
    hide Sound, Funded, Exclusive, Careful, Apply, InsertsQuote;
    DayStartIsMonotone(s.now, s'.now);
    var n := |s.tables.remittances|;
    assert s.tables.remittances[..n] == s.tables.remittances && s'.tables.remittances[..n] == s'.tables.remittances;
    TotalOfOldRowsNeverRises(p, s, step, sender, DayStart(s.now), DayStart(s'.now), n);
    TotalOfOldRowsNeverRises(p, s, step, sender, MonthStart(p, s.now), MonthStart(p, s'.now), n);
  }

  ghost predicate WithinLimits(p: Policy, s: State) {
    forall sender ::
      DailyTotal(s.tables.remittances, sender, s.now) <= p.dailyLimit
      && MonthlyTotal(p, s.tables.remittances, sender, s.now) <= p.monthlyLimit
  }

  /**
   Whatever its first check saw and however long ago it asked for the time,
   a quote that commits leaves its sender within both limits; it commits
   exactly when they can take it, counted from the moment it asked.  (A quote
   that expires at once would hold no headroom, and could never be funded.)
   */
  lemma QuoteCommitsWithinLimits(p: Policy, s: State, q: RequestId)
    requires q in s.requests && s.requests[q].Quoting? && s.requests[q].askedAt <= s.now && IsCalendar(p)
    ensures
      var r, s' := s.requests[q], CommitStep(p, s, q);
      var held := if p.quoteTtl > 0 then r.quote.send else 0;
      var rows, rows' := s.tables.remittances, s'.tables.remittances;
      && (|rows'| == |rows| + 1 <==>
            && DailyTotal(rows, r.sender, r.askedAt) + held <= p.dailyLimit
            && MonthlyTotal(p, rows, r.sender, r.askedAt) + held <= p.monthlyLimit)
      && (|rows'| == |rows| + 1 ==>
            && DailyTotal(rows', r.sender, s'.now) <= p.dailyLimit
            && MonthlyTotal(p, rows', r.sender, s'.now) <= p.monthlyLimit)
      && (forall other :: other != r.sender ==>
            && DailyTotal(rows', other, s'.now) == DailyTotal(rows, other, s.now)
            && MonthlyTotal(p, rows', other, s'.now) == MonthlyTotal(p, rows, other, s.now))
      && (|rows'| != |rows| + 1 ==> s'.tables == s.tables)
  {
    var r := s.requests[q];
    var rows, row := s.tables.remittances, NewQuote(r.sender, r.recipient, r.quote, s.now, r.askedAt + p.quoteTtl);
    DayStartIsMonotone(r.askedAt, s.now);
    TotalAppend(rows, row, r.sender, DayStart(r.askedAt), r.askedAt);
    TotalAppend(rows, row, r.sender, MonthStart(p, r.askedAt), r.askedAt);
    TotalsFallWithTime(p, rows + [row], r.sender, r.askedAt, s.now);
    assert MonthStart(p, r.askedAt) <= DayStart(r.askedAt) <= r.askedAt;
    forall other | other != r.sender
      ensures DailyTotal(rows + [row], other, s.now) == DailyTotal(rows, other, s.now)
      ensures MonthlyTotal(p, rows + [row], other, s.now) == MonthlyTotal(p, rows, other, s.now)
    {
      TotalAppend(rows, row, other, DayStart(s.now), s.now);
      TotalAppend(rows, row, other, MonthStart(p, s.now), s.now);
    }
  }

  // -- every run -----------------------------------------------------------------------------------

  lemma StepStaysWithinLimits(p: Policy, s: State, step: Step)
    requires Sound(s) && Funded(s) && Exclusive(s) && Careful(p, s, step) && IsCalendar(p)
    requires WithinLimits(p, s)
    ensures WithinLimits(p, Apply(p, s, step))
  {
    var s' := Apply(p, s, step);
    if InsertsQuote(s, step) {
      assert RequestSound(s, s.requests[step.q]);
      QuoteCommitsWithinLimits(p, s, step.q);
      CommitTouchesNoHandler(p, s, step.q);
      assert s' == CommitStep(p, s, step.q);
      hide Sound, Funded, Exclusive, Careful, CommitStep, DailyTotal, MonthlyTotal;
      forall sender
        ensures DailyTotal(s'.tables.remittances, sender, s'.now) <= p.dailyLimit
        ensures MonthlyTotal(p, s'.tables.remittances, sender, s'.now) <= p.monthlyLimit
      {
        assert DailyTotal(s.tables.remittances, sender, s.now) <= p.dailyLimit;
      }
    } else {
      hide Sound, Funded, Exclusive, Careful, Apply, InsertsQuote, DailyTotal, MonthlyTotal;
      forall sender
        ensures DailyTotal(s'.tables.remittances, sender, s'.now) <= p.dailyLimit
        ensures MonthlyTotal(p, s'.tables.remittances, sender, s'.now) <= p.monthlyLimit
      {
        UsageRisesOnlyByAQuote(p, s, step, sender);
        assert DailyTotal(s.tables.remittances, sender, s.now) <= p.dailyLimit;
      }
    }
  }

  lemma {:induction false} RunStaysWithinLimits(p: Policy, s: State, steps: seq<Step>, a: Assumed)
    requires Sound(s) && Funded(s) && Exclusive(s) && WithinLimits(p, s) && IsCalendar(p)
    requires Run(p, s, steps, a) && a.remittanceChecks && a.oneWorker
    ensures WithinLimits(p, After(p, s, steps))
    decreases |steps|
  {
    if steps != [] {
      assert Careful(p, s, steps[0]);
      hide Sound, Funded, Exclusive, Careful, WithinLimits, Apply, IsCalendar,
           RemittanceChecksPass, OneWorkerPerRemittance;
      StepIsSound(p, s, steps[0]);
      StepStaysFunded(p, s, steps[0]);
      StepStaysExclusive(p, s, steps[0]);
      StepStaysWithinLimits(p, s, steps[0]);
      RunStaysWithinLimits(p, Apply(p, s, steps[0]), steps[1..], a);
    }
  }

  /** No interleaving of quotes, payments, failures, retries and refunds carries a sender past a limit. */
  lemma NoSenderEverExceedsALimit(
    p: Policy, pool: int, now: Instant, steps: seq<Step>, a: Assumed, sender: UserId)
    requires IsCalendar(p)
    requires Run(p, Init(pool, now), steps, a) && a.remittanceChecks && a.oneWorker
    ensures
      var s := After(p, Init(pool, now), steps);
      && DailyTotal(s.tables.remittances, sender, s.now) <= p.dailyLimit
      && MonthlyTotal(p, s.tables.remittances, sender, s.now) <= p.monthlyLimit
  {
    InitIsSound(pool, now);
    RunStaysWithinLimits(p, Init(pool, now), steps, a);
    assert WithinLimits(p, After(p, Init(pool, now), steps));
  }

  /** From payment to the end a remittance counts the same, and a refund is what frees its headroom. */
  lemma PaidInRowsCountUntilRefunded(
    p: Policy, pool: int, now: Instant, steps: seq<Step>, id: RemittanceId, since: Instant)
    requires IsFunded(After(p, Init(pool, now), steps), id)
    ensures
      var s := After(p, Init(pool, now), steps);
      var r := s.tables.remittances[id];
      CountedCents(r, r.sender, since, s.now) == if since <= r.createdAt && !r.status.Refunded? then r.zarCents else 0
  {
    InitIsSound(pool, now);
    RunStaysFunded(p, Init(pool, now), steps);
    assert RowFunded(After(p, Init(pool, now), steps), id);
  }
}
