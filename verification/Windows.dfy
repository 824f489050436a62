/**
 What the limits bound, told in money and midnights: the sums the checks
 read are the rand a sender has committed since the day and since the month
 began, and no interleaving carries either past its limit.
 */
module Windows {
  import opened Wrappers
  import opened Schema
  import opened Transactions
  import opened Protocol
  import opened Limits
  import opened TableSafety
  import opened SettlementSafety
  import opened Funding
  import opened LimitSafety
  import SM = SoleMessages

  /** The last midnight in South Africa, two hours ahead of UTC. */
  predicate IsMidnight(m: Instant, now: Instant) {
    (m + 7_200) % 86_400 == 0 && m <= now < m + 86_400
  }

  /** The rand a row commits its sender to: paid in and not given back, or promised by a quote still open. */
  function Commits(r: Remittance, now: Instant): nat {
    if (if r.cashInConfirmedAt.Some? then !r.status.Refunded?
        else r.quoteExpiresAt.Some? && now < r.quoteExpiresAt.value)
    then r.zarCents else 0
  }

  function Committed(rows: seq<Remittance>, sender: UserId, since: Instant, now: Instant): nat {
    if rows == [] then 0
    else
      var n := |rows| - 1;
      Committed(rows[..n], sender, since, now)
      + if rows[n].sender == sender && since <= rows[n].createdAt then Commits(rows[n], now) else 0
  }

  /** The rand a sender has paid in since a moment and not got back. */
  function Spent(rows: seq<Remittance>, sender: UserId, since: Instant): nat {
    if rows == [] then 0
    else
      var n := |rows| - 1;
      var r := rows[n];
      Spent(rows[..n], sender, since)
      + if r.sender == sender && since <= r.createdAt && r.cashInConfirmedAt.Some? && !r.status.Refunded? then r.zarCents
        else 0
  }

  ghost predicate AllFundedExactly(rows: seq<Remittance>) {
    forall i :: 0 <= i < |rows| ==> FundedExactly(rows[i])
  }

  lemma MidnightIsUnique(m: Instant, now: Instant)
    requires IsMidnight(m, now)
    ensures m == DayStart(now)
  {
  }

  lemma {:induction false} TotalIsCommitted(rows: seq<Remittance>, sender: UserId, since: Instant, now: Instant)
    requires AllFundedExactly(rows)
    ensures Total(rows, sender, since, now) == Committed(rows, sender, since, now)
    ensures Spent(rows, sender, since) <= Committed(rows, sender, since, now)
  {
    if rows != [] {
      var n := |rows| - 1;
      assert FundedExactly(rows[n]);
      TotalIsCommitted(rows[..n], sender, since, now);
    }
  }

  /** The two totals a quote is checked against are exactly the rand committed since the day and the month began. */
  lemma TotalsCoverTheirWindows(p: Policy, rows: seq<Remittance>, sender: UserId, now: Instant, m: Instant)
    requires AllFundedExactly(rows) && IsMidnight(m, now)
    ensures DailyTotal(rows, sender, now) == Committed(rows, sender, m, now)
    ensures MonthlyTotal(p, rows, sender, now) == Committed(rows, sender, p.monthStart(m), now)
  {
    MidnightIsUnique(m, now);
    TotalIsCommitted(rows, sender, m, now);
    TotalIsCommitted(rows, sender, p.monthStart(m), now);
  }

  /** A remittance paid in and not given back counts in a window exactly if it was created since the window began. */
  lemma PaidInCountsExactlySince(p: Policy, r: Remittance, now: Instant, m: Instant)
    requires FundedExactly(r) && r.cashInConfirmedAt.Some? && !r.status.Refunded? && IsMidnight(m, now)
    ensures DailyTotal([r], r.sender, now) == if m <= r.createdAt then r.zarCents else 0
    ensures MonthlyTotal(p, [r], r.sender, now) == if p.monthStart(m) <= r.createdAt then r.zarCents else 0
  {
    assert [r][..0] == [];
    TotalsCoverTheirWindows(p, [r], r.sender, now, m);
  }

  /** A refusal names the day if the day is over, and the month only if the day is not. */
  lemma RefusalNamesItsWindow(p: Policy, rows: seq<Remittance>, sender: UserId, amount: nat, now: Instant, m: Instant)
    requires AllFundedExactly(rows) && IsMidnight(m, now)
    ensures
      var day, month := Committed(rows, sender, m, now), Committed(rows, sender, p.monthStart(m), now);
      var r := AssertWithinLimits(p, rows, sender, amount, now);
      && (r == Err(DailyLimitExceeded) <==> day + amount > p.dailyLimit)
      && (r == Err(MonthlyLimitExceeded) <==> day + amount <= p.dailyLimit && month + amount > p.monthlyLimit)
      && (r.Ok? ==> r.value == (day, month))
  {
    hide AllFundedExactly, IsMidnight, DailyTotal, MonthlyTotal;
    TotalsCoverTheirWindows(p, rows, sender, now, m);
  }

  lemma FundedRows(s: State)
    requires Funded(s)
    ensures AllFundedExactly(s.tables.remittances)
  {
    forall i: nat | i < |s.tables.remittances|
      ensures FundedExactly(s.tables.remittances[i])
    {
      assert RowFunded(s, i);
    }
  }

  /**
   A quote commits exactly when the rand committed since both windows began,
   as of when it asked, leaves room for it.
   */
  lemma QuoteCommitsExactlyWhenItFits(p: Policy, s: State, q: RequestId, m: Instant)
    requires Funded(s) && q in s.requests && s.requests[q].Quoting? && s.requests[q].askedAt <= s.now && IsCalendar(p)
    requires IsMidnight(m, s.requests[q].askedAt)
    ensures
      var r, rows := s.requests[q], s.tables.remittances;
      var held := if p.quoteTtl > 0 then r.quote.send else 0;
      |CommitStep(p, s, q).tables.remittances| == |rows| + 1 <==>
        && Committed(rows, r.sender, m, r.askedAt) + held <= p.dailyLimit
        && Committed(rows, r.sender, p.monthStart(m), r.askedAt) + held <= p.monthlyLimit
  {
    FundedRows(s);
    hide Funded, CommitStep, DailyTotal, MonthlyTotal, IsCalendar, AllFundedExactly, IsMidnight;
    QuoteCommitsWithinLimits(p, s, q);
    TotalsCoverTheirWindows(p, s.tables.remittances, s.requests[q].sender, s.requests[q].askedAt, m);
  }

  /** Whatever a sender has paid in today and this month, and not got back, is within both limits. */
  ghost predicate SpendsWithinLimits(p: Policy, s: State, sender: UserId, m: Instant) {
    && Spent(s.tables.remittances, sender, m) <= p.dailyLimit
    && Spent(s.tables.remittances, sender, p.monthStart(m)) <= p.monthlyLimit
    && Committed(s.tables.remittances, sender, m, s.now) <= p.dailyLimit
    && Committed(s.tables.remittances, sender, p.monthStart(m), s.now) <= p.monthlyLimit
  }

  lemma WithinLimitsMeansSpending(p: Policy, s: State, sender: UserId, m: Instant)
    requires Funded(s) && IsMidnight(m, s.now)
    requires DailyTotal(s.tables.remittances, sender, s.now) <= p.dailyLimit
    requires MonthlyTotal(p, s.tables.remittances, sender, s.now) <= p.monthlyLimit
    ensures SpendsWithinLimits(p, s, sender, m)
  {
    FundedRows(s);
    hide Funded, DailyTotal, MonthlyTotal, AllFundedExactly, IsMidnight;
    TotalsCoverTheirWindows(p, s.tables.remittances, sender, s.now, m);
    TotalIsCommitted(s.tables.remittances, sender, m, s.now);
    TotalIsCommitted(s.tables.remittances, sender, p.monthStart(m), s.now);
  }

  /** In every run with fresh requests and one worker each, no sender ever spends beyond a limit. */
  lemma NoSenderSpendsBeyondALimit(
    p: Policy, pool: int, now: Instant, steps: seq<Step>, a: Assumed, sender: UserId, m: Instant)
    requires IsCalendar(p) && Run(p, Init(pool, now), steps, a) && a.remittanceChecks && a.oneWorker
    requires IsMidnight(m, After(p, Init(pool, now), steps).now)
    ensures SpendsWithinLimits(p, After(p, Init(pool, now), steps), sender, m)
  {
    InitIsSound(pool, now);
    assert Funded(Init(pool, now));
    hide Funded, Sound, Run, After, IsMidnight, DailyTotal, MonthlyTotal, IsCalendar;
    RunStaysFunded(p, Init(pool, now), steps);
    NoSenderEverExceedsALimit(p, pool, now, steps, a, sender);
    WithinLimitsMeansSpending(p, After(p, Init(pool, now), steps), sender, m);
  }

  /** ...and so in every well run, where one worker each need not be assumed. */
  lemma NoSenderSpendsBeyondALimitWhenWellRun(
    p: Policy, pool: int, now: Instant, steps: seq<Step>, a: Assumed, sender: UserId, m: Instant)
    requires IsCalendar(p) && SM.WellRun(p, pool, now, steps, a)
    requires IsMidnight(m, After(p, Init(pool, now), steps).now)
    ensures SpendsWithinLimits(p, After(p, Init(pool, now), steps), sender, m)
  {
    InitIsSound(pool, now);
    assert Funded(Init(pool, now));
    hide Funded, Sound, Run, After, IsMidnight, DailyTotal, MonthlyTotal, IsCalendar, SM.WellRun;
    RunStaysFunded(p, Init(pool, now), steps);
    SM.NoSenderExceedsALimitWhenWellRun(p, pool, now, steps, a, sender);
    WithinLimitsMeansSpending(p, After(p, Init(pool, now), steps), sender, m);
  }
}
