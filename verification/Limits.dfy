/** Which remittances hold a sender's limit headroom, and over what window (services/limits_service.py). */
module Limits {
  import opened Schema
  import opened Wrappers

  /** `monthStart` maps the start of a SAST day to the start of its month. */
  datatype Policy = Policy(
    dailyLimit: nat, monthlyLimit: nat, quoteTtl: nat, monthStart: Instant -> Instant)

  datatype LimitError = DailyLimitExceeded | MonthlyLimitExceeded

  const SAST_OFFSET: int := 7_200
  const SECONDS_PER_DAY: int := 86_400

  /** Midnight in South African time, as naive UTC. */
  function DayStart(now: Instant): Instant {
    (now + SAST_OFFSET) / SECONDS_PER_DAY * SECONDS_PER_DAY - SAST_OFFSET
  }

  function MonthStart(p: Policy, now: Instant): Instant {
    p.monthStart(DayStart(now))
  }

  /** Months start no later than their days, and never go backwards. */
  ghost predicate IsCalendar(p: Policy) {
    && (forall day: Instant {:trigger p.monthStart(day)} :: p.monthStart(day) <= day)
    && (forall d, e: Instant {:trigger p.monthStart(d), p.monthStart(e)} :: d <= e ==> p.monthStart(d) <= p.monthStart(e))
  }

  predicate ConsumesLimit(s: RemittanceStatus) {
    !s.Refunded?
  }

  /** The four filters of sender_totals. */
  predicate Counts(r: Remittance, sender: UserId, since: Instant, now: Instant) {
    && r.sender == sender
    && ConsumesLimit(r.status)
    && since <= r.createdAt
    && (!r.status.Quoted? || r.quoteExpiresAt.None? || r.quoteExpiresAt.value > now)
    && (!r.status.Failed? || r.cashInConfirmedAt.Some?)
  }

  function CountedCents(r: Remittance, sender: UserId, since: Instant, now: Instant): nat {
    if Counts(r, sender, since, now) then r.zarCents else 0
  }

  function Total(rows: seq<Remittance>, sender: UserId, since: Instant, now: Instant): nat {
    if rows == [] then 0
    else
      Total(rows[..|rows| - 1], sender, since, now) +
      CountedCents(rows[|rows| - 1], sender, since, now)
  }

  function DailyTotal(rows: seq<Remittance>, sender: UserId, now: Instant): nat {
    Total(rows, sender, DayStart(now), now)
  }

  function MonthlyTotal(p: Policy, rows: seq<Remittance>, sender: UserId, now: Instant): nat {
    Total(rows, sender, MonthStart(p, now), now)
  }

  /** assert_within_limits: the daily check first, then the monthly one. */
  function AssertWithinLimits(p: Policy, rows: seq<Remittance>, sender: UserId, amount: nat, now: Instant):
    Result<(nat, nat), LimitError>
  {
    var daily := DailyTotal(rows, sender, now);
    var monthly := MonthlyTotal(p, rows, sender, now);
    if daily + amount > p.dailyLimit then Err(DailyLimitExceeded)
    else if monthly + amount > p.monthlyLimit then Err(MonthlyLimitExceeded)
    else Ok((daily, monthly))
  }

  // -- how totals move ---------------------------------------------------

  lemma TotalAppend(rows: seq<Remittance>, r: Remittance, sender: UserId, since: Instant, now: Instant)
    ensures Total(rows + [r], sender, since, now) ==
            Total(rows, sender, since, now) + CountedCents(r, sender, since, now)
  {
  }

  /** Two tables whose rows count no more one by one count no more in total. */
  lemma {:induction false} TotalMonotone(
    rows: seq<Remittance>, rows': seq<Remittance>, sender: UserId,
    since: Instant, since': Instant, now: Instant, now': Instant)
    requires |rows| == |rows'|
    requires forall i :: 0 <= i < |rows| ==>
               CountedCents(rows'[i], sender, since', now') <= CountedCents(rows[i], sender, since, now)
    ensures Total(rows', sender, since', now') <= Total(rows, sender, since, now)
  {
    if rows != [] {
      var n := |rows| - 1;
      TotalMonotone(rows[..n], rows'[..n], sender, since, since', now, now');
    }
  }

  /** The day starts at the last South African midnight, whatever the sign of the clock. */
  lemma DayStartIsTheLastMidnight(now: Instant)
    ensures (DayStart(now) + 7_200) % 86_400 == 0
    ensures DayStart(now) <= now < DayStart(now) + 86_400
  {
  }

  lemma DayStartIsMonotone(now: Instant, later: Instant)
    requires now <= later
    ensures DayStart(now) <= DayStart(later) <= later
  {
  }

  /** Headroom is only ever released by the clock: neither window can count more later. */
  lemma TotalsFallWithTime(p: Policy, rows: seq<Remittance>, sender: UserId, now: Instant, later: Instant)
    requires IsCalendar(p) && now <= later
    ensures DailyTotal(rows, sender, later) <= DailyTotal(rows, sender, now)
    ensures MonthlyTotal(p, rows, sender, later) <= MonthlyTotal(p, rows, sender, now)
  {
    DayStartIsMonotone(now, later);
    TotalMonotone(rows, rows, sender, DayStart(now), DayStart(later), now, later);
    TotalMonotone(rows, rows, sender, MonthStart(p, now), MonthStart(p, later), now, later);
  }

  /** Live and expired are exact complements: an unfunded quote counts until it cannot be funded. */
  lemma LiveExactlyWhileFundable(r: Remittance, since: Instant, now: Instant)
    requires r.status.Quoted? && since <= r.createdAt
    ensures Counts(r, r.sender, since, now) <==> !IsQuoteExpired(r, now)
  {
  }
}
