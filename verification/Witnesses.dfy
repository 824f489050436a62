/** Runs, from an empty system, to states in which a documented property fails. */
module Witnesses {
  import opened Wrappers
  import opened Sums
  import opened Schema
  import opened Bookkeeping
  import opened Transactions
  import opened Stream
  import opened Protocol
  import opened TableSafety
  import opened SettlementSafety
  import opened Funding
  import opened Recovery
  import opened OneWorker
  import opened CashOuts
  import opened Races
  import opened Fees
  import FeeLaws
  import Reconciliation
  import L = Limits

  // -- prices the system really quotes --------------------------------------------------------

  // R10 at R18.50 without fees, and half a US cent cashed out at one percent.
  const NO_FEES := FeeConfig(0, 0, 0, 100)
  const DUST := CashOutQuote(5_000, 50, 4_950, USD, 0)

  lemma SmallQuoteIsPriced()
    ensures CalculateQuote(1_000, 18_500_000, Some(USD), NO_FEES).Ok?
    ensures var q := CalculateQuote(1_000, 18_500_000, Some(USD), NO_FEES).value;
            q.send == SMALL_QUOTE.send && q.uctusd == SMALL_QUOTE.uctusd
  {
    NothingIsCharged();
    hide CalculateQuote, Tokens, NetConverted;
    FeeLaws.PricedExactlyWhen(1_000, 18_500_000, Some(USD), NO_FEES);
    FeeLaws.QuoteParts(1_000, 18_500_000, Some(USD), NO_FEES);
    FeeLaws.TokensAreTheExactFloor(1_000, 18_500_000);
    OnlyFloor(Tokens(1_000, 18_500_000).value);
  }

  lemma NothingIsCharged()
    ensures NetConverted(1_000, NO_FEES) == 1_000
  {
  }

  lemma OnlyFloor(t: nat)
    requires t * 18_500_000 <= 1_000 * FeeLaws.SCALE < (t + 1) * 18_500_000
    ensures t == 540_540
  {
  }

  /** A cash-out of half a cent is priced, and pays nothing. */
  lemma DustIsPriced(rate: int)
    requires rate > 0
    ensures CalculateCashOut(5_000, Some(USD), rate, NO_FEES) == Ok(DUST)
  {
  }

  // -- snapshots ---------------------------------------------------------------------------------

  /** Everything in a system with the one transfer, and at most one cash-out by its recipient. */
  ghost predicate At(
    s: State, status: RemittanceStatus, books: Books, outs: seq<CashOut>, burns: seq<BurnTrail>, pool: int,
    g: Group, handlers: map<HandlerId, Handler>)
  {
    && s.tables == Tables(books, [PAID_IN.(status := status)], outs)
    && s.burns == burns && |s.trails| == 1 && s.pool == pool
    && s.stream == g && s.handlers == handlers && s.requests == map[]
  }

  const EMPTY_BOOKS := Books(map[], [])
  const CREDIT := Entry(2, Some(0), Incoming, UCTUSD, 540_540, EntryStatus.Success, None)
  const SENT := Entry(1, Some(0), Outgoing, ZAR, 10_000_000, EntryStatus.Success, None)
  const DEBIT := Entry(2, None, Outgoing, UCTUSD, 5_000, EntryStatus.Success, Some(0))
  const CREDITED_BOOKS := Books(map[Account(2, UCTUSD) := 540_540], [CREDIT, SENT])
  const DEBITED_BOOKS := Books(map[Account(2, UCTUSD) := 535_540], [CREDIT, SENT, DEBIT])
  const ONE := [SettleRemittance(0)]
  const BOTH := [SettleRemittance(0), BurnCashOut(0)]

  function Out(status: CashOutStatus): CashOut {
    CashOut(2, 5_000, 50, 4_950, USD, 0, status, None, 2, None)
  }

  lemma HeldByOne(a: Account, held: nat, entries: seq<Entry>)
    ensures TotalHeld(Books(map[a := held], entries), a.currency) == held
  {
    var m := HeldIn(map[a := held], a.currency);
    assert m == map[a := held as int];
    MapSumRemove(m, a);
    assert m - {a} == map[];
  }

  // -- a transfer, settled -------------------------------------------------------------------------

  lemma Begun(s: State)
    requires s == QUEUED_STATE
    ensures
      var s3 := ResolveStep(ClaimStep(ReadNewStep(s, 1, "a"), 1), 1, Resolved);
      && OneWorkerPerRemittance(ReadNewStep(s, 1, "a"), Claim(1))
      && At(s3, Settling, EMPTY_BOOKS, [], [], 0, Group(ONE, 1, map[0 := "a"]),
            map[1 := Handler(0, false, Ready(Settling))])
  {
    var s1 := ReadNewStep(s, 1, "a");
    assert At(s1, Queued, EMPTY_BOOKS, [], [], 0, Group(ONE, 1, map[0 := "a"]), map[1 := Handler(0, false, Waiting)]);
    var s2 := ClaimStep(s1, 1);
    assert At(s2, Settling, EMPTY_BOOKS, [], [], 0, Group(ONE, 1, map[0 := "a"]),
              map[1 := Handler(0, false, Claimed)]);
  }

  lemma PaidIntoThePool(s: State)
    requires At(s, Settling, EMPTY_BOOKS, [], [], 0, Group(ONE, 1, map[0 := "a"]),
                map[1 := Handler(0, false, Ready(Settling))])
    ensures At(PayStep(s, 1, Validated), Settling, EMPTY_BOOKS, [], [], 540_540, Group(ONE, 1, map[0 := "a"]),
               map[1 := Handler(0, false, Paid(Settling))])
  {
  }

  lemma Recorded(s: State)
    requires At(s, Settling, EMPTY_BOOKS, [], [], 540_540, Group(ONE, 1, map[0 := "a"]),
                map[1 := Handler(0, false, Paid(Settling))])
    ensures At(AckStep(CommitSuccessStep(s, 1), 1), Settled, CREDITED_BOOKS, [], [], 540_540,
               Group(ONE, 1, map[]), map[])
  {
    assert CreditEntry(s.tables, 0) == CREDIT && SentEntry(s.tables, 0) == SENT;
    assert !KeyTaken([], KeyOf(CREDIT)) && !KeyTaken([CREDIT], KeyOf(SENT));
    assert [] + [CREDIT] == [CREDIT] && [CREDIT] + [SENT] == [CREDIT, SENT];
    var s1 := CommitSuccessStep(s, 1);
    assert At(s1, Settled, CREDITED_BOOKS, [], [], 540_540, Group(ONE, 1, map[0 := "a"]),
              map[1 := Handler(0, false, Finished)]);
    assert map[0 := "a"] - {0} == map[];
  }

  /** The steps a run with every assumption is free to take. */
  lemma Allowed(p: L.Policy, s: State, step: Step)
    ensures !step.Reclaim? && (step.Commit? ==> CommitsFresh(p, s, step)) && (step.Burn? ==> step.reply.Validated?)
            && (step.Claim? ==> OneWorkerPerRemittance(s, step)) ==>
              Permitted(p, s, step, EVERYTHING)
  {
  }

  lemma PayOnce(p: L.Policy) returns (s': State)
    requires p == SNUG_POLICY
    ensures Reaches(p, Init(0, 0), s', EVERYTHING)
    ensures At(s', Settling, EMPTY_BOOKS, [], [], 540_540, Group(ONE, 1, map[0 := "a"]),
               map[1 := Handler(0, false, Paid(Settling))])
  {
    hide Reaches, Permitted, At, ReadNewStep, ClaimStep, ResolveStep, PayStep, OneWorkerPerRemittance;
    var s0 := QuoteConfirmAndQueue();
    Begun(s0);
    var s1 := ReadNewStep(s0, 1, "a");
    var s2 := ClaimStep(s1, 1);
    var s3 := ResolveStep(s2, 1, Resolved);
    PaidIntoThePool(s3);
    s' := PayStep(s3, 1, Validated);
    assert Apply(p, s0, ReadNew(1, "a")) == s1 && Apply(p, s1, Claim(1)) == s2;
    assert Apply(p, s2, Resolve(1, Resolved)) == s3 && Apply(p, s3, Pay(1, Validated)) == s';
    hide Apply;
    Allowed(p, s0, ReadNew(1, "a"));
    Next(p, Init(0, 0), s0, ReadNew(1, "a"), EVERYTHING);
    Allowed(p, s1, Claim(1));
    Next(p, Init(0, 0), s1, Claim(1), EVERYTHING);
    Allowed(p, s2, Resolve(1, Resolved));
    Next(p, Init(0, 0), s2, Resolve(1, Resolved), EVERYTHING);
    Allowed(p, s3, Pay(1, Validated));
    Next(p, Init(0, 0), s3, Pay(1, Validated), EVERYTHING);
  }

  lemma SettleOnce(p: L.Policy) returns (s': State)
    requires p == SNUG_POLICY
    ensures Reaches(p, Init(0, 0), s', EVERYTHING)
    ensures At(s', Settled, CREDITED_BOOKS, [], [], 540_540, Group(ONE, 1, map[]), map[])
  {
    hide Reaches, Permitted, At, CommitSuccessStep, AckStep;
    var s0 := PayOnce(p);
    Recorded(s0);
    var s1 := CommitSuccessStep(s0, 1);
    s' := AckStep(s1, 1);
    assert Apply(p, s0, CommitSuccess(1)) == s1 && Apply(p, s1, Ack(1)) == s';
    hide Apply;
    Allowed(p, s0, CommitSuccess(1));
    Next(p, Init(0, 0), s0, CommitSuccess(1), EVERYTHING);
    Allowed(p, s1, Ack(1));
    Next(p, Init(0, 0), s1, Ack(1), EVERYTHING);
  }

  // -- a cash-out of dust ----------------------------------------------------------------------------

  lemma Requested1(p: L.Policy, s: State)
    requires At(s, Settled, CREDITED_BOOKS, [], [], 540_540, Group(ONE, 1, map[]), map[])
    ensures
      var s1 := BeginStep(p, s, 0, CashingOut(2, DUST, None));
      && CommitsFresh(p, s1, Commit(0))
      && At(CommitStep(p, s1, 0), Settled, DEBITED_BOOKS, [Out(Requested)], [NEW_BURN], 540_540,
            Group(ONE, 1, map[]), map[])
  {
    var r := CashingOut(2, DUST, None);
    var s1 := s.(requests := map[0 := r]);
    assert BeginStep(p, s, 0, r) == s1;
    assert s1.requests - {0} == map[];
    assert DebitEntry(2, 5_000, 0) == DEBIT;
    assert [CREDIT, SENT] + [DEBIT] == [CREDIT, SENT, DEBIT];
    assert map[Account(2, UCTUSD) := 540_540][Account(2, UCTUSD) := 535_540] == map[Account(2, UCTUSD) := 535_540];
  }

  lemma Approved1(p: L.Policy, s: State)
    requires At(s, Settled, DEBITED_BOOKS, [Out(Requested)], [NEW_BURN], 540_540, Group(ONE, 1, map[]), map[])
    ensures
      var s1 := BeginStep(p, s, 0, Approving(0));
      && CommitsFresh(p, s1, Commit(0))
      && At(CommitStep(p, s1, 0), Settled, DEBITED_BOOKS, [Out(Approved)], [NEW_BURN], 540_540,
            Group(ONE, 1, map[]), map[])
  {
    var s1 := s.(requests := map[0 := Approving(0)]);
    assert BeginStep(p, s, 0, Approving(0)) == s1;
    assert s1.requests - {0} == map[];
  }

  lemma Published1(p: L.Policy, s: State)
    requires At(s, Settled, DEBITED_BOOKS, [Out(Approved)], [NEW_BURN], 540_540, Group(ONE, 1, map[]), map[])
    ensures
      var s1 := BeginStep(p, s, 0, QueueingBurn(0));
      && CommitsFresh(p, s1, Commit(0))
      && At(CommitStep(p, s1, 0), Settled, DEBITED_BOOKS, [Out(Approved)], [NEW_BURN], 540_540,
            Group(BOTH, 1, map[]), map[])
  {
    var s1 := s.(requests := map[0 := QueueingBurn(0)]);
    assert BeginStep(p, s, 0, QueueingBurn(0)) == s1;
    assert s1.requests - {0} == map[];
    assert ONE + [BurnCashOut(0)] == BOTH;
  }

  lemma Burned1(s: State)
    requires At(s, Settled, DEBITED_BOOKS, [Out(Approved)], [NEW_BURN], 540_540, Group(BOTH, 1, map[]), map[])
    ensures
      var s1 := ReadNewStep(s, 1, "a");
      && OneWorkerPerRemittance(s1, Claim(1))
      && At(CommitBurnStep(BurnStep(ClaimStep(s1, 1), 1, Validated), 1), Settled, DEBITED_BOOKS, [Out(Processing)],
            [BurnTrail(1, 1, None)], 535_590, Group(BOTH, 2, map[1 := "a"]), map[])
  {
    var s1 := ReadNewStep(s, 1, "a");
    assert At(s1, Settled, DEBITED_BOOKS, [Out(Approved)], [NEW_BURN], 540_540, Group(BOTH, 2, map[1 := "a"]),
              map[1 := Handler(1, false, Waiting)]);
    var s2 := ClaimStep(s1, 1);
    assert At(s2, Settled, DEBITED_BOOKS, [Out(Processing)], [NEW_BURN], 540_540, Group(BOTH, 2, map[1 := "a"]),
              map[1 := Handler(1, false, BurnClaimed)]);
    var s3 := BurnStep(s2, 1, Validated);
    assert At(s3, Settled, DEBITED_BOOKS, [Out(Processing)], [BurnTrail(1, 1, None)], 535_590,
              Group(BOTH, 2, map[1 := "a"]), map[1 := Handler(1, false, BurnLanded)]);
    assert map[1 := Handler(1, false, BurnLanded)] - {1} == map[];
  }

  /** One request that commits as soon as it has checked. */
  lemma Request(p: L.Policy, s0: State, s: State, r: Request)
    requires Reaches(p, s0, s, EVERYTHING) && CommitsFresh(p, BeginStep(p, s, 0, r), Commit(0))
    ensures Reaches(p, s0, CommitStep(p, BeginStep(p, s, 0, r), 0), EVERYTHING)
  {
    hide Reaches, Permitted, BeginStep, CommitStep, CommitsFresh;
    Allowed(p, s, Begin(0, r));
    Next(p, s0, s, Begin(0, r), EVERYTHING);
    Allowed(p, BeginStep(p, s, 0, r), Commit(0));
    Next(p, s0, BeginStep(p, s, 0, r), Commit(0), EVERYTHING);
  }

  lemma OpenDust(p: L.Policy) returns (s': State)
    requires p == SNUG_POLICY
    ensures Reaches(p, Init(0, 0), s', EVERYTHING)
    ensures At(s', Settled, DEBITED_BOOKS, [Out(Requested)], [NEW_BURN], 540_540, Group(ONE, 1, map[]), map[])
  {
    hide Reaches, At, BeginStep, CommitStep, CommitsFresh;
    var s := SettleOnce(p);
    Requested1(p, s);
    Request(p, Init(0, 0), s, CashingOut(2, DUST, None));
    s' := CommitStep(p, BeginStep(p, s, 0, CashingOut(2, DUST, None)), 0);
  }

  lemma PublishDust(p: L.Policy) returns (s': State)
    requires p == SNUG_POLICY
    ensures Reaches(p, Init(0, 0), s', EVERYTHING)
    ensures At(s', Settled, DEBITED_BOOKS, [Out(Approved)], [NEW_BURN], 540_540, Group(BOTH, 1, map[]), map[])
  {
    hide Reaches, At, BeginStep, CommitStep, CommitsFresh;
    var s := OpenDust(p);
    Approved1(p, s);
    Request(p, Init(0, 0), s, Approving(0));
    var s1 := CommitStep(p, BeginStep(p, s, 0, Approving(0)), 0);
    Published1(p, s1);
    Request(p, Init(0, 0), s1, QueueingBurn(0));
    s' := CommitStep(p, BeginStep(p, s1, 0, QueueingBurn(0)), 0);
  }

  lemma BurnDust(p: L.Policy) returns (s': State)
    requires p == SNUG_POLICY
    ensures Reaches(p, Init(0, 0), s', EVERYTHING)
    ensures At(s', Settled, DEBITED_BOOKS, [Out(Processing)], [BurnTrail(1, 1, None)], 535_590,
               Group(BOTH, 2, map[1 := "a"]), map[])
  {
    hide Reaches, Permitted, At, ReadNewStep, ClaimStep, BurnStep, CommitBurnStep, OneWorkerPerRemittance;
    var s0 := PublishDust(p);
    Burned1(s0);
    var s1 := ReadNewStep(s0, 1, "a");
    var s2 := ClaimStep(s1, 1);
    var s3 := BurnStep(s2, 1, Validated);
    s' := CommitBurnStep(s3, 1);
    assert Apply(p, s0, ReadNew(1, "a")) == s1 && Apply(p, s1, Claim(1)) == s2;
    assert Apply(p, s2, Burn(1, Validated)) == s3 && Apply(p, s3, CommitBurn(1)) == s';
    hide Apply;
    Allowed(p, s0, ReadNew(1, "a"));
    Next(p, Init(0, 0), s0, ReadNew(1, "a"), EVERYTHING);
    Allowed(p, s1, Claim(1));
    Next(p, Init(0, 0), s1, Claim(1), EVERYTHING);
    Allowed(p, s2, Burn(1, Validated));
    Next(p, Init(0, 0), s2, Burn(1, Validated), EVERYTHING);
    Allowed(p, s3, CommitBurn(1));
    Next(p, Init(0, 0), s3, CommitBurn(1), EVERYTHING);
  }

  /**
   Half a cent's tokens are priced, taken, burned and paid out as nothing;
   the cash-out is then abandoned, with every assumption kept.
   */
  lemma DustIsBurnedForNothing()
    ensures CalculateCashOut(5_000, Some(USD), 18_500_000, NO_FEES) == Ok(DUST)
    ensures exists s ::
              && Reaches(SNUG_POLICY, Init(0, 0), s, EVERYTHING) && Abandoned(s, 0)
              && s.tables.cashOuts[0].gross == DUST.gross && s.tables.cashOuts[0].payoutAmount == DUST.payoutAmount == 0
              && s.burns[0].landed == 1
  {
    DustIsPriced(18_500_000);
    var s := BurnDust(SNUG_POLICY);
    assert Abandoned(s, 0);
    hide *;
  }

  ghost predicate PoolEqualsBalances(s: State) {
    s.pool == TotalHeld(s.tables.books, UCTUSD)
  }

  /**
   Each way for the pool to differ from the balances is taken by some run
   that starts with both at zero: a payment not yet credited, an open
   cash-out, a fee kept.
   */
  lemma PoolCanDifferFromTheBalances()
    ensures exists s :: Reaches(SNUG_POLICY, Init(0, 0), s, EVERYTHING) && !PoolEqualsBalances(s)
                        && |s.trails| == |s.tables.remittances| == 1 && s.tables.cashOuts == []
                        && Reconciliation.Unrecorded(s.tables.remittances[0], s.trails[0]) > 0
    ensures exists s :: Reaches(SNUG_POLICY, Init(0, 0), s, EVERYTHING) && !PoolEqualsBalances(s)
                        && |s.burns| == |s.tables.cashOuts| == 1
                        && Reconciliation.Unburned(s.tables.cashOuts[0], s.burns[0]) > 0
    ensures exists s :: Reaches(SNUG_POLICY, Init(0, 0), s, EVERYTHING) && !PoolEqualsBalances(s)
                        && |s.burns| == |s.tables.cashOuts| == 1
                        && Reconciliation.FeeKept(s.tables.cashOuts[0], s.burns[0]) > 0
  {
    var p := SNUG_POLICY;
    var paid := PayOnce(p);
    var open := OpenDust(p);
    var burned := BurnDust(p);
    assert HeldIn(EMPTY_BOOKS.balances, UCTUSD) == map[];
    HeldByOne(Account(2, UCTUSD), 535_540, DEBITED_BOOKS.entries);
    assert !PoolEqualsBalances(paid) && !PoolEqualsBalances(open) && !PoolEqualsBalances(burned);
    PaidIsUnrecorded(p, paid);
    hide Reaches, TotalHeld, PoolEqualsBalances;
  }

  lemma PaidIsUnrecorded(p: L.Policy, s: State)
    requires Reaches(p, Init(0, 0), s, EVERYTHING)
    requires At(s, Settling, EMPTY_BOOKS, [], [], 540_540, Group(ONE, 1, map[0 := "a"]),
                map[1 := Handler(0, false, Paid(Settling))])
    ensures Reconciliation.Unrecorded(s.tables.remittances[0], s.trails[0]) > 0
  {
    var steps :| Run(p, Init(0, 0), steps, EVERYTHING) && After(p, Init(0, 0), steps) == s;
    InitIsSound(0, 0);
    RunIsSound(p, Init(0, 0), steps);
    assert TrailSound(s, 0) && HandlerSound(s, 1);
    assert !IsCredited(s.tables, 0);
    hide Run, After, Sound;
  }

  // -- a burn that raised after it had landed -----------------------------------------------------------

  // Everything assumed but that a burn that raised did not land.
  const MISTAKEN := Assumed(false, true, true, true, true)

  const REVERSAL := Entry(2, None, Incoming, UCTUSD, 5_000, EntryStatus.Success, Some(0))
  const REVERSED_BOOKS := Books(map[Account(2, UCTUSD) := 540_540], [CREDIT, SENT, DEBIT, REVERSAL])

  lemma BurnedByMistake(s: State)
    requires At(s, Settled, DEBITED_BOOKS, [Out(Approved)], [NEW_BURN], 540_540, Group(BOTH, 1, map[]), map[])
    ensures
      var s1 := ReadNewStep(s, 1, "a");
      && OneWorkerPerRemittance(s1, Claim(1))
      && At(BurnStep(ClaimStep(s1, 1), 1, Raised(true)), Settled, DEBITED_BOOKS, [Out(Processing)],
            [BurnTrail(1, 1, None)], 535_590, Group(BOTH, 2, map[1 := "a"]),
            map[1 := Handler(1, false, BurnRejected)])
  {
    var s1 := ReadNewStep(s, 1, "a");
    assert At(s1, Settled, DEBITED_BOOKS, [Out(Approved)], [NEW_BURN], 540_540, Group(BOTH, 2, map[1 := "a"]),
              map[1 := Handler(1, false, Waiting)]);
    var s2 := ClaimStep(s1, 1);
    assert At(s2, Settled, DEBITED_BOOKS, [Out(Processing)], [NEW_BURN], 540_540, Group(BOTH, 2, map[1 := "a"]),
              map[1 := Handler(1, false, BurnClaimed)]);
  }

  lemma RefundedByMistake(s: State)
    requires At(s, Settled, DEBITED_BOOKS, [Out(Processing)], [BurnTrail(1, 1, None)], 535_590,
                Group(BOTH, 2, map[1 := "a"]), map[1 := Handler(1, false, BurnRejected)])
    ensures At(CommitReversalStep(s, 1), Settled, REVERSED_BOOKS, [Out(CashOutStatus.Failed)],
               [BurnTrail(1, 1, Some(3))], 535_590, Group(BOTH, 2, map[1 := "a"]),
               map[1 := Handler(1, false, Finished)])
  {
    assert ReversalEntry(s.tables, 0) == REVERSAL;
    assert [CREDIT, SENT, DEBIT] + [REVERSAL] == [CREDIT, SENT, DEBIT, REVERSAL];
    assert map[Account(2, UCTUSD) := 535_540][Account(2, UCTUSD) := 540_540] == map[Account(2, UCTUSD) := 540_540];
  }

  lemma Mistaken(p: L.Policy, s: State, step: Step)
    ensures !step.Reclaim? && !step.Commit? && (step.Claim? ==> OneWorkerPerRemittance(s, step)) ==>
              Permitted(p, s, step, MISTAKEN)
  {
  }

  lemma RefundByMistake(p: L.Policy) returns (s': State)
    requires p == SNUG_POLICY
    ensures Reaches(p, Init(0, 0), s', MISTAKEN)
    ensures At(s', Settled, REVERSED_BOOKS, [Out(CashOutStatus.Failed)], [BurnTrail(1, 1, Some(3))], 535_590,
               Group(BOTH, 2, map[1 := "a"]), map[1 := Handler(1, false, Finished)])
  {
    hide Reaches, Permitted, At, ReadNewStep, ClaimStep, BurnStep, CommitReversalStep, OneWorkerPerRemittance;
    var s0 := PublishDust(p);
    FewerAssumptions(p, Init(0, 0), s0, MISTAKEN);
    BurnedByMistake(s0);
    var s1 := ReadNewStep(s0, 1, "a");
    var s2 := ClaimStep(s1, 1);
    var s3 := BurnStep(s2, 1, Raised(true));
    RefundedByMistake(s3);
    s' := CommitReversalStep(s3, 1);
    assert Apply(p, s0, ReadNew(1, "a")) == s1 && Apply(p, s1, Claim(1)) == s2;
    assert Apply(p, s2, Burn(1, Raised(true))) == s3 && Apply(p, s3, CommitReversal(1)) == s';
    hide Apply;
    Mistaken(p, s0, ReadNew(1, "a"));
    Next(p, Init(0, 0), s0, ReadNew(1, "a"), MISTAKEN);
    Mistaken(p, s1, Claim(1));
    Next(p, Init(0, 0), s1, Claim(1), MISTAKEN);
    Mistaken(p, s2, Burn(1, Raised(true)));
    Next(p, Init(0, 0), s2, Burn(1, Raised(true)), MISTAKEN);
    Mistaken(p, s3, CommitReversal(1));
    Next(p, Init(0, 0), s3, CommitReversal(1), MISTAKEN);
  }

  /** A burn that landed and raised is refunded all the same, and the pool no longer covers the balances. */
  lemma PoolCanFallShort()
    ensures exists s ::
              && Reaches(SNUG_POLICY, Init(0, 0), s, MISTAKEN)
              && s.pool < TotalHeld(s.tables.books, UCTUSD)
              && |s.burns| == |s.tables.cashOuts| == 1
              && Reconciliation.Lost(s.tables.cashOuts[0], s.burns[0]) > 0
  {
    var s := RefundByMistake(SNUG_POLICY);
    HeldByOne(Account(2, UCTUSD), 540_540, REVERSED_BOOKS.entries);
    hide Reaches, TotalHeld;
  }

  // -- two handlers, and a failure recorded late -------------------------------------------------------

  /** Two handlers on the two messages of one paid-in remittance. */
  ghost predicate Pair(s: State, status: RemittanceStatus, entries: seq<Entry>, x: Phase, y: Phase) {
    && Single(s, status, Group(TWO_MESSAGES, 2, map[0 := "a", 1 := "c"]),
              map[1 := Handler(0, false, x), 3 := Handler(1, true, y)])
    && s.tables.books.entries == entries
  }

  lemma ClaimPair(p: L.Policy) returns (s': State)
    requires p == SNUG_POLICY
    ensures Reaches(p, Init(0, 0), s', ORDERLY) && Pair(s', Settling, [], Claimed, Claimed)
  {
    var queued := QuoteConfirmAndQueue();
    FewerAssumptions(p, Init(0, 0), queued, ORDERLY);
    var twice := QueueAgain(p, Init(0, 0), queued);
    s' := ClaimTwice(p, Init(0, 0), twice);
    hide Reaches;
  }

  lemma NeitherFindsTheRecipient(s: State)
    requires Pair(s, Settling, [], Claimed, Claimed)
    ensures Pair(ResolveStep(ResolveStep(s, 1, NoRecipient), 3, NoRecipient), Settling, [],
                 MustFail(false), MustFail(false))
  {
    assert Pair(ResolveStep(s, 1, NoRecipient), Settling, [], MustFail(false), Claimed);
  }

  lemma FirstFails(s: State, y: Phase)
    requires Pair(s, Settling, [], MustFail(false), y)
    ensures Pair(CommitFailureStep(LoadForFailureStep(s, 1), 1), RemittanceStatus.Failed, [], Finished, y)
  {
    assert Pair(LoadForFailureStep(s, 1), Settling, [], Failing(Settling, false), y);
  }

  lemma SecondLoads(s: State, status: RemittanceStatus, x: Phase)
    requires Pair(s, status, [], x, MustFail(false))
    ensures Pair(LoadForFailureStep(s, 3), status, [], x, Failing(status, false))
  {
  }

  lemma RequeuedMeanwhile(p: L.Policy, s: State, x: Phase, y: Phase)
    requires Pair(s, RemittanceStatus.Failed, [], x, y)
    ensures
      var s1 := BeginStep(p, s, 0, Requeueing(0));
      CommitsFresh(p, s1, Commit(0)) && Pair(CommitStep(p, s1, 0), CashInConfirmed, [], x, y)
  {
    assert BeginStep(p, s, 0, Requeueing(0)) == s.(requests := map[0 := Requeueing(0)]);
    assert map[0 := Requeueing(0)] - {0} == map[];
  }

  lemma RefundedMeanwhile(p: L.Policy, s: State, x: Phase, y: Phase)
    requires Pair(s, RemittanceStatus.Failed, [], x, y)
    ensures
      var s1 := BeginStep(p, s, 0, Refunding(0));
      var s2 := CommitStep(p, s1, 0);
      && CommitsFresh(p, s1, Commit(0)) && IsRemittance(s2, 0)
      && Pair(s2, Refunded, [RefundEntry(s2.tables, 0)], x, y)
  {
    assert BeginStep(p, s, 0, Refunding(0)) == s.(requests := map[0 := Refunding(0)]);
    assert map[0 := Refunding(0)] - {0} == map[];
    assert !KeyTaken([], KeyOf(RefundEntry(s.tables, 0)));
    assert [] + [RefundEntry(s.tables, 0)] == [RefundEntry(s.tables, 0)];
  }

  lemma AtomicRequest(p: L.Policy, s0: State, s: State, r: Request)
    requires Reaches(p, s0, s, ORDERLY) && CommitsFresh(p, BeginStep(p, s, 0, r), Commit(0))
    ensures Reaches(p, s0, CommitStep(p, BeginStep(p, s, 0, r), 0), ORDERLY)
  {
    hide Reaches, BeginStep, CommitStep;
    Orderly(p, s, Begin(0, r));
    assert Permitted(p, BeginStep(p, s, 0, r), Commit(0), ORDERLY);
    hide Permitted;
    Next(p, s0, s, Begin(0, r), ORDERLY);
    Next(p, s0, BeginStep(p, s, 0, r), Commit(0), ORDERLY);
  }

  lemma FailPair(p: L.Policy) returns (s': State)
    requires p == SNUG_POLICY
    ensures Reaches(p, Init(0, 0), s', ORDERLY) && Pair(s', Settling, [], MustFail(false), MustFail(false))
  {
    hide Reaches, Permitted, Pair, ResolveStep;
    var s0 := ClaimPair(p);
    NeitherFindsTheRecipient(s0);
    var s1 := ResolveStep(s0, 1, NoRecipient);
    s' := ResolveStep(s1, 3, NoRecipient);
    assert Apply(p, s0, Resolve(1, NoRecipient)) == s1 && Apply(p, s1, Resolve(3, NoRecipient)) == s';
    hide Apply;
    Orderly(p, s0, Resolve(1, NoRecipient));
    Next(p, Init(0, 0), s0, Resolve(1, NoRecipient), ORDERLY);
    Orderly(p, s1, Resolve(3, NoRecipient));
    Next(p, Init(0, 0), s1, Resolve(3, NoRecipient), ORDERLY);
  }

  lemma FailFirst(p: L.Policy, s: State, y: Phase) returns (s': State)
    requires Reaches(p, Init(0, 0), s, ORDERLY) && Pair(s, Settling, [], MustFail(false), y)
    ensures Reaches(p, Init(0, 0), s', ORDERLY) && Pair(s', RemittanceStatus.Failed, [], Finished, y)
  {
    hide Reaches, Permitted, Pair, LoadForFailureStep, CommitFailureStep;
    FirstFails(s, y);
    var s1 := LoadForFailureStep(s, 1);
    s' := CommitFailureStep(s1, 1);
    assert Apply(p, s, LoadForFailure(1)) == s1 && Apply(p, s1, CommitFailure(1)) == s';
    hide Apply;
    Orderly(p, s, LoadForFailure(1));
    Next(p, Init(0, 0), s, LoadForFailure(1), ORDERLY);
    Orderly(p, s1, CommitFailure(1));
    Next(p, Init(0, 0), s1, CommitFailure(1), ORDERLY);
  }

  lemma LoadSecond(p: L.Policy, s: State, status: RemittanceStatus, x: Phase) returns (s': State)
    requires Reaches(p, Init(0, 0), s, ORDERLY) && Pair(s, status, [], x, MustFail(false))
    ensures Reaches(p, Init(0, 0), s', ORDERLY) && Pair(s', status, [], x, Failing(status, false))
  {
    hide Reaches, Permitted, Pair, LoadForFailureStep;
    SecondLoads(s, status, x);
    s' := LoadForFailureStep(s, 3);
    assert Apply(p, s, LoadForFailure(3)) == s';
    hide Apply;
    Orderly(p, s, LoadForFailure(3));
    Next(p, Init(0, 0), s, LoadForFailure(3), ORDERLY);
  }

  /**
   A failure can be recorded and leave the row unfailed, with clean
   handovers and fresh requests: the session had read FAILED, the row was
   requeued since, and the write was not issued.
   */
  lemma FailureCanLeaveARowWaiting()
    ensures exists s ::
              && Reaches(SNUG_POLICY, Init(0, 0), s, ORDERLY)
              && IsRemittance(s, 0) && StatusOf(s, 0).CashInConfirmed?
              && InPhase(s, 3, Failing(RemittanceStatus.Failed, false))
              && CommitFailureStep(s, 3).tables == s.tables && InPhase(CommitFailureStep(s, 3), 3, Finished)
  {
    var p := SNUG_POLICY;
    var both := FailPair(p);
    var failed := FailFirst(p, both, MustFail(false));
    var loaded := LoadSecond(p, failed, RemittanceStatus.Failed, Finished);
    RequeuedMeanwhile(p, loaded, Finished, Failing(RemittanceStatus.Failed, false));
    AtomicRequest(p, Init(0, 0), loaded, Requeueing(0));
    var s := CommitStep(p, BeginStep(p, loaded, 0, Requeueing(0)), 0);
    LateWriteIsSkipped(s);
    hide Reaches, Pair, BeginStep, CommitStep, CommitFailureStep;
  }

  lemma LateWriteIsSkipped(s: State)
    requires Pair(s, CashInConfirmed, [], Finished, Failing(RemittanceStatus.Failed, false))
    ensures IsRemittance(s, 0) && StatusOf(s, 0).CashInConfirmed?
    ensures InPhase(s, 3, Failing(RemittanceStatus.Failed, false))
    ensures CommitFailureStep(s, 3).tables == s.tables && InPhase(CommitFailureStep(s, 3), 3, Finished)
  {
    assert s.tables.remittances[0 := s.tables.remittances[0]] == s.tables.remittances;
  }

  lemma LateFailureOnARefund(s: State)
    requires IsRemittance(s, 0) && Pair(s, Refunded, [RefundEntry(s.tables, 0)], Finished, Failing(Settling, false))
    ensures
      var s' := CommitFailureStep(s, 3);
      IsRemittance(s', 0) && StatusOf(s', 0).Failed? && IsRefunded(s'.tables, 0)
  {
    var s' := CommitFailureStep(s, 3);
    assert s'.tables.books.entries[0] == RefundEntry(s'.tables, 0);
  }

  /** A remittance refunded while a handler that read it before is still to record its failure. */
  lemma RefundFirst(p: L.Policy) returns (s': State)
    requires p == SNUG_POLICY
    ensures Reaches(p, Init(0, 0), s', ORDERLY) && IsRemittance(s', 0)
    ensures Pair(s', Refunded, [RefundEntry(s'.tables, 0)], Finished, Failing(Settling, false))
  {
    hide Reaches, Permitted, Pair, BeginStep, CommitStep, CommitsFresh;
    var both := FailPair(p);
    var loaded := LoadSecond(p, both, Settling, MustFail(false));
    var failed := FailFirst(p, loaded, Failing(Settling, false));
    RefundedMeanwhile(p, failed, Finished, Failing(Settling, false));
    AtomicRequest(p, Init(0, 0), failed, Refunding(0));
    s' := CommitStep(p, BeginStep(p, failed, 0, Refunding(0)), 0);
  }

  /** A refunded remittance can be turned FAILED by a handler that read it before. */
  lemma RefundedCanBeOverwritten()
    ensures exists s ::
              && Reaches(SNUG_POLICY, Init(0, 0), s, ORDERLY)
              && IsRemittance(s, 0) && StatusOf(s, 0).Failed? && IsRefunded(s.tables, 0)
  {
    hide Reaches, Permitted, Pair, CommitFailureStep, IsRefunded;
    var p := SNUG_POLICY;
    var s := RefundFirst(p);
    LateFailureOnARefund(s);
    assert Apply(p, s, CommitFailure(3)) == CommitFailureStep(s, 3);
    hide Apply;
    Orderly(p, s, CommitFailure(3));
    Next(p, Init(0, 0), s, CommitFailure(3), ORDERLY);
  }

  // -- a sender over a limit ------------------------------------------------------------------------------

  /** One refunded remittance and one new quote by its sender, with a failure still to be recorded. */
  ghost predicate Requoted(s: State, status: RemittanceStatus, x: Phase, y: Phase) {
    && s.tables.remittances == [PAID_IN.(status := status), QUOTED_ROW] && |s.trails| == 2 && s.now == 0
    && s.stream == Group(TWO_MESSAGES, 2, map[0 := "a", 1 := "c"])
    && s.handlers == map[1 := Handler(0, false, x), 3 := Handler(1, true, y)]
  }

  lemma RefundFreesHeadroom(amount: nat)
    requires amount <= 1_000
    ensures
      var row := PAID_IN.(status := Refunded);
      && L.AssertWithinLimits(SNUG_POLICY, [row], 1, amount, 0).Ok?
      && L.AssertWithinLimits(SNUG_POLICY, [row, QUOTED_ROW], 1, 0, 0).Ok?
  {
    var row := PAID_IN.(status := Refunded);
    assert [] + [row] == [row] && [row] + [QUOTED_ROW] == [row, QUOTED_ROW];
    L.TotalAppend([], row, 1, L.DayStart(0), 0);
    L.TotalAppend([], row, 1, L.MonthStart(SNUG_POLICY, 0), 0);
    L.TotalAppend([row], QUOTED_ROW, 1, L.DayStart(0), 0);
    L.TotalAppend([row], QUOTED_ROW, 1, L.MonthStart(SNUG_POLICY, 0), 0);
  }

  lemma QuotedMeanwhile(p: L.Policy, s: State, entries: seq<Entry>, x: Phase, y: Phase)
    requires p == SNUG_POLICY && Pair(s, Refunded, entries, x, y)
    ensures
      var s1 := BeginStep(p, s, 0, Quoting(1, 2, SMALL_QUOTE, 0));
      CommitsFresh(p, s1, Commit(0)) && Requoted(CommitStep(p, s1, 0), Refunded, x, y)
  {
    var quoting := Quoting(1, 2, SMALL_QUOTE, 0);
    RefundFreesHeadroom(1_000);
    assert s.tables.remittances == [PAID_IN.(status := Refunded)];
    assert BeginStep(p, s, 0, quoting) == s.(requests := map[0 := quoting]);
    assert [PAID_IN.(status := Refunded)] + [QUOTED_ROW] == [PAID_IN.(status := Refunded), QUOTED_ROW];
    hide L.AssertWithinLimits;
  }

  lemma CountedAgain(s: State)
    requires Requoted(s, Refunded, Finished, Failing(Settling, false))
    ensures Requoted(CommitFailureStep(s, 3), RemittanceStatus.Failed, Finished, Finished)
  {
  }

  lemma OverTheLimit(s: State)
    requires Requoted(s, RemittanceStatus.Failed, Finished, Finished)
    ensures L.DailyTotal(s.tables.remittances, 1, s.now) == 2_000
    ensures L.MonthlyTotal(SNUG_POLICY, s.tables.remittances, 1, s.now) == 2_000
  {
    var row := PAID_IN.(status := RemittanceStatus.Failed);
    assert [] + [row] == [row] && [row] + [QUOTED_ROW] == s.tables.remittances;
    L.TotalAppend([], row, 1, L.DayStart(0), 0);
    L.TotalAppend([], row, 1, L.MonthStart(SNUG_POLICY, 0), 0);
    L.TotalAppend([row], QUOTED_ROW, 1, L.DayStart(0), 0);
    L.TotalAppend([row], QUOTED_ROW, 1, L.MonthStart(SNUG_POLICY, 0), 0);
  }

  /** A failure recorded over a refund whose headroom is taken again carries the sender over both limits. */
  lemma LateFailureCanExceedALimit()
    ensures exists s ::
              && Reaches(SNUG_POLICY, Init(0, 0), s, ORDERLY)
              && L.DailyTotal(s.tables.remittances, 1, s.now) > SNUG_POLICY.dailyLimit
              && L.MonthlyTotal(SNUG_POLICY, s.tables.remittances, 1, s.now) > SNUG_POLICY.monthlyLimit
  {
    hide Reaches, Permitted, Pair, Requoted, BeginStep, CommitStep, CommitFailureStep, CommitsFresh;
    var p := SNUG_POLICY;
    var refunded := RefundFirst(p);
    QuotedMeanwhile(p, refunded, [RefundEntry(refunded.tables, 0)], Finished, Failing(Settling, false));
    AtomicRequest(p, Init(0, 0), refunded, Quoting(1, 2, SMALL_QUOTE, 0));
    var s := CommitStep(p, BeginStep(p, refunded, 0, Quoting(1, 2, SMALL_QUOTE, 0)), 0);
    CountedAgain(s);
    OverTheLimit(CommitFailureStep(s, 3));
    assert Apply(p, s, CommitFailure(3)) == CommitFailureStep(s, 3);
    hide Apply, L.DailyTotal, L.MonthlyTotal;
    Orderly(p, s, CommitFailure(3));
    Next(p, Init(0, 0), s, CommitFailure(3), ORDERLY);
  }
}
