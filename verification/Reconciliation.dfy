/**
 Where every token is: what settlements credited is what customers hold
 plus what cash-outs reserve, and the payout pool covers all of it.
 */
module Reconciliation {
  import opened Wrappers
  import opened Sums
  import opened Arithmetic
  import opened Schema
  import opened Bookkeeping
  import opened Transactions
  import opened Stream
  import opened Protocol
  import opened TableSafety
  import opened SettlementSafety
  import opened Frames
  import opened CashOuts
  import Limits

  // -- conservation ------------------------------------------------------------------------

  ghost function Credits(rows: seq<Remittance>, trails: seq<Trail>): seq<int>
    requires |rows| == |trails|
  {
    seq(|rows|, i requires 0 <= i < |rows| => if trails[i].credited then rows[i].uctusd as int else 0)
  }

  function Reserve(row: CashOut): int {
    if row.status.Failed? then 0 else row.gross as int
  }

  ghost function Reserves(rows: seq<CashOut>): seq<int> {
    seq(|rows|, i requires 0 <= i < |rows| => Reserve(rows[i]))
  }

  ghost predicate Conserved(s: State) {
    && |s.tables.remittances| == |s.trails|
    && Sum(Credits(s.tables.remittances, s.trails)) ==
         TotalHeld(s.tables.books, UCTUSD) + Sum(Reserves(s.tables.cashOuts))
  }

  predicate MovesTokens(s: State, step: Step) {
    || step.CommitSuccess? || step.CommitBurn? || step.CommitReversal?
    || (step.Commit? && step.q in s.requests
        && (s.requests[step.q].CashingOut? || s.requests[step.q].Rejecting?))
  }

  lemma QuietStepMovesNoTokens(p: Limits.Policy, s: State, step: Step)
    requires !MovesTokens(s, step) && |s.trails| == |s.tables.remittances|
    ensures
      var s' := Apply(p, s, step);
      && s'.tables.books.balances == s.tables.books.balances
      && |s.tables.remittances| <= |s'.tables.remittances| == |s'.trails|
      && |s.tables.cashOuts| == |s'.tables.cashOuts|
  {
    if step.Commit? {
      QuietCommitMovesNoTokens(p, s, step.q);
    }
    hide CommitStep;
  }

  lemma QuietCommitMovesNoTokens(p: Limits.Policy, s: State, q: RequestId)
    requires !MovesTokens(s, Commit(q)) && |s.trails| == |s.tables.remittances|
    ensures
      var s' := CommitStep(p, s, q);
      && s'.tables.books.balances == s.tables.books.balances
      && |s.tables.remittances| <= |s'.tables.remittances| == |s'.trails|
      && |s.tables.cashOuts| == |s'.tables.cashOuts|
  {
  }

  lemma QuietStepKeepsCredit(p: Limits.Policy, s: State, step: Step, id: RemittanceId)
    requires !step.CommitSuccess? && |s.trails| == |s.tables.remittances|
    requires IsRemittance(Apply(p, s, step), id)
    ensures
      var s' := Apply(p, s, step);
      if IsRemittance(s, id) then
        s'.trails[id].credited == s.trails[id].credited
        && s'.tables.remittances[id].uctusd == s.tables.remittances[id].uctusd
      else !s'.trails[id].credited
  {
    if IsRemittance(s, id) && Target(s, step) != Some(id) {
      OtherRemittancesUntouched(p, s, step, id);
    } else {
      NewRowsComeFromRequests(p, s, step);
      if step.Commit? {
        QuietCommitKeepsCredit(p, s, step.q, id);
      }
    }
    hide CommitStep;
  }

  lemma QuietCommitKeepsCredit(p: Limits.Policy, s: State, q: RequestId, id: RemittanceId)
    requires |s.trails| == |s.tables.remittances| && IsRemittance(CommitStep(p, s, q), id)
    ensures
      var s' := CommitStep(p, s, q);
      if IsRemittance(s, id) then
        s'.trails[id].credited == s.trails[id].credited
        && s'.tables.remittances[id].uctusd == s.tables.remittances[id].uctusd
      else !s'.trails[id].credited
  {
  }

  lemma QuietStepKeepsReserve(p: Limits.Policy, s: State, step: Step, c: CashOutId)
    requires !MovesTokens(s, step) && IsCashOut(s, c) && CashOutChecksPass(p, s, step)
    ensures
      var s' := Apply(p, s, step);
      IsCashOut(s', c) && Reserve(s'.tables.cashOuts[c]) == Reserve(s.tables.cashOuts[c])
  {
    if CashOutTarget(s, step) != Some(c) {
      OtherCashOutsUntouched(p, s, step, c);
    }
  }

  lemma SumOfExtension(xs: seq<int>, ys: seq<int>)
    requires |xs| <= |ys|
    requires forall i :: 0 <= i < |ys| ==> ys[i] == if i < |xs| then xs[i] else 0
    ensures Sum(ys) == Sum(xs)
  {
  }

  lemma CreditsKeepTheirSum(p: Limits.Policy, s: State, step: Step)
    requires Sound(s) && !step.CommitSuccess?
    requires |s.trails| == |s.tables.remittances|
    ensures
      var s' := Apply(p, s, step);
      && |s'.trails| == |s'.tables.remittances|
      && Sum(Credits(s'.tables.remittances, s'.trails)) == Sum(Credits(s.tables.remittances, s.trails))
  {
    var s' := Apply(p, s, step);
    StepIsSound(p, s, step);
    assert |s'.trails| == |s'.tables.remittances| && |s.trails| <= |s'.trails|;
    hide Sound, Apply;
    forall id: nat | id < |s'.trails|
      ensures if id < |s.trails| then
                s'.trails[id].credited == s.trails[id].credited
                && s'.tables.remittances[id].uctusd == s.tables.remittances[id].uctusd
              else !s'.trails[id].credited
    {
      QuietStepKeepsCredit(p, s, step, id);
    }
    SumOfExtension(Credits(s.tables.remittances, s.trails), Credits(s'.tables.remittances, s'.trails));
  }

  lemma QuietStepConserves(p: Limits.Policy, s: State, step: Step)
    requires Sound(s) && Conserved(s) && !MovesTokens(s, step) && CashOutChecksPass(p, s, step)
    ensures Conserved(Apply(p, s, step))
  {
    var s' := Apply(p, s, step);
    QuietStepMovesNoTokens(p, s, step);
    CreditsKeepTheirSum(p, s, step);
    assert |s.burns| == |s.tables.cashOuts|;
    hide Sound, Apply;
    forall c: nat | c < |s.tables.cashOuts|
      ensures Reserve(s'.tables.cashOuts[c]) == Reserve(s.tables.cashOuts[c])
    {
      QuietStepKeepsReserve(p, s, step, c);
    }
    assert Reserves(s'.tables.cashOuts) == Reserves(s.tables.cashOuts);
  }

  // -- the steps that move tokens --------------------------------------------------------------

  lemma SuccessConserves(s: State, h: HandlerId)
    requires Sound(s) && Conserved(s)
    ensures Conserved(CommitSuccessStep(s, h))
  {
    var s' := CommitSuccessStep(s, h);
    if Settles(s, h) && s.handlers[h].phase.Paid? && s'.tables != s.tables {
      var id, loaded := RemittanceOf(s, h), s.handlers[h].phase.loaded;
      RecordSuccessIsSafe(s.tables, id, loaded);
      assert TrailSound(s, id);
      var credit := CreditEntry(s.tables, id);
      PostMovesTotal(s.tables.books, credit, UCTUSD);
      assert s'.tables.books.balances == Post(s.tables.books, credit).value.balances;
      var xs := Credits(s.tables.remittances, s.trails);
      assert Credits(s'.tables.remittances, s'.trails) == xs[id := credit.amount];
      SumUpdate(xs, id, credit.amount);
    }
    hide Sound;
  }

  /** A payout is in another currency, so it moves no tokens at all. */
  lemma CompletionConserves(s: State, h: HandlerId, c: CashOutId)
    requires Sound(s) && Conserved(s) && IsBurning(s, h, c) && !s.tables.cashOuts[c].status.Failed?
    ensures Conserved(CommitBurnStep(s, h))
  {
    var s' := CommitBurnStep(s, h);
    assert CashOutPriced(s.tables.cashOuts[c]);
    if s.handlers[h].phase.BurnLanded? && CompleteCashOut(s.tables, c).Ok? {
      PostMovesTotal(s.tables.books, PayoutEntry(s.tables, c), UCTUSD);
      assert Reserves(s'.tables.cashOuts) == Reserves(s.tables.cashOuts);
    }
    hide Sound;
  }

  lemma ReversalConserves(s: State, c: CashOutId)
    requires Sound(s) && Conserved(s) && IsCashOut(s, c) && !s.tables.cashOuts[c].status.Failed?
    ensures FailCashOut(s.tables, c).Ok? && Conserved(Reversed(s, c))
  {
    FailCashOutIsSafe(s.tables, c);
    var s' := Reversed(s, c);
    PostMovesTotal(s.tables.books, ReversalEntry(s.tables, c), UCTUSD);
    var xs := Reserves(s.tables.cashOuts);
    assert Reserves(s'.tables.cashOuts) == xs[c := 0];
    SumUpdate(xs, c, 0);
    hide Sound;
  }

  lemma OpeningConserves(p: Limits.Policy, s: State, q: RequestId)
    requires Sound(s) && Conserved(s) && q in s.requests && s.requests[q].CashingOut?
    ensures Conserved(CommitStep(p, s, q))
  {
    var r, s' := s.requests[q], CommitStep(p, s, q);
    if OpenCashOut(s.tables, r.user, r.price, r.key).Ok? {
      var debit := DebitEntry(r.user, r.price.gross, |s.tables.cashOuts|);
      PostMovesTotal(s.tables.books, debit, UCTUSD);
      var xs := Reserves(s.tables.cashOuts);
      assert Reserves(s'.tables.cashOuts) == xs + [r.price.gross];
      SumAppend(xs, r.price.gross);
    }
    hide Sound;
  }

  lemma StepConserves(p: Limits.Policy, s: State, step: Step, honest: bool)
    requires Sound(s) && Conserved(s) && AllOrNothing(s, honest) && CashOutChecksPass(p, s, step)
    ensures Conserved(Apply(p, s, step))
  {
    if !MovesTokens(s, step) {
      QuietStepConserves(p, s, step);
    } else if step.CommitSuccess? {
      SuccessConserves(s, step.h);
    } else if step.CommitBurn? {
      if Burns(s, step.h) && s.handlers[step.h].phase.BurnLanded? {
        assert BurnerSteady(s, step.h, CashOutOf(s, step.h), honest);
        CompletionConserves(s, step.h, CashOutOf(s, step.h));
      }
    } else if step.CommitReversal? {
      if Burns(s, step.h) && s.tables.cashOuts[CashOutOf(s, step.h)].status.Processing? {
        ReversalConserves(s, CashOutOf(s, step.h));
      }
    } else if s.requests[step.q].CashingOut? {
      OpeningConserves(p, s, step.q);
    } else {
      ReversalConserves(s, s.requests[step.q].cashOut);
    }
    hide Sound, AllOrNothing, Credits, Reserves;
  }

  // -- the pool's own history ---------------------------------------------------------------------

  ghost function Payments(rows: seq<Remittance>, trails: seq<Trail>): seq<int>
    requires |rows| == |trails|
  {
    seq(|rows|, i requires 0 <= i < |rows| => trails[i].landed * rows[i].uctusd)
  }

  ghost function Burnings(rows: seq<CashOut>, burns: seq<BurnTrail>): seq<int>
    requires |rows| == |burns|
  {
    seq(|rows|, i requires 0 <= i < |rows| => burns[i].landed * rows[i].net)
  }

  ghost predicate Tallied(s: State, opening: int) {
    && |s.trails| == |s.tables.remittances| && |s.burns| == |s.tables.cashOuts|
    && s.pool == opening + Sum(Payments(s.tables.remittances, s.trails)) - Sum(Burnings(s.tables.cashOuts, s.burns))
  }

  lemma PaymentTallies(s: State, h: HandlerId, reply: Reply, opening: int)
    requires Tallied(s, opening)
    ensures Tallied(PayStep(s, h, reply), opening)
  {
    var s' := PayStep(s, h, reply);
    if s' != s {
      var id := RemittanceOf(s, h);
      var xs, u := Payments(s.tables.remittances, s.trails), s.tables.remittances[id].uctusd;
      Distribute(s.trails[id].landed, Landed(reply), u);
      assert Payments(s'.tables.remittances, s'.trails) == xs[id := (s.trails[id].landed + Landed(reply)) * u];
      SumUpdate(xs, id, (s.trails[id].landed + Landed(reply)) * u);
    }
  }

  lemma BurnTallies(s: State, h: HandlerId, reply: Reply, opening: int)
    requires Tallied(s, opening)
    ensures Tallied(BurnStep(s, h, reply), opening)
  {
    var s' := BurnStep(s, h, reply);
    if s' != s {
      var c := CashOutOf(s, h);
      var xs, n := Burnings(s.tables.cashOuts, s.burns), s.tables.cashOuts[c].net;
      Distribute(s.burns[c].landed, Landed(reply), n);
      assert Burnings(s'.tables.cashOuts, s'.burns) == xs[c := (s.burns[c].landed + Landed(reply)) * n];
      SumUpdate(xs, c, (s.burns[c].landed + Landed(reply)) * n);
    }
  }

  /** No other step submits anything. */
  lemma OthersSubmitNothing(p: Limits.Policy, s: State, step: Step)
    requires !step.Pay? && !step.Burn? && |s.trails| == |s.tables.remittances| && |s.burns| == |s.tables.cashOuts|
    ensures
      var s' := Apply(p, s, step);
      && s'.pool == s.pool
      && (forall id: nat :: IsRemittance(s', id) ==>
            if IsRemittance(s, id) then s'.trails[id].landed == s.trails[id].landed else s'.trails[id].landed == 0)
      && (forall c: nat :: IsCashOut(s', c) ==>
            if IsCashOut(s, c) then s'.burns[c].landed == s.burns[c].landed else s'.burns[c].landed == 0)
  {
    if step.Commit? {
      CommitTouchesNoHandler(p, s, step.q);
      CommitSubmitsNothing(p, s, step.q);
    }
    hide CommitStep;
  }

  lemma CommitSubmitsNothing(p: Limits.Policy, s: State, q: RequestId)
    requires |s.trails| == |s.tables.remittances| && |s.burns| == |s.tables.cashOuts|
    ensures
      var s' := CommitStep(p, s, q);
      && (forall id: nat :: IsRemittance(s', id) ==>
            if IsRemittance(s, id) then s'.trails[id].landed == s.trails[id].landed else s'.trails[id].landed == 0)
      && (forall c: nat :: IsCashOut(s', c) ==>
            if IsCashOut(s, c) then s'.burns[c].landed == s.burns[c].landed else s'.burns[c].landed == 0)
  {
  }

  lemma StepTallies(p: Limits.Policy, s: State, step: Step, opening: int)
    requires Sound(s) && Tallied(s, opening)
    ensures Tallied(Apply(p, s, step), opening)
  {
    var s' := Apply(p, s, step);
    StepIsSound(p, s, step);
    if step.Pay? {
      PaymentTallies(s, step.h, step.reply, opening);
    } else if step.Burn? {
      BurnTallies(s, step.h, step.reply, opening);
    } else {
      OthersSubmitNothing(p, s, step);
      QuietTally(s, s', opening);
    }
    hide Sound, Apply, PayStep, BurnStep, Tallied;
  }

  lemma QuietTally(s: State, s': State, opening: int)
    requires Sound(s) && Sound(s') && Grows(s, s') && Tallied(s, opening) && s'.pool == s.pool
    requires forall id: nat :: IsRemittance(s', id) ==>
               if IsRemittance(s, id) then s'.trails[id].landed == s.trails[id].landed else s'.trails[id].landed == 0
    requires forall c: nat :: IsCashOut(s', c) ==>
               if IsCashOut(s, c) then s'.burns[c].landed == s.burns[c].landed else s'.burns[c].landed == 0
    ensures Tallied(s', opening)
  {
    var rows, rows', outs, outs' := s.tables.remittances, s'.tables.remittances, s.tables.cashOuts, s'.tables.cashOuts;
    forall id: nat | id < |rows'|
      ensures s'.trails[id].landed * rows'[id].uctusd ==
              if id < |rows| then s.trails[id].landed * rows[id].uctusd else 0
    {
      assert IsRemittance(s', id);
    }
    forall c: nat | c < |outs'|
      ensures s'.burns[c].landed * outs'[c].net == if c < |outs| then s.burns[c].landed * outs[c].net else 0
    {
      assert IsCashOut(s', c);
    }
    hide Sound, Grows;
    SumOfExtension(Payments(rows, s.trails), Payments(rows', s'.trails));
    SumOfExtension(Burnings(outs, s.burns), Burnings(outs', s'.burns));
  }

  // -- the equation ---------------------------------------------------------------------------------

  /** Reserved for a cash-out that has not been burned. */
  function Unburned(row: CashOut, burn: BurnTrail): int {
    if row.status.Failed? || burn.landed > 0 then 0 else row.gross as int
  }

  /** Kept by the platform from a cash-out that has. */
  function FeeKept(row: CashOut, burn: BurnTrail): int {
    if burn.landed > 0 && !row.status.Failed? then row.fee as int else 0
  }

  /** Burned for a cash-out that was refunded all the same. */
  function Lost(row: CashOut, burn: BurnTrail): int {
    if burn.landed > 0 && row.status.Failed? then row.net as int else 0
  }

  /** Paid into the pool for a remittance and credited to nobody. */
  function Unrecorded(row: Remittance, trail: Trail): int {
    (trail.landed - (if trail.credited then 1 else 0)) * row.uctusd
  }

  ghost function OpenCashOuts(s: State): seq<int>
    requires |s.burns| == |s.tables.cashOuts|
  {
    seq(|s.burns|, c requires 0 <= c < |s.burns| => Unburned(s.tables.cashOuts[c], s.burns[c]))
  }

  ghost function FeesKept(s: State): seq<int>
    requires |s.burns| == |s.tables.cashOuts|
  {
    seq(|s.burns|, c requires 0 <= c < |s.burns| => FeeKept(s.tables.cashOuts[c], s.burns[c]))
  }

  ghost function LostTokens(s: State): seq<int>
    requires |s.burns| == |s.tables.cashOuts|
  {
    seq(|s.burns|, c requires 0 <= c < |s.burns| => Lost(s.tables.cashOuts[c], s.burns[c]))
  }

  ghost function UnrecordedPayments(s: State): seq<int>
    requires |s.trails| == |s.tables.remittances|
  {
    seq(|s.trails|, i requires 0 <= i < |s.trails| => Unrecorded(s.tables.remittances[i], s.trails[i]))
  }

  /** Each cash-out's reserve, less what was burned for it, is still open, or a fee, or lost. */
  lemma ReserveSplits(s: State, honest: bool)
    requires Sound(s) && AllOrNothing(s, honest)
    ensures Sum(Reserves(s.tables.cashOuts)) + Sum(LostTokens(s)) ==
            Sum(Burnings(s.tables.cashOuts, s.burns)) + Sum(OpenCashOuts(s)) + Sum(FeesKept(s))
  {
    var rows, burns := s.tables.cashOuts, s.burns;
    forall c: nat | c < |burns|
      ensures Reserve(rows[c]) + Lost(rows[c], burns[c])
              == burns[c].landed * rows[c].net + Unburned(rows[c], burns[c]) + FeeKept(rows[c], burns[c])
    {
      assert IsCashOut(s, c) && Burnt(s, c, honest) && CashOutPriced(rows[c]);
      hide Sound, AllOrNothing;
    }
    assert |burns| == |rows|;
    hide Sound, AllOrNothing;
    var kept := seq(|burns|, c requires 0 <= c < |burns| => Unburned(rows[c], burns[c]) + FeeKept(rows[c], burns[c]));
    var all := seq(|burns|, c requires 0 <= c < |burns| => Reserve(rows[c]) + Lost(rows[c], burns[c]));
    SumAdd(OpenCashOuts(s), FeesKept(s), kept);
    SumAdd(Burnings(rows, burns), kept, all);
    SumAdd(Reserves(rows), LostTokens(s), all);
  }

  /** Nothing is lost by burns that land only when they say so. */
  lemma HonestBurnsLoseNothing(s: State)
    requires Sound(s) && AllOrNothing(s, true)
    ensures Sum(LostTokens(s)) == 0
  {
    assert |s.burns| == |s.tables.cashOuts|;
    forall c: nat | c < |s.burns|
      ensures Lost(s.tables.cashOuts[c], s.burns[c]) == 0
    {
      assert IsCashOut(s, c) && Burnt(s, c, true);
    }
    hide Sound, AllOrNothing;
    SumNonNegative(LostTokens(s));
  }

  lemma PaymentsSplit(s: State)
    requires Sound(s)
    ensures Sum(Payments(s.tables.remittances, s.trails)) ==
            Sum(Credits(s.tables.remittances, s.trails)) + Sum(UnrecordedPayments(s))
  {
    var rows, trails := s.tables.remittances, s.trails;
    assert |rows| == |trails|;
    hide Sound;
    forall i: nat | i < |rows|
      ensures trails[i].landed * rows[i].uctusd ==
              (if trails[i].credited then rows[i].uctusd as int else 0) + Unrecorded(rows[i], trails[i])
    {
      if trails[i].credited {
        Distribute(trails[i].landed - 1, 1, rows[i].uctusd);
      }
    }
    SumAdd(Credits(rows, trails), UnrecordedPayments(s), Payments(rows, trails));
  }

  ghost predicate Reconciled(s: State, opening: int) {
    && |s.trails| == |s.tables.remittances| && |s.burns| == |s.tables.cashOuts|
    && s.pool - opening + Sum(LostTokens(s)) ==
         TotalHeld(s.tables.books, UCTUSD) + Sum(OpenCashOuts(s)) + Sum(FeesKept(s)) + Sum(UnrecordedPayments(s))
  }

  ghost predicate Balanced(s: State, opening: int, honest: bool) {
    Sound(s) && AllOrNothing(s, honest) && Conserved(s) && Tallied(s, opening)
  }

  lemma {:induction false} RunStaysBalanced(p: Limits.Policy, s: State, steps: seq<Step>, a: Assumed, opening: int)
    requires Balanced(s, opening, a.burns) && Run(p, s, steps, a) && a.cashOutChecks
    ensures Balanced(After(p, s, steps), opening, a.burns)
    decreases |steps|
  {
    if steps != [] {
      hide Sound, AllOrNothing, Conserved, Tallied, Apply, CashOutChecksPass, CommitsInTime,
           RaisedBurnDidNotLand;
      StepIsSound(p, s, steps[0]);
      FreshCommitsAreInTime(p, s, steps[0], a.burns);
      StepStaysAllOrNothing(p, s, steps[0], a.burns);
      StepConserves(p, s, steps[0], a.burns);
      StepTallies(p, s, steps[0], opening);
      RunStaysBalanced(p, Apply(p, s, steps[0]), steps[1..], a, opening);
    }
  }

  lemma InitIsBalanced(pool: int, now: Instant, honest: bool)
    ensures Balanced(Init(pool, now), pool, honest)
  {
  }

  /** What settlements credited is exactly what customers hold plus what unfailed cash-outs reserve. */
  lemma CreditedTokensAreConserved(p: Limits.Policy, pool: int, now: Instant, steps: seq<Step>, a: Assumed)
    requires Run(p, Init(pool, now), steps, a) && a.cashOutChecks
    ensures
      var s := After(p, Init(pool, now), steps);
      && |s.trails| == |s.tables.remittances|
      && (forall id: nat :: id < |s.trails| ==> (s.trails[id].credited <==> IsCredited(s.tables, id)))
      && Sum(Credits(s.tables.remittances, s.trails)) ==
           TotalHeld(s.tables.books, UCTUSD) + Sum(Reserves(s.tables.cashOuts))
  {
    InitIsBalanced(pool, now, a.burns);
    RunStaysBalanced(p, Init(pool, now), steps, a, pool);
    var s := After(p, Init(pool, now), steps);
    forall id: nat | id < |s.trails|
      ensures s.trails[id].credited <==> IsCredited(s.tables, id)
    {
      assert TrailSound(s, id);
    }
  }

  /** The pool's exact reconciliation, whether or not burns that raised had landed. */
  lemma PoolReconcilesExactly(p: Limits.Policy, pool: int, now: Instant, steps: seq<Step>, a: Assumed)
    requires Run(p, Init(pool, now), steps, a) && a.cashOutChecks
    ensures Reconciled(After(p, Init(pool, now), steps), pool)
    ensures a.burns ==> Sum(LostTokens(After(p, Init(pool, now), steps))) == 0
  {
    InitIsBalanced(pool, now, a.burns);
    RunStaysBalanced(p, Init(pool, now), steps, a, pool);
    var s := After(p, Init(pool, now), steps);
    ReserveSplits(s, a.burns);
    PaymentsSplit(s);
    if a.burns {
      HonestBurnsLoseNothing(s);
    }
  }

  lemma ExtrasAreNonNegative(s: State)
    requires Sound(s)
    ensures Sum(OpenCashOuts(s)) >= 0 && Sum(FeesKept(s)) >= 0 && Sum(UnrecordedPayments(s)) >= 0
    ensures Sum(LostTokens(s)) >= 0
    ensures Sum(OpenCashOuts(s)) == 0 <==> forall c :: 0 <= c < |s.burns| ==> OpenCashOuts(s)[c] == 0
    ensures Sum(FeesKept(s)) == 0 <==> forall c :: 0 <= c < |s.burns| ==> FeesKept(s)[c] == 0
    ensures Sum(UnrecordedPayments(s)) == 0 <==> forall i :: 0 <= i < |s.trails| ==> UnrecordedPayments(s)[i] == 0
  {
    forall i: nat | i < |s.trails|
      ensures Unrecorded(s.tables.remittances[i], s.trails[i]) >= 0
    {
      assert TrailSound(s, i);
    }
    assert |s.trails| == |s.tables.remittances| && |s.burns| == |s.tables.cashOuts|;
    hide Sound;
    SumNonNegative(OpenCashOuts(s));
    SumNonNegative(FeesKept(s));
    SumNonNegative(LostTokens(s));
    SumNonNegative(UnrecordedPayments(s));
  }

  /**
   The pool covers every claim on it exactly as long as what it lost to
   refunded burns is no more than what fees and uncredited payments left in.
   */
  lemma PoolCoversClaimsExactlyWhen(p: Limits.Policy, pool: int, now: Instant, steps: seq<Step>, a: Assumed)
    requires Run(p, Init(pool, now), steps, a) && a.cashOutChecks
    ensures
      var s := After(p, Init(pool, now), steps);
      && |s.trails| == |s.tables.remittances| && |s.burns| == |s.tables.cashOuts|
      && (s.pool - pool >= TotalHeld(s.tables.books, UCTUSD) + Sum(OpenCashOuts(s)) <==>
            Sum(LostTokens(s)) <= Sum(FeesKept(s)) + Sum(UnrecordedPayments(s)))
      && (forall c :: 0 <= c < |s.burns| ==>
            (LostTokens(s)[c] > 0 <==> s.burns[c].landed == 1 && s.tables.cashOuts[c].status.Failed?))
  {
    PoolReconcilesExactly(p, pool, now, steps, a);
    InitIsBalanced(pool, now, a.burns);
    RunStaysBalanced(p, Init(pool, now), steps, a, pool);
    var s := After(p, Init(pool, now), steps);
    forall c | 0 <= c < |s.burns|
      ensures LostTokens(s)[c] > 0 <==> s.burns[c].landed == 1 && s.tables.cashOuts[c].status.Failed?
    {
      assert IsCashOut(s, c) && Burnt(s, c, a.burns) && CashOutPriced(s.tables.cashOuts[c]);
    }
    hide Sound, AllOrNothing, Run, After;
  }

  /**
   With honest burns the pool always covers every claim on it, and equals
   the balances alone exactly when no cash-out is open, none ever kept a fee, and every payment
   that landed was credited.
   */
  lemma PoolCoversEveryClaim(p: Limits.Policy, pool: int, now: Instant, steps: seq<Step>, a: Assumed)
    requires Run(p, Init(pool, now), steps, a) && a.cashOutChecks && a.burns
    ensures
      var s := After(p, Init(pool, now), steps);
      && |s.trails| == |s.tables.remittances| && |s.burns| == |s.tables.cashOuts|
      && s.pool - pool >= TotalHeld(s.tables.books, UCTUSD) + Sum(OpenCashOuts(s)) >= 0
      && (s.pool - pool == TotalHeld(s.tables.books, UCTUSD) <==>
            && (forall c :: 0 <= c < |s.burns| ==> Unburned(s.tables.cashOuts[c], s.burns[c]) == 0)
            && (forall c :: 0 <= c < |s.burns| ==> FeeKept(s.tables.cashOuts[c], s.burns[c]) == 0)
            && (forall i :: 0 <= i < |s.trails| ==> Unrecorded(s.tables.remittances[i], s.trails[i]) == 0))
  {
    PoolReconcilesExactly(p, pool, now, steps, a);
    InitIsSound(pool, now);
    RunIsSound(p, Init(pool, now), steps);
    var s := After(p, Init(pool, now), steps);
    ExtrasAreNonNegative(s);
    TotalHeldNonNegative(s.tables.books, UCTUSD);
    hide Sound;
    assert forall c :: 0 <= c < |s.burns| ==> OpenCashOuts(s)[c] == Unburned(s.tables.cashOuts[c], s.burns[c]);
    assert forall c :: 0 <= c < |s.burns| ==> FeesKept(s)[c] == FeeKept(s.tables.cashOuts[c], s.burns[c]);
    assert forall i :: 0 <= i < |s.trails| ==>
                         UnrecordedPayments(s)[i] == Unrecorded(s.tables.remittances[i], s.trails[i]);
  }
}
