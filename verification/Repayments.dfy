/** How often a settlement's payment can be repeated by taking over its message. */
module Repayments {
  import opened Wrappers
  import opened Arithmetic
  import opened Schema
  import opened Bookkeeping
  import opened Transactions
  import opened Stream
  import opened Protocol
  import opened TableSafety
  import opened SettlementSafety
  import opened Frames
  import opened Funding
  import opened Recovery
  import opened OneWorker
  import opened Races
  import opened Limits

  // -- a payment whose credit is lost is paid again ---------------------------------------------------

  lemma ReachesOn(p: Limits.Policy, s: State, s1: State, s2: State, a: Assumed)
    requires Reaches(p, s, s1, a) && Reaches(p, s1, s2, a)
    ensures Reaches(p, s, s2, a)
  {
    var first :| Run(p, s, first, a) && After(p, s, first) == s1;
    var second :| Run(p, s1, second, a) && After(p, s1, second) == s2;
    RunConcat(p, s, first, second, a);
    assert Run(p, s, first + second, a);
    hide Run, After;
  }

  lemma ReachesOrderly(p: Limits.Policy, s: State, s': State)
    requires Sound(s) && Recoverable(s) && Reaches(p, s, s', ORDERLY)
    ensures Sound(s') && Recoverable(s')
  {
    var steps :| Run(p, s, steps, ORDERLY) && After(p, s, steps) == s';
    RunStaysRecoverable(p, s, steps, ORDERLY);
    RunIsSound(p, s, steps);
    hide *;
  }

  lemma PaidOnceMore(s: State, h: HandlerId, id: RemittanceId)
    requires InPhase(s, h, Waiting) && s.handlers[h].reclaimed && Settles(s, h) && RemittanceOf(s, h) == id
    requires StatusOf(s, id).Settling?
    ensures
      var s' := PayStep(ResolveStep(ClaimStep(s, h), h, Resolved), h, Validated);
      && IsRemittance(s', id) && StatusOf(s', id).Settling? && s'.tables.books == s.tables.books
      && s'.trails[id].landed == s.trails[id].landed + 1
  {
  }

  lemma TakeOverSettling(p: Limits.Policy, s: State, id: RemittanceId) returns (s1: State, h: HandlerId)
    requires Sound(s) && Recoverable(s) && IsRemittance(s, id) && StatusOf(s, id).Settling?
    ensures Reaches(p, s, s1, ORDERLY) && s1.tables == s.tables && s1.trails == s.trails
    ensures InPhase(s1, h, Waiting) && s1.handlers[h].reclaimed && Settles(s1, h) && RemittanceOf(s1, h) == id
  {
    assert RowRecoverable(s, id) && TrailSound(s, id) && OneHandlerPerMessage(s);
    hide Sound, Recoverable, OneHandlerPerMessage, Run, After;
    var steps;
    steps, h := TakeOver(p, s, s.trails[id].lastClaim.value);
    s1 := After(p, s, steps);
  }

  /** Takes over the message of an unfinished settlement and pays, and again leaves the credit unwritten. */
  lemma PayOnceMore(p: Limits.Policy, s: State, id: RemittanceId) returns (s': State)
    requires Sound(s) && Recoverable(s) && IsRemittance(s, id) && StatusOf(s, id).Settling?
    ensures Reaches(p, s, s', ORDERLY)
    ensures IsRemittance(s', id) && StatusOf(s', id).Settling? && s'.tables.books == s.tables.books
    ensures s'.trails[id].landed == s.trails[id].landed + 1
  {
    hide Reaches, Permitted, Sound, Recoverable, ClaimStep, ResolveStep, PayStep;
    var s1, h := TakeOverSettling(p, s, id);
    PaidOnceMore(s1, h, id);
    var s2 := ClaimStep(s1, h);
    var s3 := ResolveStep(s2, h, Resolved);
    s' := PayStep(s3, h, Validated);
    assert Apply(p, s1, Claim(h)) == s2 && Apply(p, s2, Resolve(h, Resolved)) == s3;
    assert Apply(p, s3, Pay(h, Validated)) == s';
    hide Apply;
    Orderly(p, s1, Claim(h));
    Next(p, s, s1, Claim(h), ORDERLY);
    Orderly(p, s2, Resolve(h, Resolved));
    Next(p, s, s2, Resolve(h, Resolved), ORDERLY);
    Orderly(p, s3, Pay(h, Validated));
    Next(p, s, s3, Pay(h, Validated), ORDERLY);
  }

  /**
   However clean the handovers, a settlement that keeps being interrupted
   between payment and ledger write is paid any number of times over: the
   takeovers in the submission bound cannot be dropped.
   */
  lemma {:induction false} PaymentsAreUnbounded(p: Limits.Policy, s: State, id: RemittanceId, n: nat)
    requires Sound(s) && Recoverable(s) && IsRemittance(s, id) && StatusOf(s, id).Settling?
    ensures exists s' ::
              && Reaches(p, s, s', ORDERLY) && IsRemittance(s', id) && StatusOf(s', id).Settling?
              && s'.tables.books == s.tables.books && s'.trails[id].landed == s.trails[id].landed + n
    decreases n
  {
    hide Reaches, Sound, Recoverable;
    if n == 0 {
      ReachesItself(p, s, ORDERLY);
    } else {
      var s1 := PayOnceMore(p, s, id);
      ReachesOrderly(p, s, s1);
      PaymentsAreUnbounded(p, s1, id, n - 1);
      var s' :| && Reaches(p, s1, s', ORDERLY) && IsRemittance(s', id) && StatusOf(s', id).Settling?
                && s'.tables.books == s1.tables.books && s'.trails[id].landed == s1.trails[id].landed + (n - 1);
      ReachesOn(p, s, s1, s', ORDERLY);
    }
  }

  // -- a credited remittance that is claimed again is paid for good -----------------------------------

  /** One takeover, handled without interruption, whose payment validates. */
  function Takeover(h: HandlerId, e: EntryId): seq<Step> {
    [Reclaim(h, e, "worker"), Claim(h), Resolve(h, Resolved), Pay(h, Validated), CommitSuccess(h)]
  }

  function Takeovers(h: HandlerId, e: EntryId, n: nat): seq<Step> {
    if n == 0 then [] else Takeover(h, e) + Takeovers(h, e, n - 1)
  }

  /** SETTLING although already credited, with an unacked message nobody is handling. */
  ghost predicate CreditedButSettling(s: State, id: RemittanceId, e: EntryId) {
    && IsRemittance(s, id) && StatusOf(s, id).Settling? && IsCredited(s.tables, id)
    && e in s.stream.pending && e < |s.stream.messages| && s.stream.messages[e] == SettleRemittance(id)
    && forall g :: g in s.handlers ==> s.handlers[g].entry != e
  }

  /** One payment more, and nothing else: the credit is refused and the message stays unacked. */
  ghost predicate OnlyPaidAgain(s: State, s': State, id: RemittanceId, e: EntryId, n: nat) {
    && CreditedButSettling(s', id, e) && s'.tables == s.tables && s'.handlers == s.handlers
    && s'.stream.messages == s.stream.messages && s'.stream.pending.Keys == s.stream.pending.Keys
    && IsRemittance(s, id)
    && s'.trails[id].submitted == s.trails[id].submitted + n && s'.trails[id].landed == s.trails[id].landed + n
    && s'.pool == s.pool + n * s.tables.remittances[id].uctusd
  }

  lemma ClaimedAgain(s: State, id: RemittanceId, e: EntryId, h: HandlerId)
    requires CreditedButSettling(s, id, e) && h !in s.handlers
    ensures
      var s1 := ReclaimStep(s, h, e, "worker");
      var s2 := ClaimStep(s1, h);
      && s2.tables == s.tables && s2.handlers == s.handlers[h := Handler(e, true, Claimed)] && s2.pool == s.pool
      && Settles(s2, h) && RemittanceOf(s2, h) == id
      && s2.stream == Reassigned(s.stream, e, "worker")
      && s2.trails[id].submitted == s.trails[id].submitted && s2.trails[id].landed == s.trails[id].landed
  {
    assert WithStatus(s.tables, id, Settling) == s.tables by {
      assert s.tables.remittances[id := s.tables.remittances[id].(status := Settling)] == s.tables.remittances;
    }
  }

  lemma PaidButNotRecorded(s: State, id: RemittanceId, h: HandlerId)
    requires Settles(s, h) && RemittanceOf(s, h) == id && InPhase(s, h, Claimed) && IsCredited(s.tables, id)
    ensures
      var s' := CommitSuccessStep(PayStep(ResolveStep(s, h, Resolved), h, Validated), h);
      && s'.tables == s.tables && s'.stream == s.stream && s'.handlers == s.handlers - {h}
      && IsRemittance(s', id) && s'.pool == s.pool + s.tables.remittances[id].uctusd
      && s'.trails[id].submitted == s.trails[id].submitted + 1 && s'.trails[id].landed == s.trails[id].landed + 1
  {
  }

  lemma OnePaymentMore(s: State, id: RemittanceId, e: EntryId, h: HandlerId)
    requires CreditedButSettling(s, id, e) && h !in s.handlers
    ensures
      var s2 := ClaimStep(ReclaimStep(s, h, e, "worker"), h);
      OnlyPaidAgain(s, CommitSuccessStep(PayStep(ResolveStep(s2, h, Resolved), h, Validated), h), id, e, 1)
  {
    hide ReclaimStep, ClaimStep, ResolveStep, PayStep, CommitSuccessStep;
    ClaimedAgain(s, id, e, h);
    var s2 := ClaimStep(ReclaimStep(s, h, e, "worker"), h);
    PaidButNotRecorded(s2, id, h);
    assert s2.handlers - {h} == s.handlers;
  }

  lemma PaidAgain(p: Limits.Policy, s: State, id: RemittanceId, e: EntryId, h: HandlerId)
    requires CreditedButSettling(s, id, e) && h !in s.handlers
    ensures Run(p, s, Takeover(h, e), ORDERLY) && OnlyPaidAgain(s, After(p, s, Takeover(h, e)), id, e, 1)
  {
    hide Run, After, Permitted, OnlyPaidAgain, ReclaimStep, ClaimStep, ResolveStep, PayStep, CommitSuccessStep;
    OnePaymentMore(s, id, e, h);
    var s1 := ReclaimStep(s, h, e, "worker");
    var s2 := ClaimStep(s1, h);
    var s3 := ResolveStep(s2, h, Resolved);
    var s4 := PayStep(s3, h, Validated);
    assert Apply(p, s, Reclaim(h, e, "worker")) == s1 && Apply(p, s1, Claim(h)) == s2;
    assert Apply(p, s2, Resolve(h, Resolved)) == s3 && Apply(p, s3, Pay(h, Validated)) == s4;
    assert Apply(p, s4, CommitSuccess(h)) == CommitSuccessStep(s4, h);
    hide Apply;
    Orderly(p, s, Reclaim(h, e, "worker"));
    Orderly(p, s1, Claim(h));
    Orderly(p, s2, Resolve(h, Resolved));
    Orderly(p, s3, Pay(h, Validated));
    Orderly(p, s4, CommitSuccess(h));
    FiveSteps(p, s, s1, s2, s3, s4, Takeover(h, e));
  }

  lemma FiveSteps(p: Limits.Policy, s: State, s1: State, s2: State, s3: State, s4: State, steps: seq<Step>)
    requires |steps| == 5
    requires Permitted(p, s, steps[0], ORDERLY) && Apply(p, s, steps[0]) == s1
    requires Permitted(p, s1, steps[1], ORDERLY) && Apply(p, s1, steps[1]) == s2
    requires Permitted(p, s2, steps[2], ORDERLY) && Apply(p, s2, steps[2]) == s3
    requires Permitted(p, s3, steps[3], ORDERLY) && Apply(p, s3, steps[3]) == s4
    requires Permitted(p, s4, steps[4], ORDERLY)
    ensures Run(p, s, steps, ORDERLY) && After(p, s, steps) == Apply(p, s4, steps[4])
  {
    hide Permitted, Apply;
    assert steps[1..][1..] == steps[2..] && steps[2..][1..] == steps[3..] && steps[3..][1..] == steps[4..];
    assert steps[4..] == [steps[4]];
    SingleStep(p, s4, steps[4], ORDERLY);
    assert Run(p, s3, steps[3..], ORDERLY) && After(p, s3, steps[3..]) == Apply(p, s4, steps[4]);
    assert Run(p, s2, steps[2..], ORDERLY) && After(p, s2, steps[2..]) == Apply(p, s4, steps[4]);
    assert Run(p, s1, steps[1..], ORDERLY) && After(p, s1, steps[1..]) == Apply(p, s4, steps[4]);
  }

  lemma NothingPaid(p: Limits.Policy, s: State, id: RemittanceId, e: EntryId)
    requires CreditedButSettling(s, id, e)
    ensures Run(p, s, [], ORDERLY) && OnlyPaidAgain(s, After(p, s, []), id, e, 0)
  {
  }

  lemma OnceMore(s: State, s1: State, s': State, id: RemittanceId, e: EntryId, n: nat)
    requires OnlyPaidAgain(s, s1, id, e, 1) && OnlyPaidAgain(s1, s', id, e, n)
    ensures OnlyPaidAgain(s, s', id, e, n + 1)
  {
    Distribute(n, 1, s.tables.remittances[id].uctusd);
  }

  /**
   Once a credited remittance is claimed again, every takeover that pays
   pays once more, for any number of takeovers and with nobody interrupted:
   the unique key refuses the credit each time, so the message is never
   acked that way.
   */
  lemma {:induction false} CreditedIsPaidAtEveryTakeover(
    p: Limits.Policy, s: State, id: RemittanceId, e: EntryId, h: HandlerId, n: nat)
    requires CreditedButSettling(s, id, e) && h !in s.handlers
    ensures Run(p, s, Takeovers(h, e, n), ORDERLY)
    ensures OnlyPaidAgain(s, After(p, s, Takeovers(h, e, n)), id, e, n)
    decreases n
  {
    if n == 0 {
      NothingPaid(p, s, id, e);
    } else {
      hide Run, After, CreditedButSettling, Takeover;
      PaidAgain(p, s, id, e, h);
      var s1 := After(p, s, Takeover(h, e));
      CreditedIsPaidAtEveryTakeover(p, s1, id, e, h, n - 1);
      RunConcat(p, s, Takeover(h, e), Takeovers(h, e, n - 1), ORDERLY);
      OnceMore(s, s1, After(p, s1, Takeovers(h, e, n - 1)), id, e, n - 1);
    }
  }
}
