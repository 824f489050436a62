/** How often a remittance's payment can be submitted on-chain. */
module Submissions {
  import opened Wrappers
  import opened Schema
  import opened Transactions
  import opened Stream
  import opened Protocol
  import opened SettlementSafety
  import opened Frames
  import opened Funding
  import Limits

  // -- each claim submits once, unless it ended before it could (no assumption) ------------

  /** Handlers that have claimed a remittance and may still submit its payment. */
  ghost function MaySubmit(s: State, id: RemittanceId): set<HandlerId> {
    set h | h in s.handlers && (s.handlers[h].phase.Claimed? || s.handlers[h].phase.Ready?)
            && Settles(s, h) && RemittanceOf(s, h) == id
  }

  /** A claim that ends unsubmitted: a lookup failed, the call never left, or the worker died first. */
  ghost predicate Forgoes(s: State, step: Step, id: RemittanceId) {
    || (step.Resolve? && step.h in MaySubmit(s, id) && s.handlers[step.h].phase.Claimed? && !step.resolution.Resolved?)
    || (step.Pay? && step.h in MaySubmit(s, id) && s.handlers[step.h].phase.Ready? && step.reply.NotSubmitted?)
    || (step.Crash? && step.h in MaySubmit(s, id))
  }

  ghost function Forgone(p: Limits.Policy, s: State, steps: seq<Step>, id: RemittanceId): nat
    decreases |steps|
  {
    if steps == [] then 0
    else One(Forgoes(s, steps[0], id)) + Forgone(p, Apply(p, s, steps[0]), steps[1..], id)
  }

  ghost function One(b: bool): nat {
    if b then 1 else 0
  }

  function TrailOf(s: State, id: RemittanceId): Trail {
    if IsRemittance(s, id) then s.trails[id] else NEW_TRAIL
  }

  /** Claims, less what became of them. */
  ghost function Outstanding(s: State, id: RemittanceId): int {
    TrailOf(s, id).freshClaims + TrailOf(s, id).reclaims - TrailOf(s, id).submitted - |MaySubmit(s, id)|
  }

  lemma BystandersMaySubmitAlike(p: Limits.Policy, s: State, step: Step, id: RemittanceId, h: HandlerId)
    requires Sound(s) && Actor(step) != Some(h)
    ensures h in MaySubmit(Apply(p, s, step), id) <==> h in MaySubmit(s, id)
  {
    OtherHandlersUntouched(p, s, step, h);
    HandlersMeanTheSame(p, s, step, h);
    hide Sound, Apply;
  }

  /** A handler that stays keeps its message, and the message its remittance. */
  lemma HandlersMeanTheSame(p: Limits.Policy, s: State, step: Step, h: HandlerId)
    requires Sound(s)
    ensures
      var s' := Apply(p, s, step);
      h in s.handlers && h in s'.handlers ==>
        && (Settles(s', h) <==> Settles(s, h))
        && (Settles(s, h) ==> RemittanceOf(s', h) == RemittanceOf(s, h))
  {
    var s' := Apply(p, s, step);
    if h in s.handlers && h in s'.handlers {
      HandlersKeepTheirEntry(p, s, step, h);
      StreamMovesOnlyBy(p, s, step);
      StepIsSound(p, s, step);
      HandlerIsSound(s, h);
      assert MessageOf(s', h) == MessageOf(s, h);
      assert MessageKnown(s, MessageOf(s, h)) && MessageKnown(s', MessageOf(s', h));
    }
    hide Sound, Apply;
  }

  /** What one handler's part in a remittance's account comes to. */
  ghost function Share(s: State, id: RemittanceId, h: HandlerId): int {
    TrailOf(s, id).freshClaims + TrailOf(s, id).reclaims - TrailOf(s, id).submitted - One(h in MaySubmit(s, id))
  }

  lemma ClaimAccounts(s: State, h: HandlerId, id: RemittanceId)
    requires |s.trails| == |s.tables.remittances|
    ensures Share(ClaimStep(s, h), id, h) == Share(s, id, h)
  {
  }

  lemma PaymentAccounts(s: State, h: HandlerId, reply: Reply, id: RemittanceId)
    requires |s.trails| == |s.tables.remittances|
    ensures Share(PayStep(s, h, reply), id, h) == Share(s, id, h) + One(Forgoes(s, Pay(h, reply), id))
  {
  }

  lemma LookupAccounts(s: State, h: HandlerId, r: Resolution, id: RemittanceId)
    ensures Share(ResolveStep(s, h, r), id, h) == Share(s, id, h) + One(Forgoes(s, Resolve(h, r), id))
  {
  }

  lemma OtherStepsAccount(p: Limits.Policy, s: State, step: Step, id: RemittanceId, h: HandlerId)
    requires Actor(step) == Some(h) && !step.Claim? && !step.Pay? && !step.Resolve?
    requires |s.trails| == |s.tables.remittances|
    requires h !in s.handlers ==> h !in MaySubmit(Apply(p, s, step), id)
    ensures Share(Apply(p, s, step), id, h) == Share(s, id, h) + One(Forgoes(s, step, id))
  {
    hide ClaimStep, PayStep, ResolveStep, CommitStep;
  }

  /** A handler's own step spends a claim only where the account says so. */
  lemma ActorAccounts(p: Limits.Policy, s: State, step: Step, id: RemittanceId, h: HandlerId)
    requires Actor(step) == Some(h) && |s.trails| == |s.tables.remittances|
    requires h !in s.handlers ==> h !in MaySubmit(Apply(p, s, step), id)
    ensures Share(Apply(p, s, step), id, h) == Share(s, id, h) + One(Forgoes(s, step, id))
  {
    if step.Claim? {
      ClaimAccounts(s, h, id);
    } else if step.Pay? {
      PaymentAccounts(s, h, step.reply, id);
    } else if step.Resolve? {
      LookupAccounts(s, h, step.resolution, id);
    } else {
      OtherStepsAccount(p, s, step, id, h);
      hide Apply;
    }
    hide Share, ClaimStep, PayStep, ResolveStep;
  }

  lemma NobodyAccounts(p: Limits.Policy, s: State, step: Step, id: RemittanceId)
    requires Actor(step) == None && |s.trails| == |s.tables.remittances|
    ensures
      var t, t' := TrailOf(s, id), TrailOf(Apply(p, s, step), id);
      t'.freshClaims == t.freshClaims && t'.reclaims == t.reclaims && t'.submitted == t.submitted
    ensures !Forgoes(s, step, id)
  {
  }

  lemma SameButForOne(a: set<HandlerId>, b: set<HandlerId>, h: HandlerId)
    requires forall g: HandlerId :: g != h ==> (g in a <==> g in b)
    ensures |a| - One(h in a) == |b| - One(h in b)
  {
    assert a - {h} == b - {h};
    assert h in a ==> a == (a - {h}) + {h};
    assert h !in a ==> a == a - {h};
    assert h in b ==> b == (b - {h}) + {h};
    assert h !in b ==> b == b - {h};
  }

  lemma StepAccounts(p: Limits.Policy, s: State, step: Step, id: RemittanceId)
    requires Sound(s)
    ensures Outstanding(Apply(p, s, step), id) == Outstanding(s, id) + One(Forgoes(s, step, id))
  {
    var s' := Apply(p, s, step);
    PartsAreSound(s);
    hide Sound, Apply, MaySubmit, Forgoes;
    forall g: HandlerId | Actor(step) != Some(g)
      ensures g in MaySubmit(s', id) <==> g in MaySubmit(s, id)
    {
      BystandersMaySubmitAlike(p, s, step, id, g);
    }
    match Actor(step)
    case Some(h) =>
      NewHandlersMayNotSubmit(p, s, step, id, h);
      ActorAccounts(p, s, step, id, h);
      SameButForOne(MaySubmit(s', id), MaySubmit(s, id), h);
    case None =>
      NobodyAccounts(p, s, step, id);
      assert MaySubmit(s', id) == MaySubmit(s, id);
  }

  lemma NewHandlersMayNotSubmit(p: Limits.Policy, s: State, step: Step, id: RemittanceId, h: HandlerId)
    ensures h !in s.handlers ==> h !in MaySubmit(Apply(p, s, step), id)
  {
    if h !in s.handlers && h in Apply(p, s, step).handlers {
      NewHandlersWait(p, s, step, h);
    }
    hide Apply;
  }

  lemma {:induction false} RunAccounts(p: Limits.Policy, s: State, steps: seq<Step>, id: RemittanceId)
    requires Sound(s)
    ensures Outstanding(After(p, s, steps), id) == Outstanding(s, id) + Forgone(p, s, steps, id)
    decreases |steps|
  {
    if steps != [] {
      hide Sound, Apply, Outstanding, Forgoes;
      StepIsSound(p, s, steps[0]);
      StepAccounts(p, s, steps[0], id);
      RunAccounts(p, Apply(p, s, steps[0]), steps[1..], id);
    }
  }

  /**
   In every run, whatever races, each successful claim has submitted its
   payment once, has ended before it could, or still may.
   */
  lemma EveryClaimIsAccountedFor(p: Limits.Policy, pool: int, now: Instant, steps: seq<Step>, id: RemittanceId)
    requires IsRemittance(After(p, Init(pool, now), steps), id)
    ensures
      var s := After(p, Init(pool, now), steps);
      var trail := s.trails[id];
      && trail.freshClaims + trail.reclaims
           == trail.submitted + Forgone(p, Init(pool, now), steps, id) + |MaySubmit(s, id)|
      && trail.landed <= trail.submitted
  {
    InitIsSound(pool, now);
    RunAccounts(p, Init(pool, now), steps, id);
    RunIsSound(p, Init(pool, now), steps);
    TrailsAreSound(After(p, Init(pool, now), steps));
    assert TrailSound(After(p, Init(pool, now), steps), id);
    assert MaySubmit(Init(pool, now), id) == {};
    hide Sound;
  }

  // -- each claim from a waiting status was paid for by a cash-in, a requeue or a late request --

  /** A confirmation or a QUEUED mark that commits although its check would no longer pass. */
  predicate CommitsLate(p: Limits.Policy, s: State, step: Step, id: RemittanceId) {
    && step.Commit? && step.q in s.requests
    && (s.requests[step.q].Confirming? || s.requests[step.q].Queueing?)
    && s.requests[step.q].remittance == id && !Passes(p, s, s.requests[step.q])
  }

  ghost function LateCommits(p: Limits.Policy, s: State, steps: seq<Step>, id: RemittanceId): nat
    decreases |steps|
  {
    if steps == [] then 0
    else One(CommitsLate(p, s, steps[0], id)) + LateCommits(p, Apply(p, s, steps[0]), steps[1..], id)
  }

  /** How far the claims made, and the one a row is waiting for, are ahead of what paid for them. */
  ghost function Excess(s: State, id: RemittanceId): int {
    if IsRemittance(s, id) then
      s.trails[id].freshClaims + One(Claimable(StatusOf(s, id), false)) - One(IsFunded(s, id)) - s.trails[id].requeues
    else 0
  }

  lemma CommitExceeds(p: Limits.Policy, s: State, q: RequestId, id: RemittanceId)
    requires Funded(s) && q in s.requests
    requires IsRemittance(s, id) ==> RequestTarget(s.requests[q]) == Some(id)
    ensures Excess(CommitStep(p, s, q), id) <= Excess(s, id) + One(CommitsLate(p, s, Commit(q), id))
  {
    if IsRemittance(s, id) {
      assert RowFunded(s, id);
      hide Funded, RowFunded;
      OwnCommitExceeds(p, s, q, id);
    } else {
      hide CommitsLate;
      NewRowsHaveNoExcess(p, s, q, id);
    }
  }

  lemma OwnCommitExceeds(p: Limits.Policy, s: State, q: RequestId, id: RemittanceId)
    requires q in s.requests && IsRemittance(s, id) && RowFunded(s, id) && RequestTarget(s.requests[q]) == Some(id)
    ensures Excess(CommitStep(p, s, q), id) <= Excess(s, id) + One(CommitsLate(p, s, Commit(q), id))
  {
    hide CommitQuote, OpenCashOut, FailCashOut, Reversed;
  }

  lemma NewRowsHaveNoExcess(p: Limits.Policy, s: State, q: RequestId, id: RemittanceId)
    requires |s.trails| == |s.tables.remittances| && !IsRemittance(s, id)
    ensures Excess(CommitStep(p, s, q), id) <= 0
  {
    CommitAddsRows(p, s, q);
    hide OpenCashOut, FailCashOut, Refund, Limits.AssertWithinLimits;
  }

  /** A claim spends what the row was waiting for, or is counted as a takeover. */
  lemma OtherStepsNeverExceed(p: Limits.Policy, s: State, step: Step, id: RemittanceId)
    requires Funded(s) && !step.Commit? && (IsRemittance(s, id) ==> Target(s, step) == Some(id))
    ensures Excess(Apply(p, s, step), id) <= Excess(s, id)
  {
    NewRowsComeFromRequests(p, s, step);
    if IsRemittance(s, id) {
      assert RowFunded(s, id);
    }
    hide Funded, CommitStep;
  }

  lemma StepExceeds(p: Limits.Policy, s: State, step: Step, id: RemittanceId)
    requires Funded(s)
    ensures Excess(Apply(p, s, step), id) <= Excess(s, id) + One(CommitsLate(p, s, step, id))
  {
    if IsRemittance(s, id) && Target(s, step) != Some(id) {
      OtherRemittancesUntouched(p, s, step, id);
    } else if step.Commit? && step.q in s.requests {
      CommitExceeds(p, s, step.q, id);
      assert Apply(p, s, step) == CommitStep(p, s, step.q);
    } else if step.Commit? {
      assert Apply(p, s, step) == s;
    } else {
      OtherStepsNeverExceed(p, s, step, id);
    }
    hide Funded, Apply, CommitStep, CommitsLate;
  }

  lemma {:induction false} RunExceeds(p: Limits.Policy, s: State, steps: seq<Step>, id: RemittanceId)
    requires Sound(s) && Funded(s)
    ensures Excess(After(p, s, steps), id) <= Excess(s, id) + LateCommits(p, s, steps, id)
    decreases |steps|
  {
    if steps != [] {
      hide Sound, Funded, Apply, Excess, CommitsLate;
      StepIsSound(p, s, steps[0]);
      StepStaysFunded(p, s, steps[0]);
      StepExceeds(p, s, steps[0], id);
      RunExceeds(p, Apply(p, s, steps[0]), steps[1..], id);
    }
  }

  /**
   In every run, whatever races, the payments submitted and the claims that
   came to nothing are at most one together, plus one per requeue, per claim
   taken over, and per confirmation or QUEUED mark committed too late.
   */
  lemma SubmissionsAreBounded(p: Limits.Policy, pool: int, now: Instant, steps: seq<Step>, id: RemittanceId)
    requires IsRemittance(After(p, Init(pool, now), steps), id)
    ensures
      var s := After(p, Init(pool, now), steps);
      var trail := s.trails[id];
      trail.submitted + Forgone(p, Init(pool, now), steps, id)
        <= One(s.tables.remittances[id].cashInConfirmedAt.Some?) + trail.requeues + trail.reclaims
           + LateCommits(p, Init(pool, now), steps, id)
  {
    InitIsSound(pool, now);
    RunExceeds(p, Init(pool, now), steps, id);
    EveryClaimIsAccountedFor(p, pool, now, steps, id);
  }

  lemma {:induction false} NoneCommitLate(
    p: Limits.Policy, s: State, steps: seq<Step>, a: Assumed, id: RemittanceId)
    requires Run(p, s, steps, a) && a.remittanceChecks
    ensures LateCommits(p, s, steps, id) == 0
    decreases |steps|
  {
    if steps != [] {
      assert !CommitsLate(p, s, steps[0], id);
      hide Apply, CommitsLate, RemittanceChecksPass;
      NoneCommitLate(p, Apply(p, s, steps[0]), steps[1..], a, id);
    }
  }

  /** When requests write what they checked, only requeues and takeovers can repeat a payment. */
  lemma FreshRequestsRepeatNothing(
    p: Limits.Policy, pool: int, now: Instant, steps: seq<Step>, a: Assumed, id: RemittanceId)
    requires Run(p, Init(pool, now), steps, a) && a.remittanceChecks
    requires IsRemittance(After(p, Init(pool, now), steps), id)
    ensures
      var s := After(p, Init(pool, now), steps);
      var trail := s.trails[id];
      trail.submitted + Forgone(p, Init(pool, now), steps, id)
        <= One(s.tables.remittances[id].cashInConfirmedAt.Some?) + trail.requeues + trail.reclaims
  {
    SubmissionsAreBounded(p, pool, now, steps, id);
    NoneCommitLate(p, Init(pool, now), steps, a, id);
    hide *;
  }
}
