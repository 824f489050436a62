/**
 The settlement worker (worker/settlement_worker.py).  Its methods run one
 message at a time; `world` is the protocol state its database and queue
 stand for, and every commit is shown to be the protocol's own step.
 */
module Worker {
  import opened Wrappers
  import opened Schema
  import opened Bookkeeping
  import opened Transactions
  import opened Stream
  import opened Protocol
  import opened SettlementSafety
  import opened TableSafety
  import opened Database
  import opened LedgerService
  import opened QueueService
  import opened CashService
  import opened Frames
  import opened Recovery
  import F = Failures
  import L = Limits

  datatype Outcome = SETTLED | FAILED | SKIPPED

  /** The payment landed and the ledger write did not: the message stays unacked. */
  datatype WorkerError = SettlementError

  // -- a message, handled without interruption, as protocol steps ------------------------------

  function SettlePrefix(s: State, h: HandlerId, resolution: Resolution, reply: Reply): State {
    PayStep(ResolveStep(ClaimStep(s, h), h, resolution), h, reply)
  }

  function FailureAttempt(s: State, h: HandlerId): State {
    CommitFailureStep(LoadForFailureStep(s, h), h)
  }

  /** claim, look up, pay, then record whichever way it went, trying the failure twice. */
  function SettlementOf(s: State, h: HandlerId, resolution: Resolution, reply: Reply): State {
    FailureAttempt(FailureAttempt(CommitSuccessStep(SettlePrefix(s, h, resolution, reply), h), h), h)
  }

  function BurnOf(s: State, h: HandlerId, reply: Reply): State {
    CommitReversalStep(CommitBurnStep(BurnStep(ClaimStep(s, h), h, reply), h), h)
  }

  function Handling(s: State, h: HandlerId, m: Message, resolution: Resolution, reply: Reply): State {
    AckStep(if m.BurnCashOut? then BurnOf(s, h, reply) else SettlementOf(s, h, resolution, reply), h)
  }

  function SettleScript(h: HandlerId, resolution: Resolution, reply: Reply): seq<Step> {
    [Claim(h)] + ([Resolve(h, resolution)] + ([Pay(h, reply)] + ([CommitSuccess(h)] +
    ([LoadForFailure(h)] + ([CommitFailure(h)] + ([LoadForFailure(h)] + ([CommitFailure(h)] + ([Ack(h)] + []))))))))
  }

  function BurnScript(h: HandlerId, reply: Reply): seq<Step> {
    [Claim(h)] + ([Burn(h, reply)] + ([CommitBurn(h)] + ([CommitReversal(h)] + ([Ack(h)] + []))))
  }

  lemma First(p: L.Policy, s: State, step: Step, rest: seq<Step>)
    ensures After(p, s, [step] + rest) == After(p, Apply(p, s, step), rest)
  {
  }

  /**
   Handling a message is a fixed script of the protocol's steps: the ones a
   branch does not take are disabled by then and do nothing.
   */
  lemma HandlingASettlementIsAScript(
    p: L.Policy, s: State, h: HandlerId, id: RemittanceId, resolution: Resolution, reply: Reply)
    ensures After(p, s, SettleScript(h, resolution, reply)) == Handling(s, h, SettleRemittance(id), resolution, reply)
  {
    hide After, ClaimStep, ResolveStep, PayStep, CommitSuccessStep, LoadForFailureStep, CommitFailureStep, AckStep;
    var s1 := ClaimStep(s, h);
    var s2 := ResolveStep(s1, h, resolution);
    var s3 := PayStep(s2, h, reply);
    var s4 := CommitSuccessStep(s3, h);
    var s5 := LoadForFailureStep(s4, h);
    var s6 := CommitFailureStep(s5, h);
    var s7 := LoadForFailureStep(s6, h);
    var s8 := CommitFailureStep(s7, h);
    var r8 := [Ack(h)] + [];
    var r7 := [CommitFailure(h)] + r8;
    var r6 := [LoadForFailure(h)] + r7;
    var r5 := [CommitFailure(h)] + r6;
    var r4 := [LoadForFailure(h)] + r5;
    var r3 := [CommitSuccess(h)] + r4;
    var r2 := [Pay(h, reply)] + r3;
    var r1 := [Resolve(h, resolution)] + r2;
    First(p, s, Claim(h), r1);
    First(p, s1, Resolve(h, resolution), r2);
    First(p, s2, Pay(h, reply), r3);
    First(p, s3, CommitSuccess(h), r4);
    First(p, s4, LoadForFailure(h), r5);
    First(p, s5, CommitFailure(h), r6);
    First(p, s6, LoadForFailure(h), r7);
    First(p, s7, CommitFailure(h), r8);
    First(p, s8, Ack(h), []);
    NoMoreSteps(p, AckStep(s8, h));
  }

  lemma NoMoreSteps(p: L.Policy, s: State)
    ensures After(p, s, []) == s
  {
  }

  lemma HandlingABurnIsAScript(p: L.Policy, s: State, h: HandlerId, c: CashOutId, resolution: Resolution, reply: Reply)
    ensures After(p, s, BurnScript(h, reply)) == Handling(s, h, BurnCashOut(c), resolution, reply)
  {
    hide After, ClaimStep, BurnStep, CommitBurnStep, CommitReversalStep, AckStep;
    var s1 := ClaimStep(s, h);
    var s2 := BurnStep(s1, h, reply);
    var s3 := CommitBurnStep(s2, h);
    var s4 := CommitReversalStep(s3, h);
    var r4 := [Ack(h)] + [];
    var r3 := [CommitReversal(h)] + r4;
    var r2 := [CommitBurn(h)] + r3;
    var r1 := [Burn(h, reply)] + r2;
    First(p, s, Claim(h), r1);
    First(p, s1, Burn(h, reply), r2);
    First(p, s2, CommitBurn(h), r3);
    First(p, s3, CommitReversal(h), r4);
    First(p, s4, Ack(h), []);
    NoMoreSteps(p, AckStep(s4, h));
  }

  /** A handler that is done, or gone, takes no further step. */
  lemma NothingLeftToDo(s: State, h: HandlerId, resolution: Resolution, reply: Reply)
    requires h !in s.handlers || s.handlers[h].phase.Finished?
    ensures ResolveStep(s, h, resolution) == s && PayStep(s, h, reply) == s && CommitSuccessStep(s, h) == s
    ensures FailureAttempt(s, h) == s
    ensures BurnStep(s, h, reply) == s && CommitBurnStep(s, h) == s && CommitReversalStep(s, h) == s
  {
  }

  /** No handler but the message's own is touched by handling it. */
  lemma {:induction false} OneHandlersStepsTouchNoOther(
    p: L.Policy, s: State, steps: seq<Step>, h: HandlerId, g: HandlerId)
    requires g != h && forall step :: step in steps ==> Actor(step) == Some(h)
    ensures
      var s' := After(p, s, steps);
      && (g in s'.handlers <==> g in s.handlers)
      && (g in s.handlers ==> s'.handlers[g] == s.handlers[g])
    decreases |steps|
  {
    if steps != [] {
      hide Apply;
      assert steps[0] in steps;
      OtherHandlersUntouched(p, s, steps[0], g);
      OneHandlersStepsTouchNoOther(p, Apply(p, s, steps[0]), steps[1..], h, g);
    }
  }

  function ScriptFor(h: HandlerId, m: Message, resolution: Resolution, reply: Reply): seq<Step> {
    if m.BurnCashOut? then BurnScript(h, reply) else SettleScript(h, resolution, reply)
  }

  lemma HandlingIsAScript(p: L.Policy, s: State, h: HandlerId, m: Message, resolution: Resolution, reply: Reply)
    ensures After(p, s, ScriptFor(h, m, resolution, reply)) == Handling(s, h, m, resolution, reply)
    ensures forall step :: step in ScriptFor(h, m, resolution, reply) ==> Actor(step) == Some(h)
  {
    hide After, Handling;
    match m
    case BurnCashOut(c) => HandlingABurnIsAScript(p, s, h, c, resolution, reply);
    case SettleRemittance(id) => HandlingASettlementIsAScript(p, s, h, id, resolution, reply);
  }

  /** What the lookups and the XRP Ledger will answer for each message. */
  type Answers = EntryId -> (Resolution, Reply)

  /** One turn of the consume loop, as its surroundings shape it. */
  datatype Round = Round(idle: set<EntryId>, answers: Answers, stopRequested: bool)

  /** How many rounds the loop gets to: all of them, or up to the first that is asked to stop. */
  function RoundsRun(rounds: seq<Round>): nat {
    if rounds == [] then 0 else if rounds[0].stopRequested then 1 else 1 + RoundsRun(rounds[1..])
  }

  lemma {:induction false} RoundsRunIs(rounds: seq<Round>, n: nat)
    requires n <= |rounds| && forall j :: 0 <= j < n - 1 ==> !rounds[j].stopRequested
    requires n == |rounds| || (n > 0 && rounds[n - 1].stopRequested)
    ensures RoundsRun(rounds) == n
  {
    if rounds != [] && !rounds[0].stopRequested {
      RoundsRunIs(rounds[1..], n - 1);
    }
  }

  function Min(a: nat, b: nat): nat {
    if a < b then a else b
  }

  predicate AreNew(s: State, hs: seq<HandlerId>) {
    Distinct(hs) && forall h :: h in hs ==> h !in s.handlers
  }

  /** A batch of messages handed to as many new handlers. */
  function Takeovers(hs: seq<HandlerId>, batch: seq<EntryId>, c: Consumer): seq<Step>
    requires |hs| == |batch|
  {
    if batch == [] then []
    else Takeovers(hs[..|hs| - 1], batch[..|batch| - 1], c) + [Reclaim(hs[|hs| - 1], batch[|batch| - 1], c)]
  }

  /** ...and those handlers' work, one after the other. */
  function Scripts(hs: seq<HandlerId>, batch: seq<EntryId>, ms: seq<Message>, answers: Answers): seq<Step>
    requires |hs| == |batch| && forall e :: e in batch ==> e < |ms|
  {
    if batch == [] then []
    else
      var n := |batch| - 1;
      assert batch[n] in batch && forall e :: e in batch[..n] ==> e in batch;
      var (resolution, reply) := answers(batch[n]);
      Scripts(hs[..n], batch[..n], ms, answers) + ScriptFor(hs[n], ms[batch[n]], resolution, reply)
  }

  lemma {:induction false} AfterConcat(p: L.Policy, s: State, xs: seq<Step>, ys: seq<Step>)
    ensures After(p, s, xs + ys) == After(p, After(p, s, xs), ys)
    decreases |xs|
  {
    if xs == [] {
      assert xs + ys == ys;
    } else {
      hide Apply;
      assert (xs + ys)[1..] == xs[1..] + ys;
      AfterConcat(p, Apply(p, s, xs[0]), xs[1..], ys);
    }
  }

  predicate Distinct(hs: seq<HandlerId>) {
    forall i, j :: 0 <= i < j < |hs| ==> hs[i] != hs[j]
  }

  /** Each handler of a batch is waiting on its own message. */
  ghost predicate Holding(s: State, hs: seq<HandlerId>, batch: seq<EntryId>, reclaimed: bool) {
    && |hs| == |batch| && Distinct(hs)
    && forall i :: 0 <= i < |hs| ==> hs[i] in s.handlers && s.handlers[hs[i]] == Handler(batch[i], reclaimed, Waiting)
  }

  /** What a batch of takeovers leaves: the tables alone, and each message waiting on its new handler. */
  ghost predicate TakenOver(s: State, s': State, hs: seq<HandlerId>, batch: seq<EntryId>, c: Consumer) {
    && s'.tables == s.tables && s'.stream == ReassignedAll(s.stream, batch, c)
    && Holding(s', hs, batch, true)
    && (forall h :: h in s'.handlers ==> h in s.handlers || h in hs)
    && (forall e :: e in s.stream.pending ==> e in s'.stream.pending)
  }

  lemma OneMoreTakenOver(
    s: State, s1: State, hs: seq<HandlerId>, batch: seq<EntryId>, h: HandlerId, e: EntryId, c: Consumer)
    requires TakenOver(s, s1, hs, batch, c) && h !in hs && h !in s.handlers && e in s.stream.pending
    ensures TakenOver(s, ReclaimStep(s1, h, e, c), hs + [h], batch + [e], c)
  {
  }

  lemma {:induction false} TakeoversDeliver(p: L.Policy, s: State, hs: seq<HandlerId>, batch: seq<EntryId>, c: Consumer)
    requires Sound(s) && |hs| == |batch| && Distinct(hs)
    requires forall h :: h in hs ==> h !in s.handlers
    requires forall e :: e in batch ==> e in s.stream.pending
    ensures var s' := After(p, s, Takeovers(hs, batch, c)); Sound(s') && TakenOver(s, s', hs, batch, c)
    decreases |batch|
  {
    hide Sound, After, Apply, TakenOver, ReclaimStep;
    if batch == [] {
      NothingTakenOver(p, s, c);
    } else {
      var n := |batch| - 1;
      var h, e, earlier := hs[n], batch[n], Takeovers(hs[..n], batch[..n], c);
      assert e in batch && h in hs && h !in hs[..n];
      TakeoversDeliver(p, s, hs[..n], batch[..n], c);
      AfterConcat(p, s, earlier, [Reclaim(h, e, c)]);
      OneReclaim(p, After(p, s, earlier), h, e, c);
      OneMoreTakenOver(s, After(p, s, earlier), hs[..n], batch[..n], h, e, c);
      assert hs[..n] + [h] == hs && batch[..n] + [e] == batch;
    }
  }

  lemma NothingTakenOver(p: L.Policy, s: State, c: Consumer)
    ensures After(p, s, []) == s && TakenOver(s, s, [], [], c)
  {
  }

  lemma OneReclaim(p: L.Policy, s: State, h: HandlerId, e: EntryId, c: Consumer)
    requires Sound(s)
    ensures After(p, s, [Reclaim(h, e, c)]) == ReclaimStep(s, h, e, c) && Sound(ReclaimStep(s, h, e, c))
  {
    LastStep(p, s, Reclaim(h, e, c));
    StepIsSound(p, s, Reclaim(h, e, c));
    hide Sound, After;
  }

  lemma LastStep(p: L.Policy, s: State, step: Step)
    ensures After(p, s, [step]) == Apply(p, s, step)
  {
  }

  class SettlementWorker {
    const p: L.Policy
    const db: Session
    const queue: SettlementQueue
    const consumer: Consumer
    var stopping: bool
    ghost var world: State

    ghost predicate Valid()
      reads this, db, queue
    {
      db.Idle() && world.tables == db.committed && world.stream == queue.View() && Sound(world)
    }

    constructor (p: L.Policy, db: Session, queue: SettlementQueue, consumer: Consumer, ghost world: State)
      requires db.Idle() && world.tables == db.committed && world.stream == queue.View() && Sound(world)
      ensures Valid() && this.world == world && !stopping
      ensures this.p == p && this.db == db && this.queue == queue && this.consumer == consumer
    {
      this.p, this.db, this.queue, this.consumer := p, db, queue, consumer;
      this.world := world;
      stopping := false;
    }

    /** Finish the current message, then leave the loop. */
    method Stop()
      modifies this`stopping
      ensures stopping
    {
      stopping := true;
    }

    /** _claim: compare and swap to SETTLING, committed at once. */
    method ClaimRemittance(ghost h: HandlerId, id: RemittanceId, reclaimed: bool) returns (claimed: bool)
      requires Valid() && InPhase(world, h, Waiting) && world.handlers[h].reclaimed == reclaimed
      requires Settles(world, h) && RemittanceOf(world, h) == id
      modifies this`world, db
      ensures Valid() && world == ClaimStep(old(world), h)
      ensures InPhase(world, h, if claimed then Claimed else Finished)
      ensures Settles(world, h) && RemittanceOf(world, h) == id
      ensures
        var status := old(StatusOf(world, id));
        claimed <==> status.CashInConfirmed? || status.Queued? || (reclaimed && status.Settling?)
    {
      var status := db.work.remittances[id].status;
      claimed := status.CashInConfirmed? || status.Queued? || (reclaimed && status.Settling?);
      if claimed {
        db.SaveRemittance(id, db.work.remittances[id].(status := Settling));
      }
      ClaimMoves(p, world, h, id);
      hide Sound, ClaimStep;
      world := ClaimStep(world, h);
      db.Commit();
    }

    /** _record_success: credit, note and status in one transaction, or nothing at all. */
    method RecordSettlement(ghost h: HandlerId, id: RemittanceId, loaded: RemittanceStatus)
      returns (r: Result<Outcome, WorkerError>)
      requires Valid() && Settles(world, h) && RemittanceOf(world, h) == id && InPhase(world, h, Paid(loaded))
      modifies this`world, db
      ensures Valid() && world == CommitSuccessStep(old(world), h)
      ensures if r.Ok? then r.value.SETTLED? && InPhase(world, h, Finished) else h !in world.handlers
    {
      var row := db.work.remittances[id];
      SuccessAttempted(p, world, h, id, loaded);
      world := CommitSuccessStep(world, h);
      hide Sound, CommitSuccessStep;
      var ledger := new Ledger(db);
      var credit := ledger.Credit(row.recipient, UCTUSD, row.uctusd, Some(id), None);
      if credit.Err? {
        db.Rollback();
        return Err(SettlementError);
      }
      var sent := ledger.RecordExternal(
        row.sender, Outgoing, ZAR, row.zarCents * MICROS_PER_CENT, Some(id), EntryStatus.Success);
      if sent.Err? {
        db.Rollback();
        return Err(SettlementError);
      }
      if loaded != Settled {
        db.SaveRemittance(id, row.(status := Settled));
      }
      db.Commit();
      return Ok(SETTLED);
    }

    /** One attempt of _fail, on a row that may have moved since its status was loaded. */
    method AttemptFailure(ghost h: HandlerId, id: RemittanceId, loaded: RemittanceStatus, noted: bool)
      returns (done: bool)
      requires Valid() && Settles(world, h) && RemittanceOf(world, h) == id
      requires InPhase(world, h, Failing(loaded, noted))
      modifies this`world, db
      ensures Valid() && world == CommitFailureStep(old(world), h)
      ensures Settles(world, h) && RemittanceOf(world, h) == id
      ensures InPhase(world, h, if done then Finished else MustFail(false))
      ensures RecordFailure(old(db.committed), id, loaded, noted) == if done then Ok(db.committed) else Err(UniqueViolation)
      ensures !done ==> db.committed == old(db.committed)
    {
      var row := db.work.remittances[id];
      FailureAttempted(p, world, h, id, loaded, noted);
      world := CommitFailureStep(world, h);
      hide Sound, CommitFailureStep;
      if noted {
        var ledger := new Ledger(db);
        var recorded := ledger.RecordExternal(
          row.recipient, Incoming, UCTUSD, row.uctusd, Some(id), EntryStatus.Failed);
        if recorded.Err? {
          db.Rollback();
          return false;
        }
      }
      if loaded != RemittanceStatus.Failed {
        db.SaveRemittance(id, row.(status := RemittanceStatus.Failed));
      } else {
        assert db.work.remittances[id := row] == db.work.remittances;
      }
      db.Commit();
      return true;
    }

    /** _fail: a second failed entry is refused by the unique key, and then none is written. */
    method Fail(ghost h: HandlerId, id: RemittanceId, noted: bool) returns (outcome: Outcome)
      requires Valid() && Settles(world, h) && RemittanceOf(world, h) == id && InPhase(world, h, MustFail(noted))
      modifies this`world, db
      ensures Valid() && world == FailureAttempt(FailureAttempt(old(world), h), h)
      ensures outcome.FAILED? && InPhase(world, h, Finished)
      ensures F.Fail(old(db.committed), id, old(StatusOf(world, id)), noted) == Ok(db.committed)
    {
      hide Sound, LoadForFailureStep, CommitFailureStep;
      db.Rollback();
      FailureIsRecorded(p, world, h, id, noted);
      var loaded := db.work.remittances[id].status;
      LoadMoves(p, world, h, id, noted);
      world := LoadForFailureStep(world, h);
      var done := AttemptFailure(h, id, loaded, noted);
      if done {
        NothingLeftToDo(world, h, Resolved, NotSubmitted);
        return FAILED;
      }
      loaded := db.work.remittances[id].status;
      LoadMoves(p, world, h, id, false);
      world := LoadForFailureStep(world, h);
      done := AttemptFailure(h, id, loaded, false);
      return FAILED;
    }

    /** _settle: claim, look up, pay, record; `resolution` and `reply` are what the lookups and the ledger answer. */
    method Settle(ghost h: HandlerId, id: RemittanceId, reclaimed: bool, resolution: Resolution, reply: Reply)
      returns (r: Result<Outcome, WorkerError>)
      requires Valid() && InPhase(world, h, Waiting) && world.handlers[h].reclaimed == reclaimed
      requires Settles(world, h) && RemittanceOf(world, h) == id
      modifies this`world, db
      ensures Valid() && world == SettlementOf(old(world), h, resolution, reply)
      ensures if r.Ok? then InPhase(world, h, Finished) else h !in world.handlers
      ensures r == Ok(SKIPPED) <==> !Claimable(old(StatusOf(world, id)), reclaimed)
      ensures r == Ok(SETTLED) ==> resolution.Resolved? && reply.Validated?
    {
      hide Sound, ClaimStep, ResolveStep, PayStep, CommitSuccessStep, FailureAttempt;
      var claimed := ClaimRemittance(h, id, reclaimed);
      ghost var s1 := world;
      if !claimed {
        NothingLeftToDo(s1, h, resolution, reply);
        return Ok(SKIPPED);
      }
      LookupMoves(p, s1, h, resolution);
      world := ResolveStep(world, h, resolution);
      ghost var s2 := world;
      var outcome;
      if !resolution.Resolved? {
        NotPaying(s2, h, reply);
        outcome := Fail(h, id, resolution.NoPool?);
        return Ok(outcome);
      }
      var loaded := db.work.remittances[id].status;
      PaymentMoves(p, s2, h, loaded, reply);
      world := PayStep(world, h, reply);
      ghost var s3 := world;
      if !reply.Validated? {
        NotPaying(s3, h, reply);
        outcome := Fail(h, id, true);
        return Ok(outcome);
      }
      r := RecordSettlement(h, id, loaded);
      NothingLeftToDo(world, h, resolution, reply);
    }

    /** The compare-and-swap that opens burn_cash_out: only an APPROVED cash-out is taken. */
    method ClaimCashOut(ghost h: HandlerId, c: CashOutId) returns (claimed: bool)
      requires Valid() && InPhase(world, h, Waiting) && Burns(world, h) && CashOutOf(world, h) == c
      modifies this`world, db
      ensures Valid() && world == ClaimStep(old(world), h)
      ensures InPhase(world, h, if claimed then BurnClaimed else Finished)
      ensures Burns(world, h) && CashOutOf(world, h) == c
      ensures claimed <==> old(db.committed).cashOuts[c].status.Approved?
      ensures claimed ==> db.committed.cashOuts[c].status.Processing?
    {
      var row := db.work.cashOuts[c];
      claimed := row.status.Approved?;
      if claimed {
        db.SaveCashOut(c, row.(status := Processing));
      }
      StepIsSound(p, world, Claim(h));
      world := ClaimStep(world, h);
      db.Commit();
      hide Sound;
    }

    /** _burn_cash_out: claim, burn, then the fiat credit, or the refund of a burn that was rejected. */
    method BurnClaimedCashOut(ghost h: HandlerId, c: CashOutId, reply: Reply) returns (r: Result<Outcome, WorkerError>)
      requires Valid() && InPhase(world, h, Waiting) && Burns(world, h) && CashOutOf(world, h) == c
      modifies this`world, db
      ensures Valid() && world == BurnOf(old(world), h, reply)
      ensures if r.Ok? then InPhase(world, h, Finished) else h !in world.handlers
      ensures r == Ok(SKIPPED) <==> !old(db.committed).cashOuts[c].status.Approved?
      ensures r == Ok(SETTLED) ==> reply.Validated?
    {
      hide Sound, ClaimStep, BurnStep, CommitBurnStep, CommitReversalStep;
      var claimed := ClaimCashOut(h, c);
      if !claimed {
        NothingLeftToDo(world, h, Resolved, reply);
        return Ok(SKIPPED);
      }
      BurnMoves(p, world, h, c, reply);
      world := BurnStep(world, h, reply);
      if reply.Validated? {
        r := CompleteBurn(h, c);
        NothingLeftToDo(world, h, Resolved, reply);
      } else {
        NotCompleting(world, h);
        FailBurn(h, c);
        r := Ok(FAILED);
      }
    }

    /** The burn landed: credit the fiat leg, or leave the message for reconciliation. */
    method CompleteBurn(ghost h: HandlerId, c: CashOutId) returns (r: Result<Outcome, WorkerError>)
      requires Valid() && Burns(world, h) && CashOutOf(world, h) == c && InPhase(world, h, BurnLanded)
      modifies this`world, db
      ensures Valid() && world == CommitBurnStep(old(world), h)
      ensures if r.Ok? then r.value.SETTLED? && InPhase(world, h, Finished) else h !in world.handlers
      ensures r.Ok? <==> old(db.committed).cashOuts[c].payoutAmount > 0
    {
      CompletionAttempted(p, world, h, c);
      hide Sound, CommitBurnStep, CompleteCashOut, Burns, CashOutOf;
      world := CommitBurnStep(world, h);
      var completed := Complete(db, c);
      if completed.Err? {
        db.Rollback();
        return Err(SettlementError);
      }
      db.Commit();
      return Ok(SETTLED);
    }

    /** _fail_cash_out: give the reserved tokens back. */
    method FailBurn(ghost h: HandlerId, c: CashOutId)
      requires Valid() && Burns(world, h) && CashOutOf(world, h) == c && InPhase(world, h, BurnRejected)
      requires db.committed.cashOuts[c].status.Processing?
      modifies this`world, db
      ensures Valid() && world == CommitReversalStep(old(world), h)
      ensures InPhase(world, h, Finished) && db.committed.cashOuts[c].status.Failed?
    {
      db.Rollback();
      ReversalAttempted(p, world, h, c);
      hide Sound, CommitReversalStep, FailCashOut;
      world := CommitReversalStep(world, h);
      var reversed := Reverse(db, c, {Processing});
      assert reversed.Ok?;
      db.Commit();
    }

    /** The part of handle that runs before the ack: settle or burn, as the message says. */
    method Dispatch(ghost h: HandlerId, m: Message, reclaimed: bool, resolution: Resolution, reply: Reply)
      returns (r: Result<Outcome, WorkerError>)
      requires Valid() && InPhase(world, h, Waiting) && world.handlers[h].reclaimed == reclaimed
      requires HasMessage(world, h) && MessageOf(world, h) == m
      requires if m.BurnCashOut? then Burns(world, h) else Settles(world, h)
      modifies this`world, db
      ensures Valid()
      ensures world == if m.BurnCashOut? then BurnOf(old(world), h, reply)
                       else SettlementOf(old(world), h, resolution, reply)
      ensures if r.Ok? then InPhase(world, h, Finished) else h !in world.handlers
    {
      hide Valid, Sound, SettlementOf, BurnOf;
      match m {
        case BurnCashOut(c) => r := BurnClaimedCashOut(h, c, reply);
        case SettleRemittance(id) => r := Settle(h, id, reclaimed, resolution, reply);
      }
    }

    /** handle: settle or burn, and ack unless the ledger write was lost. */
    method Handle(ghost h: HandlerId, e: EntryId, reclaimed: bool, resolution: Resolution, reply: Reply)
      returns (r: Result<Outcome, WorkerError>)
      requires Valid() && h in world.handlers && world.handlers[h] == Handler(e, reclaimed, Waiting)
      modifies this`world, db, queue
      ensures Valid() && h !in world.handlers
      ensures queue.messages == old(queue.messages) && queue.delivered == old(queue.delivered)
      ensures e < |queue.messages| && world == Handling(old(world), h, queue.messages[e], resolution, reply)
      ensures queue.pending == if r.Ok? then old(queue.pending) - {e} else old(queue.pending)
    {
      WaitingHandlerHasAMessage(world, h);
      hide Sound, SettlementOf, BurnOf;
      var m := queue.messages[e];
      r := Dispatch(h, m, reclaimed, resolution, reply);
      HandledThenAcked(p, old(world), h, e, m, resolution, reply, world);
      hide Handling;
      world := Handling(old(world), h, m, resolution, reply);
      if r.Ok? {
        queue.Acknowledge(e);
      }
    }

    /** Handles one batch in order; what is left waiting stays untouched meanwhile. */
    method HandleBatch(batch: seq<EntryId>, ghost hs: seq<HandlerId>, reclaimed: bool, answers: Answers)
      requires Valid() && Holding(world, hs, batch, reclaimed)
      modifies this`world, db, queue
      ensures Valid() && queue.messages == old(queue.messages) && queue.delivered == old(queue.delivered)
      ensures forall e :: e in batch ==> e < |queue.messages|
      ensures world == After(p, old(world), Scripts(hs, batch, queue.messages, answers))
    {
      hide Sound, After, Handling, ScriptFor;
      BatchIsKnown(world, hs, batch, reclaimed);
      ghost var ms := queue.messages;
      NoMoreSteps(p, world);
      for i := 0 to |batch|
        invariant Valid() && queue.messages == ms && queue.delivered == old(queue.delivered)
        invariant forall e :: e in batch[..i] ==> e in batch
        invariant world == After(p, old(world), Scripts(hs[..i], batch[..i], ms, answers))
        invariant forall j :: i <= j < |hs| ==>
                    hs[j] in world.handlers && world.handlers[hs[j]] == Handler(batch[j], reclaimed, Waiting)
      {
        var (resolution, reply) := answers(batch[i]);
        ghost var before := world;
        var _ := Handle(hs[i], batch[i], reclaimed, resolution, reply);
        ghost var script := ScriptFor(hs[i], ms[batch[i]], resolution, reply);
        HandlingIsAScript(p, before, hs[i], ms[batch[i]], resolution, reply);
        forall j | i + 1 <= j < |hs|
          ensures hs[j] in world.handlers && world.handlers[hs[j]] == before.handlers[hs[j]]
        {
          OneHandlersStepsTouchNoOther(p, before, script, hs[i], hs[j]);
        }
        AfterConcat(p, old(world), Scripts(hs[..i], batch[..i], ms, answers), script);
        assert batch[..i + 1][..i] == batch[..i] && hs[..i + 1][..i] == hs[..i];
      }
      assert batch[..|batch|] == batch && hs[..|hs|] == hs;
    }

    /** Messages silent for long enough change hands before any of them is handled. */
    method TakeOverSilent(idle: set<EntryId>) returns (batch: seq<EntryId>, ghost hs: seq<HandlerId>)
      requires Valid()
      modifies this`world, queue
      ensures Valid() && queue.messages == old(queue.messages) && queue.delivered == old(queue.delivered)
      ensures IsPick(batch, idle * old(queue.pending).Keys, 10)
      ensures Holding(world, hs, batch, true) && AreNew(old(world), hs)
      ensures |hs| == |batch| && world == After(p, old(world), Takeovers(hs, batch, consumer))
    {
      StreamIsWellFormed(world);
      batch := queue.ReclaimStale(consumer, idle, 10);
      hs := FreshHandlers(world, |batch|);
      assert forall e :: e in batch ==> e in world.stream.pending;
      hide IsPick, Sound, After, Takeovers, Holding, ReassignedAll, Distinct;
      TakeoversDeliver(p, world, hs, batch, consumer);
      world := After(p, world, Takeovers(hs, batch, consumer));
    }

    /** _reclaim_abandoned: takes over up to ten silent messages and handles each as reclaimed. */
    method ReclaimAbandoned(idle: set<EntryId>, answers: Answers)
      returns (batch: seq<EntryId>, ghost hs: seq<HandlerId>)
      requires Valid()
      modifies this`world, db, queue
      ensures Valid() && queue.messages == old(queue.messages) && queue.delivered == old(queue.delivered)
      ensures IsPick(batch, idle * old(queue.pending).Keys, 10) && AreNew(old(world), hs)
      ensures |hs| == |batch| && forall e :: e in batch ==> e < |queue.messages|
      ensures world ==
              After(p, old(world), Takeovers(hs, batch, consumer) + Scripts(hs, batch, queue.messages, answers))
    {
      hide IsPick, Sound, After, Takeovers, Scripts, Holding;
      batch, hs := TakeOverSilent(idle);
      HandleBatch(batch, hs, true, answers);
      AfterConcat(p, old(world), Takeovers(hs, batch, consumer), Scripts(hs, batch, queue.messages, answers));
    }

    /** One undelivered message, if there is one, handled by a handler of its own. */
    method TakeNew(answers: Answers) returns (ghost h: HandlerId)
      requires Valid()
      modifies this`world, db, queue
      ensures Valid() && queue.messages == old(queue.messages)
      ensures
        var e := old(queue.delivered);
        if e == |queue.messages| then queue.View() == old(queue.View()) && world == old(world)
        else
          && h !in old(world).handlers && queue.delivered == e + 1
          && var (resolution, reply) := answers(e);
             world == Handling(ReadNewStep(old(world), h, consumer), h, queue.messages[e], resolution, reply)
    {
      StreamIsWellFormed(world);
      h := FreshId(world.handlers);
      var batch := queue.ReadNew(consumer);
      if batch == [] {
        return;
      }
      StepIsSound(p, world, ReadNew(h, consumer));
      hide Sound, Handling;
      world := ReadNewStep(world, h, consumer);
      var (resolution, reply) := answers(batch[0]);
      var _ := Handle(h, batch[0], false, resolution, reply);
    }

    /** What this consumer was delivered and never acked, replayed at startup. */
    method ReplayPending(answers: Answers) returns (batch: seq<EntryId>, ghost hs: seq<HandlerId>)
      requires Valid()
      modifies this`world, db, queue
      ensures Valid() && queue.messages == old(queue.messages) && queue.delivered == old(queue.delivered)
      ensures IsPick(batch, (set e | e in old(queue.pending) && old(queue.pending)[e] == consumer), 10)
      ensures AreNew(old(world), hs)
      ensures |hs| == |batch| && forall e :: e in batch ==> e < |queue.messages|
      ensures world ==
              After(p, old(world), Takeovers(hs, batch, consumer) + Scripts(hs, batch, queue.messages, answers))
    {
      StreamIsWellFormed(world);
      batch := queue.ReadPending(consumer, 10);
      hs := FreshHandlers(world, |batch|);
      assert forall e :: e in batch ==> e in world.stream.pending && world.stream.pending[e] == consumer;
      hide IsPick, Sound, After, Takeovers, Scripts, Holding, ReassignedAll, Distinct;
      TakeoversDeliver(p, world, hs, batch, consumer);
      KeepingIsNoHandover(world.stream, batch, consumer);
      world := After(p, world, Takeovers(hs, batch, consumer));
      HandleBatch(batch, hs, true, answers);
      AfterConcat(p, old(world), Takeovers(hs, batch, consumer), Scripts(hs, batch, queue.messages, answers));
    }

    /** Before the loop: what an earlier run of this consumer left unacked. */
    method StartUp(startup: Answers) returns (ghost steps: seq<Step>)
      requires Valid()
      modifies this`world, db, queue
      ensures Valid() && queue.messages == old(queue.messages) && world == After(p, old(world), steps)
      ensures queue.delivered == old(queue.delivered) <= |queue.messages|
    {
      StreamIsWellFormed(world);
      hide Sound, After, Takeovers, Scripts, IsPick;
      ghost var batch, hs := ReplayPending(startup);
      steps := Takeovers(hs, batch, consumer) + Scripts(hs, batch, queue.messages, startup);
    }

    /** One turn of the loop: whatever was abandoned, then one new message, then a look at the stop request. */
    method OneRound(round: Round, ghost start: State, ghost before: seq<Step>) returns (ghost steps: seq<Step>)
      requires Valid() && !stopping && world == After(p, start, before)
      modifies this`world, this`stopping, db, queue
      ensures Valid() && queue.messages == old(queue.messages) && world == After(p, start, steps)
      ensures queue.delivered == Min(old(queue.delivered) + 1, |queue.messages|)
      ensures stopping == round.stopRequested
    {
      StreamIsWellFormed(world);
      hide Sound, After, Takeovers, Scripts, IsPick, Handling, ReadNewStep;
      ghost var batch, hs := ReclaimAbandoned(round.idle, round.answers);
      ghost var first := Takeovers(hs, batch, consumer) + Scripts(hs, batch, queue.messages, round.answers);
      AfterConcat(p, start, before, first);
      ghost var between := world;
      ghost var h := TakeNew(round.answers);
      ghost var more := TakingOne(p, between, world, h, consumer, round.answers);
      AfterConcat(p, start, before + first, more);
      steps := before + first + more;
      if round.stopRequested {
        Stop();
      }
    }

    /**
     run: the database and the queue end where some sequence of the
     protocol's steps takes them.  Each round the loop gets to takes one new
     message if there is one, and a stop request is honoured only once its
     round is over.
     */
    method Run(startup: Answers, rounds: seq<Round>) returns (ghost steps: seq<Step>)
      requires Valid() && !stopping
      modifies this, db, queue
      ensures Valid() && queue.messages == old(queue.messages) && world == After(p, old(world), steps)
      ensures queue.delivered == Min(old(queue.delivered) + RoundsRun(rounds), |queue.messages|)
      ensures stopping <==> exists i :: 0 <= i < |rounds| && rounds[i].stopRequested
    {
      hide Valid, Sound, After, Consumed;
      steps := StartUp(startup);
      NoneConsumed(rounds);
      var i := 0;
      while i < |rounds| && !stopping
        invariant Consumed(rounds, i, stopping) && i <= |rounds|
        invariant Valid() && queue.messages == old(queue.messages) && world == After(p, old(world), steps)
        invariant queue.delivered == Min(old(queue.delivered) + i, |queue.messages|)
      {
        OneMoreConsumed(rounds, i);
        steps := OneRound(rounds[i], old(world), steps);
        i := i + 1;
      }
      AllConsumed(rounds, i, stopping);
    }
  }

  /** The first n rounds were run, and only the last of them may have been asked to stop. */
  predicate Consumed(rounds: seq<Round>, n: nat, stopped: bool) {
    && n <= |rounds| && (stopped ==> n > 0 && rounds[n - 1].stopRequested)
    && forall j :: 0 <= j < (if stopped then n - 1 else n) ==> !rounds[j].stopRequested
  }

  lemma NoneConsumed(rounds: seq<Round>)
    ensures Consumed(rounds, 0, false)
  {
  }

  lemma OneMoreConsumed(rounds: seq<Round>, n: nat)
    requires Consumed(rounds, n, false) && n < |rounds|
    ensures Consumed(rounds, n + 1, rounds[n].stopRequested)
  {
  }

  lemma AllConsumed(rounds: seq<Round>, n: nat, stopped: bool)
    requires Consumed(rounds, n, stopped) && (n == |rounds| || stopped)
    ensures RoundsRun(rounds) == n
    ensures stopped <==> exists i :: 0 <= i < |rounds| && rounds[i].stopRequested
  {
    RoundsRunIs(rounds, n);
  }

  /** What a failure left alone comes to. */
  lemma FailureIsRecorded(p: L.Policy, s: State, h: HandlerId, id: RemittanceId, noted: bool)
    requires Sound(s) && Settles(s, h) && RemittanceOf(s, h) == id && InPhase(s, h, MustFail(noted))
    ensures
      var s' := FailureAttempt(FailureAttempt(s, h), h);
      && Sound(s') && InPhase(s', h, Finished) && s'.stream == s.stream
      && F.Fail(s.tables, id, StatusOf(s, id), noted) == Ok(s'.tables)
      && s.tables.remittances[id].uctusd > 0
  {
    assert RemittancePriced(s.tables.remittances[id]);
    F.UninterruptedHandlerFails(s, h);
    var once := FailureAttempt(s, h);
    AttemptIsSound(p, s, h);
    AttemptIsSound(p, once, h);
    if InPhase(once, h, Finished) {
      NothingLeftToDo(once, h, Resolved, NotSubmitted);
    }
    hide Sound;
  }

  lemma ClaimMoves(p: L.Policy, s: State, h: HandlerId, id: RemittanceId)
    requires Sound(s) && InPhase(s, h, Waiting) && Settles(s, h) && RemittanceOf(s, h) == id
    ensures
      var s', claimed := ClaimStep(s, h), Claimable(StatusOf(s, id), s.handlers[h].reclaimed);
      && Sound(s') && Settles(s', h) && RemittanceOf(s', h) == id && s'.stream == s.stream
      && InPhase(s', h, if claimed then Claimed else Finished)
      && s'.tables == (if claimed then WithStatus(s.tables, id, Settling) else s.tables)
  {
    StepIsSound(p, s, Claim(h));
    hide Sound;
  }

  lemma LookupMoves(p: L.Policy, s: State, h: HandlerId, resolution: Resolution)
    requires Sound(s) && Settles(s, h) && InPhase(s, h, Claimed)
    ensures
      var s' := ResolveStep(s, h, resolution);
      && Sound(s') && Settles(s', h) && RemittanceOf(s', h) == RemittanceOf(s, h)
      && InPhase(s', h, if resolution.Resolved? then Ready(StatusOf(s, RemittanceOf(s, h)))
                        else MustFail(resolution.NoPool?))
      && s'.tables == s.tables && s'.stream == s.stream
  {
    StepIsSound(p, s, Resolve(h, resolution));
    hide Sound;
  }

  lemma PaymentMoves(p: L.Policy, s: State, h: HandlerId, loaded: RemittanceStatus, reply: Reply)
    requires Sound(s) && Settles(s, h) && InPhase(s, h, Ready(loaded))
    ensures
      var s' := PayStep(s, h, reply);
      && Sound(s') && Settles(s', h) && RemittanceOf(s', h) == RemittanceOf(s, h)
      && InPhase(s', h, if reply.Validated? then Paid(loaded) else MustFail(true))
      && s'.tables == s.tables && s'.stream == s.stream
  {
    StepIsSound(p, s, Pay(h, reply));
    hide Sound;
  }

  /** A handler that has to record a failure neither pays nor succeeds on the way. */
  lemma NotPaying(s: State, h: HandlerId, reply: Reply)
    requires h in s.handlers && s.handlers[h].phase.MustFail?
    ensures PayStep(s, h, reply) == s && CommitSuccessStep(s, h) == s
  {
  }

  lemma BurnMoves(p: L.Policy, s: State, h: HandlerId, c: CashOutId, reply: Reply)
    requires Sound(s) && Burns(s, h) && CashOutOf(s, h) == c && InPhase(s, h, BurnClaimed)
    ensures
      var s' := BurnStep(s, h, reply);
      && Sound(s') && Burns(s', h) && CashOutOf(s', h) == c
      && InPhase(s', h, if reply.Validated? then BurnLanded else BurnRejected)
      && s'.tables == s.tables && s'.stream == s.stream
  {
    StepIsSound(p, s, Burn(h, reply));
    hide Sound;
  }

  lemma NotCompleting(s: State, h: HandlerId)
    requires h in s.handlers && s.handlers[h].phase.BurnRejected?
    ensures CommitBurnStep(s, h) == s
  {
  }

  lemma WaitingHandlerHasAMessage(s: State, h: HandlerId)
    requires Sound(s) && h in s.handlers
    ensures HasMessage(s, h)
    ensures MessageOf(s, h).SettleRemittance? ==> Settles(s, h)
    ensures MessageOf(s, h).BurnCashOut? ==> Burns(s, h)
  {
    assert HandlerSound(s, h);
    assert MessageKnown(s, MessageOf(s, h));
    hide Sound;
  }

  lemma AckMoves(p: L.Policy, s: State, h: HandlerId)
    requires Sound(s)
    ensures
      var s' := AckStep(s, h);
      && Sound(s') && s'.tables == s.tables
      && (InPhase(s, h, Finished) ==> h !in s'.handlers && s'.stream == Acked(s.stream, s.handlers[h].entry))
      && (!InPhase(s, h, Finished) ==> s' == s)
  {
    StepIsSound(p, s, Ack(h));
    hide Sound;
  }

  /** The ack closes the handling of a message: its handler is gone, and so is the message if it was done with. */
  lemma HandledThenAcked(
    p: L.Policy, s: State, h: HandlerId, e: EntryId, m: Message, resolution: Resolution, reply: Reply, s': State)
    requires h in s.handlers && s.handlers[h].entry == e && Sound(s')
    requires s' == if m.BurnCashOut? then BurnOf(s, h, reply) else SettlementOf(s, h, resolution, reply)
    requires h in s'.handlers ==> InPhase(s', h, Finished)
    ensures
      var s'' := Handling(s, h, m, resolution, reply);
      && Sound(s'') && s''.tables == s'.tables && h !in s''.handlers
      && s''.stream == if InPhase(s', h, Finished) then Acked(s.stream, e) else s.stream
  {
    AckMoves(p, s', h);
    HandledEntryIsKept(s, h, e, m, resolution, reply, s');
    hide Sound, SettlementOf, BurnOf, AckStep;
  }

  /** Whatever handling does, the handler's entry stays what it was and the stream is left alone until the ack. */
  lemma HandledEntryIsKept(
    s: State, h: HandlerId, e: EntryId, m: Message, resolution: Resolution, reply: Reply, s': State)
    requires h in s.handlers && s.handlers[h].entry == e
    requires s' == if m.BurnCashOut? then BurnOf(s, h, reply) else SettlementOf(s, h, resolution, reply)
    ensures s'.stream == s.stream && (h in s'.handlers ==> s'.handlers[h].entry == e)
  {
    hide ClaimStep, ResolveStep, PayStep, CommitSuccessStep, LoadForFailureStep, CommitFailureStep, BurnStep,
         CommitBurnStep, CommitReversalStep;
    var s1 := ClaimStep(s, h);
    StepsKeepTheEntry(s, h, resolution, reply);
    StepsKeepTheEntry(s1, h, resolution, reply);
    if m.BurnCashOut? {
      var s2 := BurnStep(s1, h, reply);
      StepsKeepTheEntry(s2, h, resolution, reply);
      StepsKeepTheEntry(CommitBurnStep(s2, h), h, resolution, reply);
    } else {
      var s2 := ResolveStep(s1, h, resolution);
      StepsKeepTheEntry(s2, h, resolution, reply);
      var s3 := PayStep(s2, h, reply);
      StepsKeepTheEntry(s3, h, resolution, reply);
      var s4 := CommitSuccessStep(s3, h);
      StepsKeepTheEntry(s4, h, resolution, reply);
      var s5 := LoadForFailureStep(s4, h);
      StepsKeepTheEntry(s5, h, resolution, reply);
      var s6 := CommitFailureStep(s5, h);
      StepsKeepTheEntry(s6, h, resolution, reply);
      StepsKeepTheEntry(LoadForFailureStep(s6, h), h, resolution, reply);
    }
  }

  ghost predicate KeepsEntry(s: State, s': State, h: HandlerId) {
    && s'.stream == s.stream
    && (h in s'.handlers ==> h in s.handlers && s'.handlers[h].entry == s.handlers[h].entry)
  }

  lemma StepsKeepTheEntry(s: State, h: HandlerId, resolution: Resolution, reply: Reply)
    ensures KeepsEntry(s, ClaimStep(s, h), h) && KeepsEntry(s, ResolveStep(s, h, resolution), h)
    ensures KeepsEntry(s, PayStep(s, h, reply), h) && KeepsEntry(s, CommitSuccessStep(s, h), h)
    ensures KeepsEntry(s, LoadForFailureStep(s, h), h) && KeepsEntry(s, CommitFailureStep(s, h), h)
    ensures KeepsEntry(s, BurnStep(s, h, reply), h) && KeepsEntry(s, CommitBurnStep(s, h), h)
    ensures KeepsEntry(s, CommitReversalStep(s, h), h)
  {
  }

  lemma BatchIsKnown(s: State, hs: seq<HandlerId>, batch: seq<EntryId>, reclaimed: bool)
    requires Sound(s) && Holding(s, hs, batch, reclaimed)
    ensures forall e :: e in batch ==> e < |s.stream.messages|
  {
  }

  lemma StreamIsWellFormed(s: State)
    requires Sound(s)
    ensures WellFormed(s.stream)
  {
  }

  /** Names for handlers not yet in use. */
  lemma FreshHandlers(s: State, n: nat) returns (hs: seq<HandlerId>)
    ensures |hs| == n && Distinct(hs) && forall h :: h in hs ==> h !in s.handlers
  {
    var base := FreshAbove(s.handlers.Keys);
    hs := seq(n, i requires 0 <= i < n => base + i);
  }

  lemma {:induction false} KeepingIsNoHandover(g: Group, batch: seq<EntryId>, c: Consumer)
    requires forall e :: e in batch ==> e in g.pending && g.pending[e] == c
    ensures ReassignedAll(g, batch, c) == g
  {
    if batch != [] {
      var n := |batch| - 1;
      assert batch[n] in batch && forall e :: e in batch[..n] ==> e in batch;
      KeepingIsNoHandover(g, batch[..n], c);
      assert g.pending[batch[n] := c] == g.pending;
    }
  }

  /** Taking and handling one new message, as steps. */
  lemma TakingOne(p: L.Policy, s: State, s': State, h: HandlerId, c: Consumer, answers: Answers)
    returns (steps: seq<Step>)
    requires
      var e := s.stream.delivered;
      || s' == s
      || (e < |s.stream.messages|
          && var (resolution, reply) := answers(e);
             s' == Handling(ReadNewStep(s, h, c), h, s.stream.messages[e], resolution, reply))
    ensures s' == After(p, s, steps)
  {
    if s' == s {
      steps := [];
    } else {
      hide Handling, ReadNewStep, After, ScriptFor, Apply;
      var message := s.stream.messages[s.stream.delivered];
      var (resolution, reply) := answers(s.stream.delivered);
      var script := ScriptFor(h, message, resolution, reply);
      HandlingIsAScript(p, ReadNewStep(s, h, c), h, message, resolution, reply);
      FirstRead(p, s, h, c, script);
      steps := [ReadNew(h, c)] + script;
    }
  }

  lemma FirstRead(p: L.Policy, s: State, h: HandlerId, c: Consumer, rest: seq<Step>)
    ensures After(p, s, [ReadNew(h, c)] + rest) == After(p, ReadNewStep(s, h, c), rest)
  {
    First(p, s, ReadNew(h, c), rest);
    hide After, ReadNewStep;
  }

  lemma CompletionAttempted(p: L.Policy, s: State, h: HandlerId, c: CashOutId)
    requires Sound(s) && Burns(s, h) && CashOutOf(s, h) == c && InPhase(s, h, BurnLanded)
    ensures
      var s', completed := CommitBurnStep(s, h), CompleteCashOut(s.tables, c);
      && Sound(s') && s'.stream == s.stream
      && s'.tables == (if completed.Ok? then completed.value else s.tables)
      && (if completed.Ok? then InPhase(s', h, Finished) else h !in s'.handlers)
      && (completed.Ok? <==> s.tables.cashOuts[c].payoutAmount > 0)
  {
    StepIsSound(p, s, CommitBurn(h));
    hide Sound;
  }

  lemma ReversalAttempted(p: L.Policy, s: State, h: HandlerId, c: CashOutId)
    requires Sound(s) && Burns(s, h) && CashOutOf(s, h) == c && InPhase(s, h, BurnRejected)
    requires s.tables.cashOuts[c].status.Processing?
    ensures
      var s' := CommitReversalStep(s, h);
      && Sound(s') && s'.stream == s.stream && InPhase(s', h, Finished)
      && FailCashOut(s.tables, c) == Ok(s'.tables) && s'.tables.cashOuts[c].status.Failed?
  {
    FailCashOutIsSafe(s.tables, c);
    hide Sound, Safe;
    ReversalGoesThrough(s, h, c);
    hide CommitReversalStep, FailCashOut;
    StepIsSound(p, s, CommitReversal(h));
    assert Apply(p, s, CommitReversal(h)) == CommitReversalStep(s, h);
  }

  lemma ReversalGoesThrough(s: State, h: HandlerId, c: CashOutId)
    requires Burns(s, h) && CashOutOf(s, h) == c && InPhase(s, h, BurnRejected)
    requires s.tables.cashOuts[c].status.Processing? && FailCashOut(s.tables, c).Ok?
    ensures
      var s' := CommitReversalStep(s, h);
      && s'.stream == s.stream && InPhase(s', h, Finished)
      && FailCashOut(s.tables, c) == Ok(s'.tables) && s'.tables.cashOuts[c].status.Failed?
  {
  }

  lemma SuccessAttempted(p: L.Policy, s: State, h: HandlerId, id: RemittanceId, loaded: RemittanceStatus)
    requires Sound(s) && Settles(s, h) && RemittanceOf(s, h) == id && InPhase(s, h, Paid(loaded))
    ensures
      var s', recorded := CommitSuccessStep(s, h), RecordSuccess(s.tables, id, loaded);
      && Sound(s') && s'.stream == s.stream
      && s'.tables == (if recorded.Ok? then recorded.value else s.tables)
      && (if recorded.Ok? then InPhase(s', h, Finished) else h !in s'.handlers)
  {
    StepIsSound(p, s, CommitSuccess(h));
    hide Sound;
  }

  lemma FailureAttempted(
    p: L.Policy, s: State, h: HandlerId, id: RemittanceId, loaded: RemittanceStatus, noted: bool)
    requires Sound(s) && Settles(s, h) && RemittanceOf(s, h) == id && InPhase(s, h, Failing(loaded, noted))
    ensures
      var s', recorded := CommitFailureStep(s, h), RecordFailure(s.tables, id, loaded, noted);
      && Sound(s') && s'.stream == s.stream && Settles(s', h) && RemittanceOf(s', h) == id
      && InPhase(s', h, if recorded.Ok? then Finished else MustFail(false))
      && s'.tables == (if recorded.Ok? then recorded.value else s.tables)
      && (recorded.Err? ==> recorded.error.UniqueViolation?)
  {
    assert RemittancePriced(s.tables.remittances[id]);
    StepIsSound(p, s, CommitFailure(h));
    hide Sound;
  }

  lemma LoadMoves(p: L.Policy, s: State, h: HandlerId, id: RemittanceId, noted: bool)
    requires Sound(s) && Settles(s, h) && RemittanceOf(s, h) == id && InPhase(s, h, MustFail(noted))
    ensures
      var s' := LoadForFailureStep(s, h);
      && Sound(s') && s'.tables == s.tables && s'.stream == s.stream
      && Settles(s', h) && RemittanceOf(s', h) == id && InPhase(s', h, Failing(StatusOf(s, id), noted))
  {
    StepIsSound(p, s, LoadForFailure(h));
    hide Sound;
  }

  lemma FailingLeavesTheStream(s: State, h: HandlerId)
    ensures LoadForFailureStep(s, h).stream == s.stream && CommitFailureStep(s, h).stream == s.stream
  {
  }

  lemma AttemptIsSound(p: L.Policy, s: State, h: HandlerId)
    requires Sound(s)
    ensures Sound(FailureAttempt(s, h)) && FailureAttempt(s, h).stream == s.stream
  {
    FailingLeavesTheStream(s, h);
    FailingLeavesTheStream(LoadForFailureStep(s, h), h);
    hide Sound, LoadForFailureStep, CommitFailureStep;
    StepIsSound(p, s, LoadForFailure(h));
    assert Apply(p, s, LoadForFailure(h)) == LoadForFailureStep(s, h);
    StepIsSound(p, LoadForFailureStep(s, h), CommitFailure(h));
    assert Apply(p, LoadForFailureStep(s, h), CommitFailure(h)) == CommitFailureStep(LoadForFailureStep(s, h), h);
  }
}
