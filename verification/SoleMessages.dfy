/**
 One worker per remittance, exactly when it holds: with clean handovers it
 is enough, and in the end necessary, that no remittance has two live
 messages.  A publisher can see to that by looking before it publishes.
 */
module SoleMessages {
  import opened Wrappers
  import opened Schema
  import opened Transactions
  import opened Stream
  import opened Protocol
  import opened TableSafety
  import opened SettlementSafety
  import opened Frames
  import opened Funding
  import opened Recovery
  import opened OneWorker
  import L = Limits
  import LS = LimitSafety

  // -- live messages ---------------------------------------------------------------------

  /** A message about a remittance that is still to be delivered or still unacked. */
  predicate Live(s: State, e: EntryId, id: RemittanceId) {
    && e < |s.stream.messages| && s.stream.messages[e] == SettleRemittance(id)
    && (s.stream.delivered <= e || e in s.stream.pending)
  }

  ghost predicate SoleMessage(s: State, id: RemittanceId) {
    forall e, f :: Live(s, e, id) && Live(s, f, id) ==> e == f
  }

  ghost predicate AllSole(s: State) {
    forall id :: SoleMessage(s, id)
  }

  /** Whether a step publishes a message about a remittance. */
  predicate PublishesFor(s: State, step: Step, id: RemittanceId) {
    && step.Publish? && step.q in s.requests
    && s.requests[step.q].Queueing? && !s.requests[step.q].published && s.requests[step.q].remittance == id
  }

  /** A message is published only for a remittance that has none live. */
  ghost predicate PublishesOnce(s: State, step: Step) {
    forall e, id :: PublishesFor(s, step, id) ==> !Live(s, e, id)
  }

  ghost predicate Sparing(p: L.Policy, s: State, steps: seq<Step>)
    decreases |steps|
  {
    steps != [] ==> PublishesOnce(s, steps[0]) && Sparing(p, Apply(p, s, steps[0]), steps[1..])
  }

  /** A message is live only if it was before, or has just been published. */
  lemma LiveComesFrom(p: L.Policy, s: State, step: Step, e: EntryId, id: RemittanceId)
    requires Sound(s) && Live(Apply(p, s, step), e, id)
    ensures Live(s, e, id) || (PublishesFor(s, step, id) && e == |s.stream.messages|)
  {
    StreamMovesOnlyBy(p, s, step);
    PartsAreSound(s);
    if e < |s.stream.messages| {
      NothingBecomesLiveAgain(p, s, step, e);
    } else {
      OnlyPublishingAdds(p, s, step, e, id);
    }
    hide Sound, Apply;
  }

  lemma NothingBecomesLiveAgain(p: L.Policy, s: State, step: Step, e: EntryId)
    requires WellFormed(s.stream) && e < |s.stream.messages|
    ensures var g := Apply(p, s, step).stream;
            g.delivered <= e || e in g.pending ==> s.stream.delivered <= e || e in s.stream.pending
  {
    StreamMovesOnlyBy(p, s, step);
    hide CommitStep;
  }

  lemma OnlyPublishingAdds(p: L.Policy, s: State, step: Step, e: EntryId, id: RemittanceId)
    requires |s.stream.messages| <= e < |Apply(p, s, step).stream.messages|
    requires Apply(p, s, step).stream.messages[e] == SettleRemittance(id)
    ensures PublishesFor(s, step, id) && e == |s.stream.messages|
  {
    StreamMovesOnlyBy(p, s, step);
  }

  lemma StepKeepsSole(p: L.Policy, s: State, step: Step, id: RemittanceId)
    requires Sound(s) && SoleMessage(s, id) && PublishesOnce(s, step)
    ensures SoleMessage(Apply(p, s, step), id)
  {
    var s' := Apply(p, s, step);
    hide Sound, Apply, PublishesFor, Live;
    forall e, f | Live(s', e, id) && Live(s', f, id)
      ensures e == f
    {
      LiveComesFrom(p, s, step, e, id);
      LiveComesFrom(p, s, step, f, id);
    }
  }

  // -- one live message, one worker -----------------------------------------------------------

  lemma HandlersHoldLiveMessages(s: State, h: HandlerId, id: RemittanceId)
    requires Sound(s) && Recoverable(s) && h in s.handlers && Settles(s, h) && RemittanceOf(s, h) == id
    ensures Live(s, s.handlers[h].entry, id)
  {
    assert HandlerOrderly(s, h);
    hide Sound, Recoverable;
  }

  /** Two handlers of one remittance hold two live messages about it. */
  lemma TwoHandlersTwoMessages(s: State, g: HandlerId, h: HandlerId, id: RemittanceId)
    requires Sound(s) && Recoverable(s) && g != h && g in s.handlers && h in s.handlers
    requires Settles(s, g) && RemittanceOf(s, g) == id && Settles(s, h) && RemittanceOf(s, h) == id
    ensures !SoleMessage(s, id)
  {
    HandlersHoldLiveMessages(s, g, id);
    HandlersHoldLiveMessages(s, h, id);
    assert s.handlers[g].entry != s.handlers[h].entry;
    hide Sound, Recoverable, Live;
  }

  /** With clean handovers a remittance with one live message can only be claimed by its one worker. */
  lemma SoleMessageMeansOneWorker(s: State, h: HandlerId)
    requires Sound(s) && Recoverable(s) && h in s.handlers && Settles(s, h) && SoleMessage(s, RemittanceOf(s, h))
    ensures OneWorkerPerRemittance(s, Claim(h))
  {
    forall g | g in s.handlers && g != h && Working(s, g) && Settles(s, g)
      ensures RemittanceOf(s, g) != RemittanceOf(s, h)
    {
      if RemittanceOf(s, g) == RemittanceOf(s, h) {
        TwoHandlersTwoMessages(s, g, h, RemittanceOf(s, h));
      }
    }
    hide Sound, Recoverable, SoleMessage;
  }

  /** So the steps of such a state are careful ones, with nothing assumed about workers. */
  lemma StepsAreCareful(p: L.Policy, s: State, step: Step)
    requires Sound(s) && Recoverable(s) && AllSole(s) && RemittanceChecksPass(p, s, step)
    ensures Careful(p, s, step)
  {
    if step.Claim? && Settles(s, step.h) {
      SoleMessageMeansOneWorker(s, step.h);
    }
    hide Sound, Recoverable, SoleMessage;
  }

  function WithOneWorker(a: Assumed): Assumed {
    a.(oneWorker := true)
  }

  /** Over whole runs: clean handovers and careful publishing leave one worker per remittance. */
  lemma {:induction false} SoleMessagesMeanOneWorker(p: L.Policy, s: State, steps: seq<Step>, a: Assumed)
    requires Sound(s) && Recoverable(s) && AllSole(s)
    requires Run(p, s, steps, a) && a.handover && Sparing(p, s, steps)
    ensures Run(p, s, steps, WithOneWorker(a)) && AllSole(After(p, s, steps))
    ensures Sound(After(p, s, steps)) && Recoverable(After(p, s, steps))
    decreases |steps|
  {
    if steps != [] {
      var step := steps[0];
      assert Permitted(p, s, step, WithOneWorker(a)) by {
        if step.Claim? && Settles(s, step.h) {
          SoleMessageMeansOneWorker(s, step.h);
        }
        hide Sound, Recoverable, SoleMessage, RemittanceChecksPass, HandoverAfterStop;
      }
      hide Sound, Recoverable, Apply, Permitted, SoleMessage, PublishesOnce;
      OneCleanStep(p, s, step, a);
      forall id
        ensures SoleMessage(Apply(p, s, step), id)
      {
        StepKeepsSole(p, s, step, id);
      }
      SoleMessagesMeanOneWorker(p, Apply(p, s, step), steps[1..], a);
    }
  }

  lemma OneCleanStep(p: L.Policy, s: State, step: Step, a: Assumed)
    requires Sound(s) && Recoverable(s) && Permitted(p, s, step, a) && a.handover
    ensures Sound(Apply(p, s, step)) && Recoverable(Apply(p, s, step))
  {
    hide Sound, Recoverable, Apply, Permitted;
    SingleStep(p, s, step, a);
    RunStaysRecoverable(p, s, [step], a);
  }

  // -- what follows without assuming one worker ---------------------------------------------------

  /** Atomic requests, clean handovers and careful publishing, from an empty system. */
  ghost predicate WellRun(p: L.Policy, pool: int, now: Instant, steps: seq<Step>, a: Assumed) {
    Run(p, Init(pool, now), steps, a) && a.handover && a.remittanceChecks && Sparing(p, Init(pool, now), steps)
  }

  lemma WellRunHasOneWorker(p: L.Policy, pool: int, now: Instant, steps: seq<Step>, a: Assumed)
    requires WellRun(p, pool, now, steps, a)
    ensures Run(p, Init(pool, now), steps, WithOneWorker(a))
    ensures var s := After(p, Init(pool, now), steps); Sound(s) && Recoverable(s) && AllSole(s)
  {
    InitIsRecoverable(pool, now);
    InitIsSound(pool, now);
    assert AllSole(Init(pool, now));
    hide Sound, Recoverable, AllSole, Run, Sparing;
    SoleMessagesMeanOneWorker(p, Init(pool, now), steps, a);
  }

  /** SETTLED means credited and REFUNDED means refunded, both ways. */
  lemma StatusAndLedgerAgreeWhenWellRun(
    p: L.Policy, pool: int, now: Instant, steps: seq<Step>, a: Assumed, id: RemittanceId)
    requires WellRun(p, pool, now, steps, a)
    requires IsRemittance(After(p, Init(pool, now), steps), id)
    ensures
      var s := After(p, Init(pool, now), steps);
      && (StatusOf(s, id).Settled? <==> IsCredited(s.tables, id))
      && (StatusOf(s, id).Refunded? <==> IsRefunded(s.tables, id))
  {
    WellRunHasOneWorker(p, pool, now, steps, a);
    StatusAndLedgerAgree(p, pool, now, steps, WithOneWorker(a), id);
  }

  /** Neither status is ever left. */
  lemma FinalStatusIsFinalWhenWellRun(
    p: L.Policy, pool: int, now: Instant, steps: seq<Step>, more: seq<Step>, a: Assumed, id: RemittanceId)
    requires WellRun(p, pool, now, steps, a)
    requires Run(p, After(p, Init(pool, now), steps), more, a) && Sparing(p, After(p, Init(pool, now), steps), more)
    requires var s := After(p, Init(pool, now), steps);
             IsRemittance(s, id) && (StatusOf(s, id).Settled? || StatusOf(s, id).Refunded?)
    ensures
      var s := After(p, Init(pool, now), steps);
      var s' := After(p, s, more);
      IsRemittance(s', id) && StatusOf(s', id) == StatusOf(s, id)
  {
    WellRunHasOneWorker(p, pool, now, steps, a);
    InitIsSound(pool, now);
    RunStaysExclusive(p, Init(pool, now), steps, WithOneWorker(a));
    var s := After(p, Init(pool, now), steps);
    hide Sound, Recoverable, AllSole, Exclusive, Run, Sparing, After;
    SoleMessagesMeanOneWorker(p, s, more, a);
    FinalStatusIsFinal(p, s, more, WithOneWorker(a), id);
  }

  /** No sender ever exceeds a limit. */
  lemma NoSenderExceedsALimitWhenWellRun(
    p: L.Policy, pool: int, now: Instant, steps: seq<Step>, a: Assumed, sender: UserId)
    requires L.IsCalendar(p) && WellRun(p, pool, now, steps, a)
    ensures
      var s := After(p, Init(pool, now), steps);
      && L.DailyTotal(s.tables.remittances, sender, s.now) <= p.dailyLimit
      && L.MonthlyTotal(p, s.tables.remittances, sender, s.now) <= p.monthlyLimit
  {
    WellRunHasOneWorker(p, pool, now, steps, a);
    LS.NoSenderEverExceedsALimit(p, pool, now, steps, WithOneWorker(a), sender);
  }

  /** Usage rises only by a quote, at every step of such a run. */
  lemma UsageRisesOnlyByAQuoteWhenWellRun(
    p: L.Policy, pool: int, now: Instant, steps: seq<Step>, a: Assumed, step: Step, sender: UserId)
    requires L.IsCalendar(p) && WellRun(p, pool, now, steps, a)
    requires var s := After(p, Init(pool, now), steps); RemittanceChecksPass(p, s, step) && !InsertsQuote(s, step)
    ensures
      var s := After(p, Init(pool, now), steps);
      var s' := Apply(p, s, step);
      && L.DailyTotal(s'.tables.remittances, sender, s'.now) <= L.DailyTotal(s.tables.remittances, sender, s.now)
      && L.MonthlyTotal(p, s'.tables.remittances, sender, s'.now)
           <= L.MonthlyTotal(p, s.tables.remittances, sender, s.now)
  {
    var s := After(p, Init(pool, now), steps);
    WellRunHasOneWorker(p, pool, now, steps, a);
    InitIsSound(pool, now);
    RunStaysExclusive(p, Init(pool, now), steps, WithOneWorker(a));
    RunStaysFunded(p, Init(pool, now), steps);
    StepsAreCareful(p, s, step);
    hide Sound, Recoverable, Exclusive, Funded, AllSole, Run, Sparing, After, Apply;
    LS.UsageRisesOnlyByAQuote(p, s, step, sender);
  }

  // -- and two live messages are enough for two workers ----------------------------------------------

  ghost predicate TwoWorkers(s: State, id: RemittanceId) {
    exists g, h :: g != h && OnIts(s, g, id) && OnIts(s, h, id)
  }

  /** What an orderly run can reach without publishing for a remittance that has a live message. */
  ghost predicate Leads(p: L.Policy, s: State, s': State) {
    exists steps :: Run(p, s, steps, ORDERLY) && Sparing(p, s, steps) && After(p, s, steps) == s'
  }

  lemma LeadsToItself(p: L.Policy, s: State)
    ensures Leads(p, s, s)
  {
    assert Run(p, s, [], ORDERLY) && Sparing(p, s, []) && After(p, s, []) == s;
  }

  /** One step before a way already found. */
  lemma LeadsBy(p: L.Policy, s: State, step: Step, s': State)
    requires Permitted(p, s, step, ORDERLY) && PublishesOnce(s, step) && Leads(p, Apply(p, s, step), s')
    ensures Leads(p, s, s')
  {
    var rest :| Run(p, Apply(p, s, step), rest, ORDERLY) && Sparing(p, Apply(p, s, step), rest)
                && After(p, Apply(p, s, step), rest) == s';
    hide Apply, Permitted, PublishesOnce;
    var steps := [step] + rest;
    assert steps[0] == step && steps[1..] == rest;
    assert Run(p, s, steps, ORDERLY) && Sparing(p, s, steps) && After(p, s, steps) == s';
  }

  /** A worker on a SETTLING row, and another live message about the row. */
  ghost predicate Doubled(s: State, h: HandlerId, f: EntryId, id: RemittanceId) {
    && OneHandlerPerMessage(s)
    && OnIts(s, h, id) && StatusOf(s, id).Settling?
    && Live(s, f, id) && s.handlers[h].entry != f
  }

  lemma SecondClaim(p: L.Policy, s: State, h: HandlerId, g: HandlerId, f: EntryId, id: RemittanceId)
    requires Doubled(s, h, f, id) && f in s.stream.pending && g !in s.handlers
    requires forall k :: k in s.handlers ==> s.handlers[k].entry != f
    ensures Permitted(p, s, Reclaim(g, f, "worker"), ORDERLY)
    ensures Permitted(p, ReclaimStep(s, g, f, "worker"), Claim(g), ORDERLY)
    ensures TwoWorkers(ClaimStep(ReclaimStep(s, g, f, "worker"), g), id)
  {
    var s1 := ReclaimStep(s, g, f, "worker");
    assert Settles(s1, g) && RemittanceOf(s1, g) == id;
    var s2 := ClaimStep(s1, g);
    assert OnIts(s2, g, id) && OnIts(s2, h, id);
  }

  lemma AnotherHandlerDies(p: L.Policy, s: State, h: HandlerId, k: HandlerId, f: EntryId, id: RemittanceId)
    requires Doubled(s, h, f, id) && k in s.handlers && s.handlers[k].entry == f
    ensures Permitted(p, s, Crash(k), ORDERLY) && Doubled(Stopped(s, k), h, f, id)
    ensures forall g :: g in Stopped(s, k).handlers ==> g in s.handlers && s.handlers[g].entry != f
    ensures Stopped(s, k).stream == s.stream
  {
  }

  /** A pending message can be taken over from whoever holds it and claimed beside the worker. */
  lemma PendingDoubles(p: L.Policy, s: State, h: HandlerId, f: EntryId, id: RemittanceId) returns (s': State)
    requires Doubled(s, h, f, id) && f in s.stream.pending
    ensures Leads(p, s, s') && TwoWorkers(s', id)
  {
    var g := FreshId(s.handlers);
    if k :| k in s.handlers && s.handlers[k].entry == f {
      AnotherHandlerDies(p, s, h, k, f, id);
      s' := SecondClaimLeads(p, Stopped(s, k), h, g, f, id);
      hide Permitted, Doubled, TwoWorkers, Leads, Stopped;
      LeadsBy(p, s, Crash(k), s');
    } else {
      s' := SecondClaimLeads(p, s, h, g, f, id);
    }
  }

  lemma SecondClaimLeads(p: L.Policy, s: State, h: HandlerId, g: HandlerId, f: EntryId, id: RemittanceId)
    returns (s': State)
    requires Doubled(s, h, f, id) && f in s.stream.pending && g !in s.handlers
    requires forall k :: k in s.handlers ==> s.handlers[k].entry != f
    ensures Leads(p, s, s') && TwoWorkers(s', id)
  {
    SecondClaim(p, s, h, g, f, id);
    hide Permitted, Doubled, TwoWorkers, Leads, ReclaimStep, ClaimStep;
    var s1 := ReclaimStep(s, g, f, "worker");
    s' := ClaimStep(s1, g);
    LeadsToItself(p, s');
    LeadsBy(p, s1, Claim(g), s');
    LeadsBy(p, s, Reclaim(g, f, "worker"), s');
  }

  lemma OneMoreDelivered(p: L.Policy, s: State, h: HandlerId, g: HandlerId, f: EntryId, id: RemittanceId)
    requires Doubled(s, h, f, id) && s.stream.delivered <= f && g !in s.handlers
    requires forall k :: k in s.handlers ==> s.handlers[k].entry < s.stream.delivered
    ensures
      var s1 := ReadNewStep(s, g, "worker");
      && Doubled(s1, h, f, id) && s1.stream.messages == s.stream.messages && s1.stream.delivered == s.stream.delivered + 1
      && (f == s.stream.delivered ==> f in s1.stream.pending)
      && forall k :: k in s1.handlers ==> s1.handlers[k].entry < s1.stream.delivered
  {
  }

  /** An undelivered message can be delivered first, behind the rest of the backlog. */
  lemma {:induction false} BacklogDoubles(p: L.Policy, s: State, h: HandlerId, f: EntryId, id: RemittanceId)
    returns (s': State)
    requires Doubled(s, h, f, id) && s.stream.delivered <= f < |s.stream.messages|
    requires forall k :: k in s.handlers ==> s.handlers[k].entry < s.stream.delivered
    ensures Leads(p, s, s') && TwoWorkers(s', id)
    decreases f - s.stream.delivered
  {
    var g := FreshId(s.handlers);
    OneMoreDelivered(p, s, h, g, f, id);
    hide Doubled, TwoWorkers, Leads, ReadNewStep;
    var s1 := ReadNewStep(s, g, "worker");
    if f == s.stream.delivered {
      s' := PendingDoubles(p, s1, h, f, id);
    } else {
      s' := BacklogDoubles(p, s1, h, f, id);
    }
    LeadsBy(p, s, ReadNew(g, "worker"), s');
  }

  lemma SecondMessageDoubles(p: L.Policy, s: State, h: HandlerId, f: EntryId, id: RemittanceId) returns (s': State)
    requires Sound(s) && Doubled(s, h, f, id)
    ensures Leads(p, s, s') && TwoWorkers(s', id)
  {
    forall k | k in s.handlers
      ensures s.handlers[k].entry < s.stream.delivered
    {
      HandlerIsSound(s, k);
    }
    hide Sound, TwoWorkers, Leads, OneHandlerPerMessage, OnIts;
    if f in s.stream.pending {
      s' := PendingDoubles(p, s, h, f, id);
    } else {
      s' := BacklogDoubles(p, s, h, f, id);
    }
  }

  /** With one live message no such run ever has two workers. */
  lemma SoleMessageNeverDoubles(p: L.Policy, s: State, s': State, id: RemittanceId)
    requires Sound(s) && Recoverable(s) && SoleMessage(s, id) && Leads(p, s, s')
    ensures !TwoWorkers(s', id)
  {
    var steps :| Run(p, s, steps, ORDERLY) && Sparing(p, s, steps) && After(p, s, steps) == s';
    RunKeepsSole(p, s, steps, id);
    if g, h :| g != h && OnIts(s', g, id) && OnIts(s', h, id) {
      TwoHandlersTwoMessages(s', g, h, id);
    }
    hide Sound, Recoverable, SoleMessage, Run, Sparing, After;
  }

  lemma {:induction false} RunKeepsSole(p: L.Policy, s: State, steps: seq<Step>, id: RemittanceId)
    requires Sound(s) && Recoverable(s) && SoleMessage(s, id) && Run(p, s, steps, ORDERLY) && Sparing(p, s, steps)
    ensures var s' := After(p, s, steps); Sound(s') && Recoverable(s') && SoleMessage(s', id)
    decreases |steps|
  {
    if steps != [] {
      hide Sound, Recoverable, Apply, Permitted, SoleMessage, PublishesOnce;
      OneCleanStep(p, s, steps[0], ORDERLY);
      StepKeepsSole(p, s, steps[0], id);
      RunKeepsSole(p, Apply(p, s, steps[0]), steps[1..], id);
    }
  }

  /**
   The comment on RECLAIMABLE, made exact.  While a worker settles a
   remittance, clean handovers can put a second one beside it if and only if
   a second message about the remittance is live.
   */
  lemma SecondWorkerExactlyWithSecondMessage(p: L.Policy, s: State, h: HandlerId, id: RemittanceId)
    requires Sound(s) && Recoverable(s) && OnIts(s, h, id) && StatusOf(s, id).Settling?
    ensures (exists s' :: Leads(p, s, s') && TwoWorkers(s', id)) <==> !SoleMessage(s, id)
  {
    if SoleMessage(s, id) {
      forall s' | Leads(p, s, s')
        ensures !TwoWorkers(s', id)
      {
        SoleMessageNeverDoubles(p, s, s', id);
      }
    } else {
      var e, f :| Live(s, e, id) && Live(s, f, id) && e != f;
      var other := if s.handlers[h].entry == e then f else e;
      assert OneHandlerPerMessage(s);
      hide Sound, Recoverable, OneHandlerPerMessage, Leads, TwoWorkers;
      var s' := SecondMessageDoubles(p, s, h, other, id);
    }
  }
}
