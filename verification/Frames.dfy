/** What one step of the protocol can touch: one handler, one request, one remittance, one cash-out. */
module Frames {
  import opened Wrappers
  import opened Schema
  import opened Transactions
  import opened Stream
  import opened Protocol
  import Limits

  /** The handler a step moves, starts or stops. */
  function Actor(step: Step): Option<HandlerId> {
    match step
    case ReadNew(h, _) => Some(h)
    case Reclaim(h, _, _) => Some(h)
    case Claim(h) => Some(h)
    case Resolve(h, _) => Some(h)
    case Pay(h, _) => Some(h)
    case CommitSuccess(h) => Some(h)
    case LoadForFailure(h) => Some(h)
    case CommitFailure(h) => Some(h)
    case Burn(h, _) => Some(h)
    case CommitBurn(h) => Some(h)
    case CommitReversal(h) => Some(h)
    case Ack(h) => Some(h)
    case Crash(h) => Some(h)
    case _ => None
  }

  lemma OtherHandlersUntouched(p: Limits.Policy, s: State, step: Step, h: HandlerId)
    requires Actor(step) != Some(h)
    ensures var s' := Apply(p, s, step);
            && (h in s'.handlers <==> h in s.handlers)
            && (h in s.handlers ==> s'.handlers[h] == s.handlers[h])
  {
    if step.Commit? {
      CommitTouchesNoHandler(p, s, step.q);
    }
    hide CommitStep;
  }

  lemma CommitTouchesNoHandler(p: Limits.Policy, s: State, q: RequestId)
    ensures var s' := CommitStep(p, s, q);
            && s'.handlers == s.handlers && s'.now == s.now && s'.pool == s.pool
            && s'.stream.delivered == s.stream.delivered && s'.stream.pending == s.stream.pending
            && s.stream.messages <= s'.stream.messages
            && (forall r :: r != q ==> (r in s'.requests <==> r in s.requests))
            && (forall r :: r in s.requests && r != q ==> s'.requests[r] == s.requests[r])
  {
  }

  /** A handler keeps its message for life. */
  lemma HandlersKeepTheirEntry(p: Limits.Policy, s: State, step: Step, h: HandlerId)
    requires h in s.handlers && h in Apply(p, s, step).handlers
    ensures var s' := Apply(p, s, step);
            && s'.handlers[h].entry == s.handlers[h].entry
            && s'.handlers[h].reclaimed == s.handlers[h].reclaimed
  {
    if Actor(step) != Some(h) {
      OtherHandlersUntouched(p, s, step, h);
    }
    hide CommitStep;
  }

  /** A new handler starts by waiting. */
  lemma NewHandlersWait(p: Limits.Policy, s: State, step: Step, h: HandlerId)
    requires h !in s.handlers && h in Apply(p, s, step).handlers
    ensures var s' := Apply(p, s, step);
            && s'.handlers[h].phase.Waiting?
            && (step.ReadNew? || step.Reclaim?) && Actor(step) == Some(h)
            && (step.Reclaim? ==> s'.handlers[h].entry == step.entry && step.entry in s.stream.pending)
            && (step.ReadNew? ==> s'.handlers[h].entry == s.stream.delivered)
            && s'.handlers[h].reclaimed == step.Reclaim?
  {
    if step.Commit? {
      CommitTouchesNoHandler(p, s, step.q);
    }
    hide CommitStep;
  }

  /** The remittance a request is about. */
  function RequestTarget(r: Request): Option<RemittanceId> {
    match r
    case Confirming(id) => Some(id)
    case Queueing(id, _, _) => Some(id)
    case Requeueing(id) => Some(id)
    case Refunding(id) => Some(id)
    case _ => None
  }

  function RequestCashOutTarget(r: Request): Option<CashOutId> {
    match r
    case Approving(id) => Some(id)
    case Rejecting(id, _) => Some(id)
    case _ => None
  }

  /** The existing remittance whose row or history a step may write. */
  function Target(s: State, step: Step): Option<RemittanceId> {
    if step.Commit? then
      if step.q in s.requests then RequestTarget(s.requests[step.q]) else None
    else if (step.Claim? || step.Pay? || step.CommitSuccess? || step.CommitFailure?) && Settles(s, step.h) then
      Some(RemittanceOf(s, step.h))
    else None
  }

  function CashOutTarget(s: State, step: Step): Option<CashOutId> {
    if step.Commit? then
      if step.q in s.requests then RequestCashOutTarget(s.requests[step.q]) else None
    else if (step.Claim? || step.Burn? || step.CommitBurn? || step.CommitReversal?) && Burns(s, step.h) then
      Some(CashOutOf(s, step.h))
    else None
  }

  lemma OtherRemittancesUntouched(p: Limits.Policy, s: State, step: Step, id: RemittanceId)
    requires IsRemittance(s, id) && Target(s, step) != Some(id)
    ensures var s' := Apply(p, s, step);
            && IsRemittance(s', id)
            && s'.tables.remittances[id] == s.tables.remittances[id] && s'.trails[id] == s.trails[id]
  {
    if step.Commit? {
      CommitTouchesOneRemittance(p, s, step.q, id);
    }
    hide CommitStep;
  }

  lemma CommitTouchesOneRemittance(p: Limits.Policy, s: State, q: RequestId, id: RemittanceId)
    requires IsRemittance(s, id) && (q in s.requests ==> RequestTarget(s.requests[q]) != Some(id))
    ensures var s' := CommitStep(p, s, q);
            && IsRemittance(s', id)
            && s'.tables.remittances[id] == s.tables.remittances[id] && s'.trails[id] == s.trails[id]
  {
  }

  lemma OtherCashOutsUntouched(p: Limits.Policy, s: State, step: Step, id: CashOutId)
    requires IsCashOut(s, id) && CashOutTarget(s, step) != Some(id)
    ensures var s' := Apply(p, s, step);
            && IsCashOut(s', id)
            && s'.tables.cashOuts[id] == s.tables.cashOuts[id] && s'.burns[id] == s.burns[id]
  {
    if step.Commit? {
      CommitTouchesOneCashOut(p, s, step.q, id);
    }
    hide CommitStep;
  }

  lemma CommitTouchesOneCashOut(p: Limits.Policy, s: State, q: RequestId, id: CashOutId)
    requires IsCashOut(s, id) && (q in s.requests ==> RequestCashOutTarget(s.requests[q]) != Some(id))
    ensures var s' := CommitStep(p, s, q);
            && IsCashOut(s', id)
            && s'.tables.cashOuts[id] == s.tables.cashOuts[id] && s'.burns[id] == s.burns[id]
  {
  }

  predicate InsertsQuote(s: State, step: Step) {
    step.Commit? && step.q in s.requests && s.requests[step.q].Quoting?
  }

  predicate OpensCashOut(s: State, step: Step) {
    step.Commit? && step.q in s.requests && s.requests[step.q].CashingOut?
  }

  /** Rows are only ever added by a quote and by a cash-out request. */
  lemma NewRowsComeFromRequests(p: Limits.Policy, s: State, step: Step)
    ensures var s' := Apply(p, s, step);
            && (!InsertsQuote(s, step) ==>
                  |s'.tables.remittances| == |s.tables.remittances| && |s'.trails| == |s.trails|)
            && (!OpensCashOut(s, step) ==>
                  |s'.tables.cashOuts| == |s.tables.cashOuts| && |s'.burns| == |s.burns|)
  {
    if step.Commit? {
      CommitAddsRows(p, s, step.q);
    }
    hide CommitStep;
  }

  lemma CommitAddsRows(p: Limits.Policy, s: State, q: RequestId)
    ensures var s' := CommitStep(p, s, q);
            && (!(q in s.requests && s.requests[q].Quoting?) ==>
                  |s'.tables.remittances| == |s.tables.remittances| && |s'.trails| == |s.trails|)
            && (!(q in s.requests && s.requests[q].CashingOut?) ==>
                  |s'.tables.cashOuts| == |s.tables.cashOuts| && |s'.burns| == |s.burns|)
  {
  }

  /** The request a step starts, publishes or ends. */
  function RequestActor(step: Step): Option<RequestId> {
    match step
    case Begin(q, _) => Some(q)
    case Publish(q) => Some(q)
    case Commit(q) => Some(q)
    case Abort(q) => Some(q)
    case _ => None
  }

  lemma OtherRequestsUntouched(p: Limits.Policy, s: State, step: Step, q: RequestId)
    requires RequestActor(step) != Some(q)
    ensures var s' := Apply(p, s, step);
            && (q in s'.requests <==> q in s.requests)
            && (q in s.requests ==> s'.requests[q] == s.requests[q])
  {
    if step.Commit? {
      CommitTouchesNoHandler(p, s, step.q);
    }
    hide CommitStep;
  }

  /** The message stream only grows, and nothing but a delivery or an ack moves its pending list. */
  lemma StreamMovesOnlyBy(p: Limits.Policy, s: State, step: Step)
    ensures var s' := Apply(p, s, step);
            && s.stream.messages <= s'.stream.messages
            && (!step.ReadNew? ==> s'.stream.delivered == s.stream.delivered)
            && (!step.ReadNew? && !step.Reclaim? && !step.Ack? ==> s'.stream.pending == s.stream.pending)
            && (!step.Publish? && !step.Commit? ==> s'.stream.messages == s.stream.messages)
  {
    if step.Commit? {
      CommitTouchesNoHandler(p, s, step.q);
    }
    hide CommitStep;
  }

  /** A step writes log entries only about its target. */
  lemma LogMovesOnlyForTarget(p: Limits.Policy, s: State, step: Step, e: Entry)
    requires e !in s.tables.books.entries && e in Apply(p, s, step).tables.books.entries && e.remittance.Some?
    ensures Target(s, step) == e.remittance
  {
    if step.Commit? {
      CommitLogsOnlyForTarget(p, s, step.q, e);
    }
    hide CommitStep;
  }

  lemma CommitLogsOnlyForTarget(p: Limits.Policy, s: State, q: RequestId, e: Entry)
    requires e !in s.tables.books.entries && e in CommitStep(p, s, q).tables.books.entries && e.remittance.Some?
    ensures q in s.requests && RequestTarget(s.requests[q]) == e.remittance
  {
  }
}
