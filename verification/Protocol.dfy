/**
 The settlement system as a state machine over its own commits: API
 requests that read and later write, a stream with at-least-once delivery,
 any number of message handlers, an XRP Ledger that answers as it likes,
 and a clock.  A step whose guard fails changes nothing.
 */
module Protocol {
  import opened Wrappers
  import opened Schema
  import opened Bookkeeping
  import opened Transactions
  import opened Stream
  import Fees
  import Limits

  type HandlerId = nat
  type RequestId = nat

  /**
   Where one execution of the worker's handle() has got to.  `loaded` is
   the status its session read, `noted` whether the recipient is known.
   */
  datatype Phase =
    | Waiting
    | Claimed
    | Ready(loaded: RemittanceStatus)
    | Paid(loaded: RemittanceStatus)
    | MustFail(noted: bool)
    | Failing(loaded: RemittanceStatus, noted: bool)
    | BurnClaimed
    | BurnLanded
    | BurnRejected
    | Finished

  datatype Handler = Handler(entry: EntryId, reclaimed: bool, phase: Phase)

  /** What looking up the recipient and the two pools comes to. */
  datatype Resolution = Resolved | NoRecipient | NoPool

  /** What an on-chain call comes to; one that raises may still have landed. */
  datatype Reply = Validated | Raised(landed: bool) | NotSubmitted

  /** An API request that has made its checks and not yet committed. */
  datatype Request =
    | Quoting(sender: UserId, recipient: UserId, quote: Fees.Quote, askedAt: Instant)
    | Confirming(remittance: RemittanceId)
    | Queueing(remittance: RemittanceId, loaded: RemittanceStatus, published: bool)
    | Requeueing(remittance: RemittanceId)
    | Refunding(remittance: RemittanceId)
    | CashingOut(user: UserId, price: Fees.CashOutQuote, key: Option<string>)
    | Approving(cashOut: CashOutId)
    | QueueingBurn(cashOut: CashOutId)
    | Rejecting(cashOut: CashOutId, expected: CashOutStatus)

  /** History of one remittance: nothing in the system reads it. */
  datatype Trail = Trail(
    submitted: nat, landed: nat, freshClaims: nat, reclaims: nat, requeues: nat,
    lastClaim: Option<EntryId>, credited: bool)

  /** History of one cash-out. */
  datatype BurnTrail = BurnTrail(submitted: nat, landed: nat, reversal: Option<nat>)

  datatype State = State(
    tables: Tables,
    stream: Group,
    handlers: map<HandlerId, Handler>,
    requests: map<RequestId, Request>,
    trails: seq<Trail>,
    burns: seq<BurnTrail>,
    pool: int,
    now: Instant)

  datatype Step =
    | Begin(q: RequestId, request: Request)
    | Publish(q: RequestId)
    | Commit(q: RequestId)
    | Abort(q: RequestId)
    | ReadNew(h: HandlerId, consumer: Consumer)
    | Reclaim(h: HandlerId, entry: EntryId, consumer: Consumer)
    | Claim(h: HandlerId)
    | Resolve(h: HandlerId, resolution: Resolution)
    | Pay(h: HandlerId, reply: Reply)
    | CommitSuccess(h: HandlerId)
    | LoadForFailure(h: HandlerId)
    | CommitFailure(h: HandlerId)
    | Burn(h: HandlerId, reply: Reply)
    | CommitBurn(h: HandlerId)
    | CommitReversal(h: HandlerId)
    | Ack(h: HandlerId)
    | Crash(h: HandlerId)
    | Tick(seconds: nat)

  const NEW_TRAIL := Trail(0, 0, 0, 0, 0, None, false)
  const NEW_BURN := BurnTrail(0, 0, None)

  function Init(pool: int, now: Instant): State {
    State(Tables(Books(map[], []), [], []), Group([], 0, map[]), map[], map[], [], [], pool, now)
  }

  // -- reading a state ------------------------------------------------------

  predicate IsRemittance(s: State, id: RemittanceId) {
    id < |s.tables.remittances| && id < |s.trails|
  }

  predicate IsCashOut(s: State, id: CashOutId) {
    id < |s.tables.cashOuts| && id < |s.burns|
  }

  predicate HasMessage(s: State, h: HandlerId) {
    h in s.handlers && s.handlers[h].entry < |s.stream.messages|
  }

  function MessageOf(s: State, h: HandlerId): Message
    requires HasMessage(s, h)
  {
    s.stream.messages[s.handlers[h].entry]
  }

  predicate Settles(s: State, h: HandlerId) {
    HasMessage(s, h) && MessageOf(s, h).SettleRemittance? && IsRemittance(s, MessageOf(s, h).remittance)
  }

  predicate Burns(s: State, h: HandlerId) {
    HasMessage(s, h) && MessageOf(s, h).BurnCashOut? && IsCashOut(s, MessageOf(s, h).cashOut)
  }

  function RemittanceOf(s: State, h: HandlerId): RemittanceId
    requires Settles(s, h)
  {
    MessageOf(s, h).remittance
  }

  function CashOutOf(s: State, h: HandlerId): CashOutId
    requires Burns(s, h)
  {
    MessageOf(s, h).cashOut
  }

  function StatusOf(s: State, id: RemittanceId): RemittanceStatus
    requires IsRemittance(s, id)
  {
    s.tables.remittances[id].status
  }

  predicate InPhase(s: State, h: HandlerId, phase: Phase) {
    h in s.handlers && s.handlers[h].phase == phase
  }

  // -- the pieces steps are made of --------------------------------------------

  function Moved(s: State, h: HandlerId, phase: Phase): State
    requires h in s.handlers
  {
    s.(handlers := s.handlers[h := s.handlers[h].(phase := phase)])
  }

  function Stopped(s: State, h: HandlerId): State {
    s.(handlers := s.handlers - {h})
  }

  function Done(s: State, q: RequestId): State {
    s.(requests := s.requests - {q})
  }

  // -- API requests --------------------------------------------------------------

  predicate Priced(q: Fees.Quote) {
    q.send > 0 && q.uctusd > 0
  }

  predicate PricedCashOut(c: Fees.CashOutQuote) {
    c.gross == c.fee + c.net && c.net > 0 && !c.payoutCurrency.UCTUSD?
  }

  /** The checks a request makes on what it reads, before it writes anything. */
  predicate Passes(p: Limits.Policy, s: State, r: Request) {
    match r
    case Quoting(sender, _, quote, askedAt) =>
      && Priced(quote) && askedAt <= s.now
      && Limits.AssertWithinLimits(p, s.tables.remittances, sender, quote.send, askedAt).Ok?
    case Confirming(id) =>
      IsRemittance(s, id) && StatusOf(s, id).Quoted? && !IsQuoteExpired(s.tables.remittances[id], s.now)
    case Queueing(id, loaded, _) =>
      IsRemittance(s, id) && StatusOf(s, id) == loaded && (loaded.CashInConfirmed? || loaded.Queued?)
    case Requeueing(id) =>
      IsRemittance(s, id) && StatusOf(s, id).Failed? && s.tables.remittances[id].cashInConfirmedAt.Some?
    case Refunding(id) =>
      IsRemittance(s, id) && StatusOf(s, id).Failed? && s.tables.remittances[id].cashInConfirmedAt.Some?
    case CashingOut(user, price, key) =>
      PricedCashOut(price) && (key.Some? ==> FindCashOut(s.tables.cashOuts, user, key.value).None?)
    case Approving(id) =>
      IsCashOut(s, id) && s.tables.cashOuts[id].status.Requested?
    case QueueingBurn(id) =>
      IsCashOut(s, id) && s.tables.cashOuts[id].status.Approved?
    case Rejecting(id, expected) =>
      && IsCashOut(s, id) && s.tables.cashOuts[id].status == expected
      && (expected.Requested? || expected.Approved?)
  }

  /** Whether a request writes a remittance that was there before. */
  predicate WritesRemittance(r: Request) {
    r.Confirming? || r.Queueing? || r.Requeueing? || r.Refunding?
  }

  predicate WritesCashOut(r: Request) {
    r.Approving? || r.Rejecting?
  }

  predicate Unpublished(r: Request) {
    r.Queueing? ==> !r.published
  }

  function BeginStep(p: Limits.Policy, s: State, q: RequestId, r: Request): State {
    if q !in s.requests && Unpublished(r) && Passes(p, s, r) then s.(requests := s.requests[q := r]) else s
  }

  function PublishStep(s: State, q: RequestId): State {
    if q in s.requests && s.requests[q].Queueing? && !s.requests[q].published then
      var r := s.requests[q];
      s.(stream := Added(s.stream, SettleRemittance(r.remittance)),
         requests := s.requests[q := r.(published := true)])
    else s
  }

  function Written(s: State, t: Tables): State {
    s.(tables := t)
  }

  /** The write half of a request: it no longer looks at what its checks read. */
  function CommitStep(p: Limits.Policy, s: State, q: RequestId): State {
    if q !in s.requests then s
    else
      match s.requests[q]
      case Quoting(sender, recipient, quote, askedAt) => CommitQuote(p, s, q)
      case Confirming(id) =>
        if IsRemittance(s, id) then Done(Written(s, ConfirmCashIn(s.tables, id, s.now)), q) else s
      case Queueing(id, loaded, published) =>
        if IsRemittance(s, id) && published then
          Done(Written(s, WithStatus(s.tables, id, OrmWrite(StatusOf(s, id), loaded, Queued))), q)
        else s
      case Requeueing(id) =>
        if IsRemittance(s, id) then
          var trail := s.trails[id];
          Done(Written(s, WithStatus(s.tables, id, CashInConfirmed)), q).(
            trails := s.trails[id := trail.(requeues := trail.requeues + 1)])
        else s
      case Refunding(id) =>
        if IsRemittance(s, id) && Refund(s.tables, id).Ok? then
          Done(Written(s, Refund(s.tables, id).value), q)
        else Done(s, q)
      case CashingOut(user, price, key) =>
        var entered := OpenCashOut(s.tables, user, price, key);
        if entered.Ok? then Done(Written(s, entered.value), q).(burns := s.burns + [NEW_BURN]) else Done(s, q)
      case Approving(id) =>
        if IsCashOut(s, id) then
          Done(Written(s, PutCashOut(s.tables, id, s.tables.cashOuts[id].(status := Approved))), q)
        else s
      case QueueingBurn(id) => Done(s, q).(stream := Added(s.stream, BurnCashOut(id)))
      case Rejecting(id, _) =>
        if IsCashOut(s, id) && FailCashOut(s.tables, id).Ok? then Done(Reversed(s, id), q) else Done(s, q)
  }

  function CommitQuote(p: Limits.Policy, s: State, q: RequestId): State
    requires q in s.requests && s.requests[q].Quoting?
  {
    var r := s.requests[q];
    var row := NewQuote(r.sender, r.recipient, r.quote, s.now, r.askedAt + p.quoteTtl);
    var inserted := InsertQuote(s.tables, p, row, r.askedAt);
    if inserted.Ok? then Done(Written(s, inserted.value), q).(trails := s.trails + [NEW_TRAIL]) else Done(s, q)
  }

  /** A cash-out failed and refunded, with the refund's place in the log remembered. */
  function Reversed(s: State, id: CashOutId): State
    requires IsCashOut(s, id) && FailCashOut(s.tables, id).Ok?
  {
    Written(s, FailCashOut(s.tables, id).value).(
      burns := s.burns[id := s.burns[id].(reversal := Some(|s.tables.books.entries|))])
  }

  // -- delivery ----------------------------------------------------------------

  function ReadNewStep(s: State, h: HandlerId, c: Consumer): State {
    if h !in s.handlers && s.stream.delivered < |s.stream.messages| then
      s.(stream := Delivered(s.stream, c),
         handlers := s.handlers[h := Handler(s.stream.delivered, false, Waiting)])
    else s
  }

  function ReclaimStep(s: State, h: HandlerId, e: EntryId, c: Consumer): State {
    if h !in s.handlers && e in s.stream.pending then
      s.(stream := Reassigned(s.stream, e, c), handlers := s.handlers[h := Handler(e, true, Waiting)])
    else s
  }

  function AckStep(s: State, h: HandlerId): State {
    if InPhase(s, h, Finished) then
      Stopped(s, h).(stream := Acked(s.stream, s.handlers[h].entry))
    else s
  }

  // -- settling a remittance ------------------------------------------------------

  function ClaimStep(s: State, h: HandlerId): State {
    if !InPhase(s, h, Waiting) then s
    else if Settles(s, h) && Claimable(StatusOf(s, RemittanceOf(s, h)), s.handlers[h].reclaimed) then
      var id := RemittanceOf(s, h);
      var trail := s.trails[id];
      var again := StatusOf(s, id).Settling?;
      Moved(Written(s, WithStatus(s.tables, id, Settling)), h, Claimed).(
        trails := s.trails[id := trail.(
          lastClaim := Some(s.handlers[h].entry),
          freshClaims := trail.freshClaims + (if again then 0 else 1),
          reclaims := trail.reclaims + (if again then 1 else 0))])
    else if Burns(s, h) && s.tables.cashOuts[CashOutOf(s, h)].status.Approved? then
      var id := CashOutOf(s, h);
      Moved(Written(s, PutCashOut(s.tables, id, s.tables.cashOuts[id].(status := Processing))), h, BurnClaimed)
    else Moved(s, h, Finished)
  }

  function ResolveStep(s: State, h: HandlerId, r: Resolution): State {
    if InPhase(s, h, Claimed) && Settles(s, h) then
      match r
      case Resolved => Moved(s, h, Ready(StatusOf(s, RemittanceOf(s, h))))
      case NoRecipient => Moved(s, h, MustFail(false))
      case NoPool => Moved(s, h, MustFail(true))
    else s
  }

  function Landed(r: Reply): nat {
    if r.Validated? || (r.Raised? && r.landed) then 1 else 0
  }

  function Submitted(r: Reply): nat {
    if r.NotSubmitted? then 0 else 1
  }

  function PayStep(s: State, h: HandlerId, r: Reply): State {
    if Settles(s, h) && s.handlers[h].phase.Ready? then
      var id := RemittanceOf(s, h);
      var trail := s.trails[id];
      Moved(s, h, if r.Validated? then Paid(s.handlers[h].phase.loaded) else MustFail(true)).(
        trails := s.trails[id := trail.(
          submitted := trail.submitted + Submitted(r), landed := trail.landed + Landed(r))],
        pool := s.pool + Landed(r) * s.tables.remittances[id].uctusd)
    else s
  }

  /** A ledger write that fails after the payment leaves the message unacked. */
  function CommitSuccessStep(s: State, h: HandlerId): State {
    if Settles(s, h) && s.handlers[h].phase.Paid? then
      var id := RemittanceOf(s, h);
      var recorded := RecordSuccess(s.tables, id, s.handlers[h].phase.loaded);
      if recorded.Ok? then
        Moved(Written(s, recorded.value), h, Finished).(
          trails := s.trails[id := s.trails[id].(credited := true)])
      else Stopped(s, h)
    else s
  }

  function LoadForFailureStep(s: State, h: HandlerId): State {
    if Settles(s, h) && s.handlers[h].phase.MustFail? then
      Moved(s, h, Failing(StatusOf(s, RemittanceOf(s, h)), s.handlers[h].phase.noted))
    else s
  }

  /** A second failed entry is refused by the unique key; the failure is then recorded without one. */
  function CommitFailureStep(s: State, h: HandlerId): State {
    if Settles(s, h) && s.handlers[h].phase.Failing? then
      var f := s.handlers[h].phase;
      var recorded := RecordFailure(s.tables, RemittanceOf(s, h), f.loaded, f.noted);
      if recorded.Ok? then Moved(Written(s, recorded.value), h, Finished)
      else Moved(s, h, MustFail(false))
    else s
  }

  // -- burning a cash-out ------------------------------------------------------------

  function BurnStep(s: State, h: HandlerId, r: Reply): State {
    if Burns(s, h) && s.handlers[h].phase.BurnClaimed? then
      var id := CashOutOf(s, h);
      var burn := s.burns[id];
      Moved(s, h, if r.Validated? then BurnLanded else BurnRejected).(
        burns := s.burns[id := burn.(submitted := burn.submitted + Submitted(r), landed := burn.landed + Landed(r))],
        pool := s.pool - Landed(r) * s.tables.cashOuts[id].net)
    else s
  }

  function CommitBurnStep(s: State, h: HandlerId): State {
    if Burns(s, h) && s.handlers[h].phase.BurnLanded? then
      var completed := CompleteCashOut(s.tables, CashOutOf(s, h));
      if completed.Ok? then Moved(Written(s, completed.value), h, Finished) else Stopped(s, h)
    else s
  }

  function CommitReversalStep(s: State, h: HandlerId): State {
    if Burns(s, h) && s.handlers[h].phase.BurnRejected? then
      var id := CashOutOf(s, h);
      if s.tables.cashOuts[id].status.Processing? && FailCashOut(s.tables, id).Ok? then
        Moved(Reversed(s, id), h, Finished)
      else Stopped(s, h)
    else s
  }

  // -- the machine ---------------------------------------------------------------------

  function Apply(p: Limits.Policy, s: State, step: Step): State {
    match step
    case Begin(q, r) => BeginStep(p, s, q, r)
    case Publish(q) => PublishStep(s, q)
    case Commit(q) => CommitStep(p, s, q)
    case Abort(q) => Done(s, q)
    case ReadNew(h, c) => ReadNewStep(s, h, c)
    case Reclaim(h, e, c) => ReclaimStep(s, h, e, c)
    case Claim(h) => ClaimStep(s, h)
    case Resolve(h, r) => ResolveStep(s, h, r)
    case Pay(h, r) => PayStep(s, h, r)
    case CommitSuccess(h) => CommitSuccessStep(s, h)
    case LoadForFailure(h) => LoadForFailureStep(s, h)
    case CommitFailure(h) => CommitFailureStep(s, h)
    case Burn(h, r) => BurnStep(s, h, r)
    case CommitBurn(h) => CommitBurnStep(s, h)
    case CommitReversal(h) => CommitReversalStep(s, h)
    case Ack(h) => AckStep(s, h)
    case Crash(h) => Stopped(s, h)
    case Tick(d) => s.(now := s.now + d)
  }

  function After(p: Limits.Policy, s: State, steps: seq<Step>): State
    decreases |steps|
  {
    if steps == [] then s else After(p, Apply(p, s, steps[0]), steps[1..])
  }

  // -- assumptions about the environment ---------------------------------------------

  /** A burn that raised did not land. */
  predicate RaisedBurnDidNotLand(step: Step) {
    step.Burn? ==> step.reply != Raised(true)
  }

  /** An unacked message is handed over only once its earlier handler has stopped. */
  ghost predicate HandoverAfterStop(s: State, step: Step) {
    step.Reclaim? ==> forall h :: h in s.handlers ==> s.handlers[h].entry != step.entry
  }

  /** The checks a request made would still pass as it commits. */
  predicate CommitsFresh(p: Limits.Policy, s: State, step: Step) {
    step.Commit? && step.q in s.requests ==> Passes(p, s, s.requests[step.q])
  }

  /** ...if it confirms, queues, requeues or refunds a remittance. */
  predicate RemittanceChecksPass(p: Limits.Policy, s: State, step: Step) {
    step.Commit? && step.q in s.requests && WritesRemittance(s.requests[step.q]) ==>
      Passes(p, s, s.requests[step.q])
  }

  /** ...if it approves or rejects a cash-out. */
  predicate CashOutChecksPass(p: Limits.Policy, s: State, step: Step) {
    step.Commit? && step.q in s.requests && WritesCashOut(s.requests[step.q]) ==>
      Passes(p, s, s.requests[step.q])
  }

  /** A handler that has claimed its remittance and not yet written an outcome. */
  predicate Working(s: State, h: HandlerId) {
    h in s.handlers && !s.handlers[h].phase.Waiting? && !s.handlers[h].phase.Finished?
  }

  /** No message of a remittance is claimed while another handler is at work on it. */
  ghost predicate OneWorkerPerRemittance(s: State, step: Step) {
    step.Claim? && Settles(s, step.h) ==>
      forall h :: h in s.handlers && h != step.h && Working(s, h) && Settles(s, h) ==>
        RemittanceOf(s, h) != RemittanceOf(s, step.h)
  }

  datatype Assumed = Assumed(
    burns: bool, handover: bool, remittanceChecks: bool, cashOutChecks: bool, oneWorker: bool)

  ghost predicate Permitted(p: Limits.Policy, s: State, step: Step, a: Assumed) {
    && (a.burns ==> RaisedBurnDidNotLand(step))
    && (a.handover ==> HandoverAfterStop(s, step))
    && (a.remittanceChecks ==> RemittanceChecksPass(p, s, step))
    && (a.cashOutChecks ==> CashOutChecksPass(p, s, step))
    && (a.oneWorker ==> OneWorkerPerRemittance(s, step))
  }

  ghost predicate Run(p: Limits.Policy, s: State, steps: seq<Step>, a: Assumed)
    decreases |steps|
  {
    steps != [] ==> Permitted(p, s, steps[0], a) && Run(p, Apply(p, s, steps[0]), steps[1..], a)
  }
}
