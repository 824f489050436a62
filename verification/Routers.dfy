/**
 The API's money endpoints (routers/remittances.py, routers/wallet.py,
 routers/admin.py).  Each runs here start to finish; `world` is the
 protocol state its database and queue stand for, so every commit an
 endpoint makes is shown to be a step the protocol already has.
 */
module Routers {
  import opened Wrappers
  import opened Schema
  import opened Bookkeeping
  import opened Transactions
  import opened Stream
  import opened Protocol
  import opened Database
  import opened LedgerService
  import opened QueueService
  import opened CashService
  import Fees
  import Idempotency
  import L = Limits

  datatype Refusal =
    | NotFound
    | Forbidden(limit: L.LimitError)
    | Unpriceable(fee: Fees.FeeError)
    | Conflict(service: ServiceError)

  /** What a confirmation answers: paid in, and whether the queue has it. */
  datatype Confirmation = Confirmation(queued: bool)

  // -- the endpoints as protocol steps ------------------------------------------------------

  /** A request that checks and commits with nothing in between. */
  function Atomically(p: L.Policy, s: State, q: RequestId, r: Request): State {
    CommitStep(p, BeginStep(p, s, q, r), q)
  }

  /** The publishing half of a confirmation, against a queue that takes the message or does not. */
  function Publishing(p: L.Policy, s: State, q: RequestId, id: RemittanceId, up: bool): State
    requires IsRemittance(s, id)
  {
    if up then CommitStep(p, PublishStep(BeginStep(p, s, q, Queueing(id, StatusOf(s, id), false)), q), q) else s
  }

  lemma RefusedRequestsChangeNothing(p: L.Policy, s: State, q: RequestId, r: Request)
    requires q !in s.requests && (!Unpublished(r) || !Passes(p, s, r))
    ensures Atomically(p, s, q, r) == s
  {
  }

  lemma BegunRequestsAreDone(p: L.Policy, s: State, q: RequestId, r: Request)
    requires q !in s.requests && Unpublished(r) && Passes(p, s, r)
    ensures var s1 := BeginStep(p, s, q, r); s1 == s.(requests := s1.requests) && q in s1.requests && s1.requests[q] == r
    ensures Done(BeginStep(p, s, q, r), q) == s
  {
  }

  class Api {
    const p: L.Policy
    const db: Session
    const queue: SettlementQueue
    ghost var world: State

    ghost predicate Valid()
      reads this, db, queue
    {
      && db.Idle() && world.tables == db.committed && world.stream == queue.View()
      && |world.trails| == |world.tables.remittances| && |world.burns| == |world.tables.cashOuts|
    }

    constructor (p: L.Policy, db: Session, queue: SettlementQueue, ghost world: State)
      requires db.Idle() && world.tables == db.committed && world.stream == queue.View()
      requires |world.trails| == |world.tables.remittances| && |world.burns| == |world.tables.cashOuts|
      ensures Valid() && this.world == world && this.p == p && this.db == db && this.queue == queue
    {
      this.p, this.db, this.queue, this.world := p, db, queue, world;
    }

    /** create_quote as far as the insert: other requests may commit before it goes on. */
    method CheckAndPrice(
      ghost q: RequestId, sender: UserId, recipient: UserId, send: int, rate: int, code: Option<Currency>,
      cfg: Fees.FeeConfig, askedAt: Instant)
      returns (r: Result<Fees.Quote, Refusal>)
      requires Valid() && q !in world.requests && askedAt <= world.now && send > 0
      modifies this`world
      ensures Valid()
      ensures
        var price := Fees.CalculateQuote(send, rate, code, cfg);
        match L.AssertWithinLimits(p, db.committed.remittances, sender, send, askedAt)
        case Err(limit) => r == Err(Forbidden(limit))
        case Ok(_) => r == if price.Ok? then Ok(price.value) else Err(Unpriceable(price.error))
      ensures
        if r.Err? then world == old(world)
        else
          var request := Quoting(sender, recipient, r.value, askedAt);
          && world == BeginStep(p, old(world), q, request)
          && q in world.requests && world.requests[q] == request
    {
      var first := L.AssertWithinLimits(p, db.work.remittances, sender, send, askedAt);
      if first.Err? {
        return Err(Forbidden(first.error));
      }
      var price := Fees.CalculateQuote(send, rate, code, cfg);
      if price.Err? {
        return Err(Unpriceable(price.error));
      }
      BegunRequestsAreDone(p, world, q, Quoting(sender, recipient, price.value, askedAt));
      world := BeginStep(p, world, q, Quoting(sender, recipient, price.value, askedAt));
      return Ok(price.value);
    }

    /** The rest of create_quote: insert, check again with the row counted, commit or roll back. */
    method InsertQuote(
      ghost q: RequestId, sender: UserId, recipient: UserId, price: Fees.Quote, askedAt: Instant, flushedAt: Instant)
      returns (r: Result<RemittanceId, Refusal>)
      requires Valid() && flushedAt == world.now
      requires q in world.requests && world.requests[q] == Quoting(sender, recipient, price, askedAt)
      modifies this`world, db
      ensures Valid() && world == CommitStep(p, old(world), q)
      ensures
        var rows := old(db.committed).remittances;
        if r.Ok? then r.value == |rows| && |db.committed.remittances| == |rows| + 1
        else r.error.Forbidden? && db.committed == old(db.committed)
    {
      var rows := db.work.remittances;
      var row := NewQuote(sender, recipient, price, flushedAt, askedAt + p.quoteTtl);
      db.work := db.work.(remittances := rows + [row]);
      var again := L.AssertWithinLimits(p, db.work.remittances, sender, 0, askedAt);
      world := CommitStep(p, world, q);
      if again.Err? {
        db.Rollback();
        return Err(Forbidden(again.error));
      }
      db.Commit();
      return Ok(|rows|);
    }

    /** The shared second half as far as the message: other commits may come before the row is marked. */
    method PublishMessage(ghost q: RequestId, id: RemittanceId, up: bool)
      returns (r: Result<RemittanceStatus, ServiceError>)
      requires Valid() && q !in world.requests && id < |db.committed.remittances|
      requires StatusOf(world, id).CashInConfirmed? || StatusOf(world, id).Queued?
      modifies this`world, queue
      ensures Valid() && r == if up then Ok(StatusOf(old(world), id)) else Err(QueueUnreachable)
      ensures
        if r.Err? then world == old(world)
        else
          && world == PublishStep(BeginStep(p, old(world), q, Queueing(id, r.value, false)), q)
          && q in world.requests && world.requests[q] == Queueing(id, r.value, true)
    {
      ghost var request := Queueing(id, StatusOf(world, id), false);
      BegunRequestsAreDone(p, world, q, request);
      r := PublishSettlement(db, queue, id, up);
      if r.Err? {
        return;
      }
      world := PublishStep(BeginStep(p, world, q, request), q);
    }

    /** The rest of it: marks the row, which may have moved on by now, and commits. */
    method MarkPublished(ghost q: RequestId, id: RemittanceId, loaded: RemittanceStatus)
      requires Valid() && q in world.requests && world.requests[q] == Queueing(id, loaded, true)
      requires id < |db.committed.remittances|
      modifies this`world, db
      ensures Valid() && world == CommitStep(p, old(world), q)
      ensures StatusOf(world, id) == OrmWrite(old(StatusOf(world, id)), loaded, Queued)
    {
      world := CommitStep(p, world, q);
      MarkQueued(db, id, loaded);
      db.Commit();
    }

    /** Both halves with nothing in between. */
    method PublishConfirmed(ghost q: RequestId, id: RemittanceId, up: bool) returns (r: Result<Confirmation, Refusal>)
      requires Valid() && q !in world.requests && id < |db.committed.remittances|
      requires StatusOf(world, id).CashInConfirmed? || StatusOf(world, id).Queued?
      modifies this`world, db, queue
      ensures Valid() && world == Publishing(p, old(world), q, id, up)
      ensures r == Ok(Confirmation(up))
      ensures StatusOf(world, id) == if up then Queued else old(StatusOf(world, id))
    {
      var loaded := PublishMessage(q, id, up);
      if loaded.Err? {
        db.Rollback();
        return Ok(Confirmation(false));
      }
      MarkPublished(q, id, loaded.value);
      return Ok(Confirmation(true));
    }

    /** confirm_cash_in: two commits, the confirmation before the message that acts on it. */
    method ConfirmCashInEndpoint(
      ghost q: RequestId, id: RemittanceId, how: Option<CashInMethod>, registered: bool, now: Instant, up: bool)
      returns (r: Result<Confirmation, Refusal>)
      requires Valid() && q !in world.requests && now == world.now
      modifies this`world, db, queue
      ensures Valid()
      ensures
        if r.Err? then world == old(world)
        else
          && id < |old(db.committed).remittances| && r == Ok(Confirmation(up))
          && world == Publishing(p, Atomically(p, old(world), q, Confirming(id)), q, id, up)
          && StatusOf(world, id) == (if up || old(StatusOf(world, id)).Queued? then Queued else CashInConfirmed)
      ensures
        r.Ok? <==>
          && id < |old(db.committed).remittances| && how.Some?
          && var row := old(db.committed).remittances[id];
             || row.status.CashInConfirmed? || row.status.Queued?
             || (row.status.Quoted? && !IsQuoteExpired(row, now) && registered)
    {
      if id >= |db.work.remittances| {
        return Err(NotFound);
      }
      var confirmed := SimulateCashIn(db, id, how, registered, now);
      if confirmed.Err? {
        db.Rollback();
        return Err(Conflict(confirmed.error));
      }
      if confirmed.value {
        BegunRequestsAreDone(p, world, q, Confirming(id));
      } else {
        RefusedRequestsChangeNothing(p, world, q, Confirming(id));
      }
      world := Atomically(p, world, q, Confirming(id));
      db.Commit();
      r := PublishConfirmed(q, id, up);
    }

    /** confirm_zar_payment: as above for an admin, and the retry of a FAILED settlement. */
    method ConfirmZarPayment(
      ghost q: RequestId, id: RemittanceId, how: Option<CashInMethod>, registered: bool, now: Instant, up: bool)
      returns (r: Result<Confirmation, Refusal>)
      requires Valid() && q !in world.requests && now == world.now
      modifies this`world, db, queue
      ensures Valid()
      ensures
        if r.Err? then world == old(world)
        else
          && id < |old(db.committed).remittances| && r == Ok(Confirmation(up))
          && var first := if old(StatusOf(world, id)).Failed? then Requeueing(id) else Confirming(id);
             world == Publishing(p, Atomically(p, old(world), q, first), q, id, up)
      ensures
        r.Ok? <==>
          && id < |old(db.committed).remittances|
          && var row := old(db.committed).remittances[id];
             || (how.Some? && (row.status.CashInConfirmed? || row.status.Queued?))
             || (how.Some? && row.status.Quoted? && !IsQuoteExpired(row, now) && registered)
             || (row.status.Failed? && row.cashInConfirmedAt.Some? && registered)
    {
      if id >= |db.work.remittances| {
        return Err(NotFound);
      }
      if !db.work.remittances[id].status.Failed? {
        r := ConfirmCashInEndpoint(q, id, how, registered, now, up);
        return;
      }
      var requeued := RequeueFailed(db, id, registered);
      if requeued.Err? {
        db.Rollback();
        return Err(Conflict(requeued.error));
      }
      BegunRequestsAreDone(p, world, q, Requeueing(id));
      world := Atomically(p, world, q, Requeueing(id));
      db.Commit();
      r := PublishConfirmed(q, id, up);
    }

    /** refund_remittance */
    method RefundRemittance(ghost q: RequestId, id: RemittanceId) returns (r: Result<(), Refusal>)
      requires Valid() && q !in world.requests
      modifies this`world, db
      ensures Valid() && world == Atomically(p, old(world), q, Refunding(id))
      ensures
        r.Ok? <==>
          && id < |old(db.committed).remittances|
          && old(db.committed).remittances[id].status.Failed?
          && old(db.committed).remittances[id].cashInConfirmedAt.Some?
          && Refund(old(db.committed), id).Ok?
    {
      ghost var request := Refunding(id);
      if id >= |db.work.remittances| {
        RefusedRequestsChangeNothing(p, world, q, request);
        return Err(NotFound);
      }
      if Passes(p, world, request) {
        BegunRequestsAreDone(p, world, q, request);
      } else {
        RefusedRequestsChangeNothing(p, world, q, request);
      }
      var refunded := RefundFailed(db, id);
      world := Atomically(p, world, q, request);
      if refunded.Err? {
        db.Rollback();
        return Err(Conflict(refunded.error));
      }
      db.Commit();
      return Ok(());
    }

    /** create_cash_out: a replayed key answers with the row it opened and changes nothing. */
    method CreateCashOut(
      ghost q: RequestId, user: UserId, gross: int, code: Option<Currency>, rate: int,
      cfg: Fees.FeeConfig, key: Option<string>)
      returns (r: Result<CashOutId, Refusal>)
      requires Valid() && q !in world.requests
      modifies this`world, db
      ensures Valid()
      ensures
        var price := Fees.CalculateCashOut(gross, code, rate, cfg);
        var found := if key.Some? then FindCashOut(old(db.committed).cashOuts, user, key.value) else None;
        if found.Some? then r == Ok(found.value) && world == old(world)
        else if price.Err? then r == Err(Unpriceable(price.error)) && world == old(world)
        else if code == Some(UCTUSD) then r == Err(Conflict(UnsupportedPayoutCurrency)) && world == old(world)
        else
          && world == Atomically(p, old(world), q, CashingOut(user, price.value, key))
          && (r.Ok? <==> Idempotency.RequestCashOut(old(db.committed), user, price.value, key).Ok?)
          && (r.Ok? ==> r.value == |old(db.committed).cashOuts|)
          && (r.Err? ==> world == old(world))
    {
      if key.Some? {
        var existing := FindByKey(db, user, key.value);
        if existing.Some? {
          return Ok(existing.value);
        }
      }
      var price := Fees.CalculateCashOut(gross, code, rate, cfg);
      if price.Err? {
        return Err(Unpriceable(price.error));
      }
      ghost var request := CashingOut(user, price.value, key);
      if Passes(p, world, request) {
        BegunRequestsAreDone(p, world, q, request);
      } else {
        RefusedRequestsChangeNothing(p, world, q, request);
      }
      var made := RequestCashOut(db, user, price.value, key);
      world := Atomically(p, world, q, request);
      if made.Err? {
        db.Rollback();
        return Err(Conflict(made.error));
      }
      db.Commit();
      return Ok(made.value);
    }

    /** approve_cash_out: approve unless already approved, then publish the burn. */
    method ApproveCashOut(ghost q: RequestId, id: CashOutId, up: bool) returns (r: Result<(), Refusal>)
      requires Valid() && q !in world.requests
      modifies this`world, db, queue
      ensures Valid()
      ensures
        var released := Atomically(p, old(world), q, Approving(id));
        world == if up then Atomically(p, released, q, QueueingBurn(id)) else released
      ensures
        r.Ok? <==>
          && id < |old(db.committed).cashOuts| && up
          && (old(db.committed).cashOuts[id].status.Requested? || old(db.committed).cashOuts[id].status.Approved?)
      ensures r.Ok? ==> db.committed.cashOuts[id].status.Approved? && BurnCashOut(id) in queue.messages
    {
      ghost var before := world;
      if id >= |db.work.cashOuts| {
        RefusedRequestsChangeNothing(p, world, q, Approving(id));
        RefusedRequestsChangeNothing(p, world, q, QueueingBurn(id));
        return Err(NotFound);
      }
      if db.work.cashOuts[id].status.Requested? {
        BegunRequestsAreDone(p, world, q, Approving(id));
      } else {
        RefusedRequestsChangeNothing(p, world, q, Approving(id));
      }
      if !db.work.cashOuts[id].status.Approved? {
        var approved := Approve(db, id);
        if approved.Err? {
          RefusedRequestsChangeNothing(p, world, q, QueueingBurn(id));
          db.Rollback();
          return Err(Conflict(approved.error));
        }
        db.Commit();
      }
      world := Atomically(p, world, q, Approving(id));
      BegunRequestsAreDone(p, world, q, QueueingBurn(id));
      var published := QueueBurn(db, queue, id, up);
      if published.Err? {
        return Err(Conflict(published.error));
      }
      world := Atomically(p, world, q, QueueingBurn(id));
      assert queue.messages[|queue.messages| - 1] == BurnCashOut(id);
      return Ok(());
    }

    /** reject_cash_out */
    method RejectCashOut(ghost q: RequestId, id: CashOutId) returns (r: Result<(), Refusal>)
      requires Valid() && q !in world.requests
      modifies this`world, db
      ensures Valid()
      ensures
        r.Ok? <==>
          && id < |old(db.committed).cashOuts|
          && (old(db.committed).cashOuts[id].status.Requested? || old(db.committed).cashOuts[id].status.Approved?)
          && FailCashOut(old(db.committed), id).Ok?
      ensures
        if id < |old(db.committed).cashOuts| then
          world == Atomically(p, old(world), q, Rejecting(id, old(db.committed).cashOuts[id].status))
        else world == old(world)
    {
      if id >= |db.work.cashOuts| {
        return Err(NotFound);
      }
      ghost var request := Rejecting(id, db.work.cashOuts[id].status);
      if Passes(p, world, request) {
        BegunRequestsAreDone(p, world, q, request);
      } else {
        RefusedRequestsChangeNothing(p, world, q, request);
      }
      var failed := Reverse(db, id, {Requested, Approved});
      world := Atomically(p, world, q, request);
      if failed.Err? {
        db.Rollback();
        return Err(Conflict(failed.error));
      }
      db.Commit();
      return Ok(());
    }
  }
}
