/**
 The cash-in, cash-out and recovery operations (services/cashin_cashout_service.py).
 Each works inside its caller's session; none commits.
 */
module CashService {
  import opened Wrappers
  import opened Schema
  import opened Bookkeeping
  import opened Transactions
  import opened Stream
  import opened Database
  import opened LedgerService
  import opened QueueService
  import Idempotency
  import Fees

  datatype CashInMethod = AgentCash | BankTransfer | Card

  datatype ServiceError =
    | InvalidCashInMethod
    | QuoteExpired
    | WrongState
    | RecipientNotRegistered
    | NothingPaidIn
    | QueueUnreachable
    | UnsupportedPayoutCurrency
    | Refused(ledger: LedgerError)

  // -- cash-in ---------------------------------------------------------------------------

  /**
   True if this call confirmed the cash-in, false if it was confirmed before.
   `how` is None for any text that is not one of the methods.
   */
  method SimulateCashIn(db: Session, id: RemittanceId, how: Option<CashInMethod>, registered: bool, now: Instant)
    returns (r: Result<bool, ServiceError>)
    requires id < |db.work.remittances|
    modifies db`work
    ensures
      var row := old(db.work).remittances[id];
      if how.None? then r == Err(InvalidCashInMethod)
      else if row.status.CashInConfirmed? || row.status.Queued? then r == Ok(false)
      else if !row.status.Quoted? then r == Err(WrongState)
      else if IsQuoteExpired(row, now) then r == Err(QuoteExpired)
      else if !registered then r == Err(RecipientNotRegistered)
      else r == Ok(true)
    ensures db.work == if r == Ok(true) then ConfirmCashIn(old(db.work), id, now) else old(db.work)
    ensures r == Ok(true) ==>
      db.work.remittances[id] == old(db.work).remittances[id].(
        status := CashInConfirmed, cashInConfirmedAt := Some(now), quoteExpiresAt := None)
  {
    if how.None? {
      return Err(InvalidCashInMethod);
    }
    var row := db.work.remittances[id];
    if row.status.CashInConfirmed? || row.status.Queued? {
      return Ok(false);
    }
    if !row.status.Quoted? {
      return Err(WrongState);
    }
    if IsQuoteExpired(row, now) {
      return Err(QuoteExpired);
    }
    if !registered {
      return Err(RecipientNotRegistered);
    }
    db.SaveRemittance(id, row.(
      status := CashInConfirmed, cashInConfirmedAt := Some(now), quoteExpiresAt := None));
    return Ok(true);
  }

  /** The message goes out before the row is marked; `up` is whether the queue takes it. */
  method PublishSettlement(db: Session, queue: SettlementQueue, id: RemittanceId, up: bool)
    returns (r: Result<RemittanceStatus, ServiceError>)
    requires id < |db.work.remittances|
    modifies queue
    ensures
      var status := db.work.remittances[id].status;
      if !status.CashInConfirmed? && !status.Queued? then r == Err(WrongState) && queue.View() == old(queue.View())
      else if !up then r == Err(QueueUnreachable) && queue.View() == old(queue.View())
      else r == Ok(status) && queue.View() == Added(old(queue.View()), SettleRemittance(id))
  {
    var status := db.work.remittances[id].status;
    if !status.CashInConfirmed? && !status.Queued? {
      return Err(WrongState);
    }
    if !up {
      return Err(QueueUnreachable);
    }
    var _ := queue.Publish(id);
    return Ok(status);
  }

  /** The row may have moved on since its status was loaded; the write does not look. */
  method MarkQueued(db: Session, id: RemittanceId, loaded: RemittanceStatus)
    requires id < |db.work.remittances|
    modifies db`work
    ensures db.work == WithStatus(old(db.work), id, OrmWrite(old(db.work).remittances[id].status, loaded, Queued))
  {
    if loaded != Queued {
      db.SaveRemittance(id, db.work.remittances[id].(status := Queued));
    } else {
      assert db.work.remittances[id := db.work.remittances[id]] == db.work.remittances;
    }
  }

  method QueueForSettlement(db: Session, queue: SettlementQueue, id: RemittanceId, up: bool)
    returns (r: Result<(), ServiceError>)
    requires id < |db.work.remittances|
    modifies db`work, queue
    ensures
      var status := old(db.work).remittances[id].status;
      if !status.CashInConfirmed? && !status.Queued? then
        r == Err(WrongState) && db.work == old(db.work) && queue.View() == old(queue.View())
      else if !up then
        r == Err(QueueUnreachable) && db.work == old(db.work) && queue.View() == old(queue.View())
      else
        && r == Ok(()) && db.work == WithStatus(old(db.work), id, Queued)
        && queue.View() == Added(old(queue.View()), SettleRemittance(id))
  {
    var loaded := PublishSettlement(db, queue, id, up);
    if loaded.Err? {
      return Err(loaded.error);
    }
    MarkQueued(db, id, loaded.value);
    return Ok(());
  }

  // -- failure recovery --------------------------------------------------------------------

  method RequeueFailed(db: Session, id: RemittanceId, registered: bool) returns (r: Result<(), ServiceError>)
    requires id < |db.work.remittances|
    modifies db`work
    ensures
      var row := old(db.work).remittances[id];
      if !row.status.Failed? then r == Err(WrongState)
      else if row.cashInConfirmedAt.None? then r == Err(NothingPaidIn)
      else if !registered then r == Err(RecipientNotRegistered)
      else r == Ok(())
    ensures db.work == if r.Ok? then WithStatus(old(db.work), id, CashInConfirmed) else old(db.work)
  {
    var row := db.work.remittances[id];
    if !row.status.Failed? {
      return Err(WrongState);
    }
    if row.cashInConfirmedAt.None? {
      return Err(NothingPaidIn);
    }
    if !registered {
      return Err(RecipientNotRegistered);
    }
    db.SaveRemittance(id, row.(status := CashInConfirmed));
    return Ok(());
  }

  method RefundFailed(db: Session, id: RemittanceId) returns (r: Result<(), ServiceError>)
    requires id < |db.work.remittances|
    modifies db`work
    ensures
      var row, refund := old(db.work).remittances[id], Refund(old(db.work), id);
      if !row.status.Failed? then r == Err(WrongState) && db.work == old(db.work)
      else if row.cashInConfirmedAt.None? then r == Err(NothingPaidIn) && db.work == old(db.work)
      else if refund.Ok? then r == Ok(()) && db.work == refund.value
      else r == Err(Refused(refund.error))
    ensures r.Ok? ==>
      var row := old(db.work).remittances[id];
      && db.work.books.entries == old(db.work).books.entries
           + [Entry(row.sender, Some(id), Incoming, ZAR, row.zarCents * 10_000, EntryStatus.Success, None)]
      && db.work.books.balances == old(db.work).books.balances
      && db.work.remittances[id] == row.(status := Refunded)
  {
    var row := db.work.remittances[id];
    if !row.status.Failed? {
      return Err(WrongState);
    }
    if row.cashInConfirmedAt.None? {
      return Err(NothingPaidIn);
    }
    var ledger := new Ledger(db);
    var recorded := ledger.RecordExternal(
      row.sender, Incoming, ZAR, row.zarCents * MICROS_PER_CENT, Some(id), EntryStatus.Success);
    if recorded.Err? {
      return Err(Refused(recorded.error));
    }
    db.SaveRemittance(id, row.(status := Refunded));
    return Ok(());
  }

  // -- cash-out ------------------------------------------------------------------------------

  /** The first row this user opened under this key. */
  method FindByKey(db: Session, user: UserId, key: string) returns (found: Option<CashOutId>)
    ensures found == FindCashOut(db.work.cashOuts, user, key)
  {
    var rows := db.work.cashOuts;
    found := None;
    for i := 0 to |rows|
      invariant found == FindCashOut(rows[..i], user, key)
    {
      assert rows[..i + 1][..i] == rows[..i];
      if found.None? && rows[i].user == user && rows[i].key == Some(key) {
        found := Some(i);
      }
    }
    assert rows[..|rows|] == rows;
  }

  method KeyIsTaken(db: Session, key: Option<string>) returns (taken: bool)
    ensures taken <==> KeyInUse(db.work, key)
  {
    var rows := db.work.cashOuts;
    for i := 0 to |rows|
      invariant key.Some? ==> forall j :: 0 <= j < i ==> rows[j].key != key
    {
      if key.Some? && rows[i].key == key {
        return true;
      }
    }
    return false;
  }

  /** Debits at once and opens the row behind the debit; a replayed key returns its row untouched. */
  method RequestCashOut(db: Session, user: UserId, price: Fees.CashOutQuote, key: Option<string>)
    returns (r: Result<CashOutId, ServiceError>)
    modifies db`work
    ensures
      var known := key.Some? && FindCashOut(old(db.work).cashOuts, user, key.value).Some?;
      if !known && price.payoutCurrency.UCTUSD? then r == Err(UnsupportedPayoutCurrency) && db.work == old(db.work)
      else
        match Idempotency.RequestCashOut(old(db.work), user, price, key)
        case Ok((t, id)) => r == Ok(id) && db.work == t
        case Err(error) => r == Err(Refused(error))
  {
    if key.Some? {
      var existing := FindByKey(db, user, key.value);
      if existing.Some? {
        return Ok(existing.value);
      }
    }
    if price.payoutCurrency.UCTUSD? {
      return Err(UnsupportedPayoutCurrency);
    }
    var id := |db.work.cashOuts|;
    var ledger := new Ledger(db);
    var debit := ledger.Debit(user, UCTUSD, price.gross, Some(id));
    if debit.Err? {
      return Err(Refused(debit.error));
    }
    var taken := KeyIsTaken(db, key);
    if taken {
      return Err(Refused(UniqueViolation));
    }
    var row := CashOut(user, price.gross, price.fee, price.net, price.payoutCurrency, price.payoutAmount,
                       Requested, key, debit.value, None);
    db.work := db.work.(cashOuts := db.work.cashOuts + [row]);
    return Ok(id);
  }

  method Approve(db: Session, id: CashOutId) returns (r: Result<(), ServiceError>)
    requires id < |db.work.cashOuts|
    modifies db`work
    ensures r == if old(db.work).cashOuts[id].status.Requested? then Ok(()) else Err(WrongState)
    ensures db.work == if r.Ok? then PutCashOut(old(db.work), id, old(db.work).cashOuts[id].(status := Approved))
                       else old(db.work)
  {
    var row := db.work.cashOuts[id];
    if !row.status.Requested? {
      return Err(WrongState);
    }
    db.SaveCashOut(id, row.(status := Approved));
    return Ok(());
  }

  method QueueBurn(db: Session, queue: SettlementQueue, id: CashOutId, up: bool)
    returns (r: Result<EntryId, ServiceError>)
    requires id < |db.work.cashOuts|
    modifies queue
    ensures
      if !db.work.cashOuts[id].status.Approved? then r == Err(WrongState) && queue.View() == old(queue.View())
      else if !up then r == Err(QueueUnreachable) && queue.View() == old(queue.View())
      else r == Ok(|old(queue.messages)|) && queue.View() == Added(old(queue.View()), BurnCashOut(id))
  {
    if !db.work.cashOuts[id].status.Approved? {
      return Err(WrongState);
    }
    if !up {
      return Err(QueueUnreachable);
    }
    var e := queue.PublishCashOut(id);
    return Ok(e);
  }

  /** The fiat leg of a burn that landed. */
  method Complete(db: Session, id: CashOutId) returns (r: Result<(), ServiceError>)
    requires id < |db.work.cashOuts|
    modifies db`work
    ensures
      match CompleteCashOut(old(db.work), id)
      case Ok(t) => r == Ok(()) && db.work == t
      case Err(error) => r == Err(Refused(error))
    ensures r.Ok? ==>
      var row := old(db.work).cashOuts[id];
      var paid := Entry(row.user, None, Incoming, row.payoutCurrency, row.payoutAmount, EntryStatus.Success, Some(id));
      && db.work.books.entries == old(db.work).books.entries + [paid]
      && db.work.cashOuts[id].status.Completed?
      && db.work.cashOuts[id].creditEntry == Some(|old(db.work).books.entries|)
  {
    var row := db.work.cashOuts[id];
    var ledger := new Ledger(db);
    var credit := ledger.Credit(row.user, row.payoutCurrency, row.payoutAmount, None, Some(id));
    if credit.Err? {
      return Err(Refused(credit.error));
    }
    db.SaveCashOut(id, row.(status := Completed, creditEntry := Some(credit.value)));
    return Ok(());
  }

  /** Gives the reserved tokens back as a fresh entry, from the states the caller allows. */
  method Reverse(db: Session, id: CashOutId, fromStates: set<CashOutStatus>) returns (r: Result<(), ServiceError>)
    requires id < |db.work.cashOuts|
    modifies db`work
    ensures
      if old(db.work).cashOuts[id].status !in fromStates then r == Err(WrongState) && db.work == old(db.work)
      else
        match FailCashOut(old(db.work), id)
        case Ok(t) => r == Ok(()) && db.work == t
        case Err(error) => r == Err(Refused(error))
    ensures r.Ok? ==>
      var row := old(db.work).cashOuts[id];
      && db.work.books.entries == old(db.work).books.entries
           + [Entry(row.user, None, Incoming, UCTUSD, row.gross, EntryStatus.Success, Some(id))]
      && db.work.cashOuts[id] == row.(status := CashOutStatus.Failed)
  {
    var row := db.work.cashOuts[id];
    if row.status !in fromStates {
      return Err(WrongState);
    }
    var ledger := new Ledger(db);
    var credit := ledger.Credit(row.user, UCTUSD, row.gross, None, Some(id));
    if credit.Err? {
      return Err(Refused(credit.error));
    }
    db.SaveCashOut(id, row.(status := CashOutStatus.Failed));
    return Ok(());
  }
}
