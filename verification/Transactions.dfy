/**
 What each database transaction commits, as a function of the tables it
 meets.  An Err is an exception that makes the caller roll back, so its
 transaction commits nothing.
 */
module Transactions {
  import opened Wrappers
  import opened Schema
  import opened Bookkeeping
  import Fees
  import Limits

  const MICROS_PER_CENT: nat := 10_000

  /**
   An assignment through the session writes a column only when the value
   differs from the one the session loaded, whatever the row holds by now.
   */
  function OrmWrite(current: RemittanceStatus, loaded: RemittanceStatus, wanted: RemittanceStatus):
    RemittanceStatus
  {
    if loaded == wanted then current else wanted
  }

  function PutRemittance(t: Tables, id: RemittanceId, r: Remittance): Tables
    requires id < |t.remittances|
  {
    t.(remittances := t.remittances[id := r])
  }

  function PutCashOut(t: Tables, id: CashOutId, c: CashOut): Tables
    requires id < |t.cashOuts|
  {
    t.(cashOuts := t.cashOuts[id := c])
  }

  function WithStatus(t: Tables, id: RemittanceId, s: RemittanceStatus): Tables
    requires id < |t.remittances|
  {
    PutRemittance(t, id, t.remittances[id].(status := s))
  }

  // -- the entries each transaction writes --------------------------------

  function CreditEntry(t: Tables, id: RemittanceId): Entry
    requires id < |t.remittances|
  {
    var r := t.remittances[id];
    Entry(r.recipient, Some(id), Incoming, UCTUSD, r.uctusd, EntryStatus.Success, None)
  }

  function SentEntry(t: Tables, id: RemittanceId): Entry
    requires id < |t.remittances|
  {
    var r := t.remittances[id];
    Entry(r.sender, Some(id), Outgoing, ZAR, r.zarCents * MICROS_PER_CENT, EntryStatus.Success, None)
  }

  function FailureEntry(t: Tables, id: RemittanceId): Entry
    requires id < |t.remittances|
  {
    var r := t.remittances[id];
    Entry(r.recipient, Some(id), Incoming, UCTUSD, r.uctusd, EntryStatus.Failed, None)
  }

  function RefundEntry(t: Tables, id: RemittanceId): Entry
    requires id < |t.remittances|
  {
    var r := t.remittances[id];
    Entry(r.sender, Some(id), Incoming, ZAR, r.zarCents * MICROS_PER_CENT, EntryStatus.Success, None)
  }

  function DebitEntry(user: UserId, gross: nat, id: CashOutId): Entry {
    Entry(user, None, Outgoing, UCTUSD, gross, EntryStatus.Success, Some(id))
  }

  function ReversalEntry(t: Tables, id: CashOutId): Entry
    requires id < |t.cashOuts|
  {
    var c := t.cashOuts[id];
    Entry(c.user, None, Incoming, UCTUSD, c.gross, EntryStatus.Success, Some(id))
  }

  function PayoutEntry(t: Tables, id: CashOutId): Entry
    requires id < |t.cashOuts|
  {
    var c := t.cashOuts[id];
    Entry(c.user, None, Incoming, c.payoutCurrency, c.payoutAmount, EntryStatus.Success, Some(id))
  }

  // -- the worker's transactions ------------------------------------------

  /** CLAIMABLE, widened to RECLAIMABLE for a message taken over from a silent consumer. */
  predicate Claimable(s: RemittanceStatus, reclaimed: bool) {
    s.CashInConfirmed? || s.Queued? || (reclaimed && s.Settling?)
  }

  function RecordSuccess(t: Tables, id: RemittanceId, loaded: RemittanceStatus): Result<Tables, LedgerError>
    requires id < |t.remittances|
  {
    var credited :- Post(t.books, CreditEntry(t, id));
    var noted :- Record(credited, SentEntry(t, id));
    Ok(WithStatus(t.(books := noted), id, OrmWrite(t.remittances[id].status, loaded, Settled)))
  }

  /** `noted` is whether the recipient was resolved, so a failed entry can be shown to them. */
  function RecordFailure(t: Tables, id: RemittanceId, loaded: RemittanceStatus, noted: bool):
    Result<Tables, LedgerError>
    requires id < |t.remittances|
  {
    var books :- if noted then Record(t.books, FailureEntry(t, id)) else Ok(t.books);
    Ok(WithStatus(t.(books := books), id,
                  OrmWrite(t.remittances[id].status, loaded, RemittanceStatus.Failed)))
  }

  /** complete_cash_out: the fiat leg of a burn that landed. */
  function CompleteCashOut(t: Tables, id: CashOutId): Result<Tables, LedgerError>
    requires id < |t.cashOuts|
  {
    var books :- Post(t.books, PayoutEntry(t, id));
    Ok(PutCashOut(t.(books := books), id,
                  t.cashOuts[id].(status := Completed, creditEntry := Some(|t.books.entries|))))
  }

  /** fail_cash_out: the reserved tokens come back as a fresh entry. */
  function FailCashOut(t: Tables, id: CashOutId): Result<Tables, LedgerError>
    requires id < |t.cashOuts|
  {
    var books :- Post(t.books, ReversalEntry(t, id));
    Ok(PutCashOut(t.(books := books), id, t.cashOuts[id].(status := CashOutStatus.Failed)))
  }

  // -- the API's transactions -----------------------------------------------

  function NewQuote(sender: UserId, recipient: UserId, q: Fees.Quote, createdAt: Instant, expiresAt: Instant):
    Remittance
  {
    Remittance(sender, recipient, q.send, q.uctusd, Quoted, createdAt, Some(expiresAt), None)
  }

  /** Insert, flush, re-check with the new row counted, then commit or roll back. */
  function InsertQuote(t: Tables, p: Limits.Policy, r: Remittance, askedAt: Instant):
    Result<Tables, Limits.LimitError>
  {
    var rows := t.remittances + [r];
    var _ :- Limits.AssertWithinLimits(p, rows, r.sender, 0, askedAt);
    Ok(t.(remittances := rows))
  }

  function ConfirmCashIn(t: Tables, id: RemittanceId, now: Instant): Tables
    requires id < |t.remittances|
  {
    PutRemittance(t, id, t.remittances[id].(
      status := CashInConfirmed, cashInConfirmedAt := Some(now), quoteExpiresAt := None))
  }

  function Refund(t: Tables, id: RemittanceId): Result<Tables, LedgerError>
    requires id < |t.remittances|
  {
    var books :- Record(t.books, RefundEntry(t, id));
    Ok(WithStatus(t.(books := books), id, Refunded))
  }

  /** The unique index is on the key alone, whoever supplied it. */
  predicate KeyInUse(t: Tables, key: Option<string>) {
    key.Some? && exists i :: 0 <= i < |t.cashOuts| && t.cashOuts[i].key == key
  }

  function FindCashOut(rows: seq<CashOut>, user: UserId, key: string): (found: Option<CashOutId>)
    ensures found.Some? ==> found.value < |rows| && rows[found.value].user == user && rows[found.value].key == Some(key)
    ensures found.None? ==> forall i :: 0 <= i < |rows| ==> !(rows[i].user == user && rows[i].key == Some(key))
  {
    if rows == [] then None
    else
      var n := |rows| - 1;
      var earlier := FindCashOut(rows[..n], user, key);
      if earlier.Some? then earlier
      else if rows[n].user == user && rows[n].key == Some(key) then Some(n) else None
  }

  /** The debit and the row land together, or the losing insert takes its debit back with it. */
  function OpenCashOut(t: Tables, user: UserId, q: Fees.CashOutQuote, key: Option<string>): Result<Tables, LedgerError> {
    var books :- Post(t.books, DebitEntry(user, q.gross, |t.cashOuts|));
    if KeyInUse(t, key) then Err(UniqueViolation)
    else
      var row := CashOut(user, q.gross, q.fee, q.net, q.payoutCurrency, q.payoutAmount,
                         Requested, key, |t.books.entries|, None);
      Ok(t.(books := books, cashOuts := t.cashOuts + [row]))
  }
}
