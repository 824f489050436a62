/**
 The rows the backend stores (models/remittance.py, models/wallet.py).

 Row ids are positions in the table's sequence: rows are inserted and
 updated, never deleted.  Rand amounts on a remittance are cents; token
 amounts and every ledger amount are millionths, the scale of
 Numeric(18, 6).
 */
module Schema {
  import opened Wrappers

  type UserId = nat
  type RemittanceId = nat
  type CashOutId = nat
  type EntryId = nat

  // Naive UTC seconds, as the timestamp columns hold.
  type Instant = int

  datatype Currency = UCTUSD | USD | ZAR

  datatype Direction = Incoming | Outgoing

  datatype EntryStatus = Pending | Success | Failed

  datatype RemittanceStatus =
    | Quoted | CashInConfirmed | Queued | Settling | Settled | Failed | Refunded

  datatype CashOutStatus = Requested | Approved | Processing | Completed | Failed

  datatype Remittance = Remittance(
    sender: UserId,
    recipient: UserId,  // the user the beneficiary's contact resolves to
    zarCents: nat,
    uctusd: nat,
    status: RemittanceStatus,
    createdAt: Instant,
    quoteExpiresAt: Option<Instant>,
    cashInConfirmedAt: Option<Instant>)

  datatype CashOut = CashOut(
    user: UserId,
    gross: nat,
    fee: nat,
    net: nat,
    payoutCurrency: Currency,
    payoutAmount: nat,
    status: CashOutStatus,
    key: Option<string>,
    debitEntry: nat,
    creditEntry: Option<nat>)

  datatype Account = Account(wallet: UserId, currency: Currency)

  /**
   A wallet_transactions row.  `cashOut` is a history mark, not a column:
   the cash-out on whose behalf the row was written.
   */
  datatype Entry = Entry(
    wallet: UserId,
    remittance: Option<RemittanceId>,
    direction: Direction,
    currency: Currency,
    amount: int,
    status: EntryStatus,
    cashOut: Option<CashOutId>)

  /** The columns of uq_wallet_tx_remittance_direction_status. */
  datatype EntryKey = EntryKey(remittance: RemittanceId, direction: Direction, status: EntryStatus)

  datatype Books = Books(balances: map<Account, nat>, entries: seq<Entry>)

  datatype Tables = Tables(books: Books, remittances: seq<Remittance>, cashOuts: seq<CashOut>)

  /** Whether a quote has aged out; only QUOTED rows can (Remittance.is_quote_expired). */
  predicate IsQuoteExpired(r: Remittance, now: Instant) {
    r.status.Quoted? && r.quoteExpiresAt.Some? && now >= r.quoteExpiresAt.value
  }
}
