/**
 Who is paid what by each transaction, in which currency and on which
 balance, said on the rows' own fields and the ledger's own columns.
 */
module Payments {
  import opened Wrappers
  import opened Schema
  import opened Bookkeeping
  import opened Transactions
  import opened Protocol
  import opened TableSafety
  import opened SettlementSafety
  import opened CashOuts
  import Fees
  import Limits

  /** Nobody has been paid anything for a remittance yet. */
  ghost predicate Unpaid(t: Tables, id: RemittanceId) {
    forall e :: e in t.books.entries ==> !(e.remittance == Some(id) && e.direction.Incoming? && e.status.Success?)
  }

  /** One balance moves by an amount, and no other moves at all. */
  ghost predicate OnlyMoves(b: Books, b': Books, wallet: UserId, currency: Currency, amount: int) {
    && BalanceOf(b', Account(wallet, currency)) == BalanceOf(b, Account(wallet, currency)) + amount
    && forall a: Account :: a != Account(wallet, currency) ==> BalanceOf(b', a) == BalanceOf(b, a)
  }

  // -- the ledger's own calls ----------------------------------------------------------------

  /** A movement is refused exactly when it is not positive, not covered, or repeats a unique key. */
  lemma MovementsAreExact(b: Books, e: Entry)
    ensures
      Post(b, e).Ok? <==>
        && e.amount > 0
        && (e.direction.Outgoing? ==> BalanceOf(b, Account(e.wallet, e.currency)) >= e.amount)
        && forall f :: f in b.entries && e.remittance.Some? && f.remittance == e.remittance ==>
             f.direction != e.direction || f.status != e.status
    ensures
      Post(b, e).Ok? ==>
        && Post(b, e).value.entries == b.entries + [e]
        && OnlyMoves(b, Post(b, e).value, e.wallet, e.currency,
                     if e.direction.Incoming? then e.amount else -e.amount)
  {
  }

  lemma RecordsAreExact(b: Books, e: Entry)
    ensures
      Record(b, e).Ok? <==>
        && e.amount > 0
        && forall f :: f in b.entries && e.remittance.Some? && f.remittance == e.remittance ==>
             f.direction != e.direction || f.status != e.status
    ensures Record(b, e).Ok? ==>
              Record(b, e).value.entries == b.entries + [e] && Record(b, e).value.balances == b.balances
  {
  }

  // -- remittances ------------------------------------------------------------------------------

  /** A settlement commits exactly if nobody was paid yet; the recipient gets the tokens, the rand leg is noted. */
  lemma SettlementPaysTheRecipient(t: Tables, id: RemittanceId, loaded: RemittanceStatus)
    requires Safe(t) && id < |t.remittances|
    ensures RecordSuccess(t, id, loaded).Ok? <==> Unpaid(t, id)
    ensures
      RecordSuccess(t, id, loaded).Ok? ==>
        var r, t' := t.remittances[id], RecordSuccess(t, id, loaded).value;
        && t'.books.entries == t.books.entries
             + [Entry(r.recipient, Some(id), Incoming, UCTUSD, r.uctusd, EntryStatus.Success, None)]
             + [Entry(r.sender, Some(id), Outgoing, ZAR, r.zarCents * 10_000, EntryStatus.Success, None)]
        && OnlyMoves(t.books, t'.books, r.recipient, UCTUSD, r.uctusd)
        && t'.remittances == t.remittances[id := r.(status := if loaded.Settled? then r.status else Settled)]
        && t'.cashOuts == t.cashOuts
  {
    var credit, sent := CreditEntry(t, id), SentEntry(t, id);
    assert Backed(t, id) && RemittancePriced(t.remittances[id]);
    MovementsAreExact(t.books, credit);
    if Post(t.books, credit).Ok? {
      RecordsAreExact(Post(t.books, credit).value, sent);
      NoRandLegWithoutACredit(t, id);
    }
    hide Safe, Post, Record;
  }

  lemma NoRandLegWithoutACredit(t: Tables, id: RemittanceId)
    requires Safe(t) && id < |t.remittances| && Unpaid(t, id)
    ensures forall e :: e in t.books.entries && e.remittance == Some(id) ==>
              !(e.direction.Outgoing? && e.status.Success?)
  {
    assert Backed(t, id) && CreditEntry(t, id) !in t.books.entries;
    forall e | e in t.books.entries && e.remittance == Some(id)
      ensures !(e.direction.Outgoing? && e.status.Success?)
    {
      assert RemittanceEntry(t, e) || CashOutEntry(t, e);
    }
    hide Safe;
  }

  /** A refund commits exactly if nobody was paid yet; the sender gets the rand back, outside every balance. */
  lemma RefundPaysTheSender(t: Tables, id: RemittanceId)
    requires Safe(t) && id < |t.remittances|
    ensures Refund(t, id).Ok? <==> Unpaid(t, id)
    ensures
      Refund(t, id).Ok? ==>
        var r, t' := t.remittances[id], Refund(t, id).value;
        && t'.books.entries == t.books.entries
             + [Entry(r.sender, Some(id), Incoming, ZAR, r.zarCents * 10_000, EntryStatus.Success, None)]
        && t'.books.balances == t.books.balances
        && t'.remittances == t.remittances[id := r.(status := Refunded)] && t'.cashOuts == t.cashOuts
  {
    assert RemittancePriced(t.remittances[id]);
    RecordsAreExact(t.books, RefundEntry(t, id));
    hide Safe, Record;
  }

  /** A failed entry shows the recipient what they did not get; it moves no balance. */
  lemma FailureIsShownToTheRecipient(t: Tables, id: RemittanceId, loaded: RemittanceStatus, noted: bool)
    requires Safe(t) && id < |t.remittances| && RecordFailure(t, id, loaded, noted).Ok?
    ensures
      var r, t' := t.remittances[id], RecordFailure(t, id, loaded, noted).value;
      && t'.books.entries == t.books.entries
           + (if noted then [Entry(r.recipient, Some(id), Incoming, UCTUSD, r.uctusd, EntryStatus.Failed, None)] else [])
      && t'.books.balances == t.books.balances
      && t'.remittances
         == t.remittances[id := r.(status := if loaded.Failed? then r.status else RemittanceStatus.Failed)]
  {
    assert t.books.entries + [] == t.books.entries;
    hide Safe;
  }

  /** A quote stores what was priced, from the moment of its commit until one lifetime after it was asked for. */
  lemma QuoteStoresItsPrice(p: Limits.Policy, s: State, q: RequestId)
    requires q in s.requests && s.requests[q].Quoting? && CommitStep(p, s, q).tables != s.tables
    ensures
      var r, rows, rows' := s.requests[q], s.tables.remittances, CommitStep(p, s, q).tables.remittances;
      && |rows'| == |rows| + 1 && rows'[..|rows|] == rows
      && var row := rows'[|rows|];
         && row.sender == r.sender && row.recipient == r.recipient
         && row.zarCents == r.quote.send && row.uctusd == r.quote.uctusd
         && row.status.Quoted? && row.createdAt == s.now && row.quoteExpiresAt == Some(r.askedAt + p.quoteTtl)
         && row.cashInConfirmedAt.None?
  {
  }

  // -- cash-outs ----------------------------------------------------------------------------------

  /** A request commits exactly if it is covered and its key is free; its row is its price. */
  lemma RequestTakesTheGross(t: Tables, user: UserId, price: Fees.CashOutQuote, key: Option<string>)
    ensures
      OpenCashOut(t, user, price, key).Ok? <==>
        && 0 < price.gross <= BalanceOf(t.books, Account(user, UCTUSD))
        && (key.Some? ==> forall c :: 0 <= c < |t.cashOuts| ==> t.cashOuts[c].key != key)
    ensures
      OpenCashOut(t, user, price, key).Ok? ==>
        var t', c := OpenCashOut(t, user, price, key).value, |t.cashOuts|;
        && t'.books.entries == t.books.entries
             + [Entry(user, None, Outgoing, UCTUSD, price.gross, EntryStatus.Success, Some(c))]
        && OnlyMoves(t.books, t'.books, user, UCTUSD, -(price.gross as int))
        && t'.remittances == t.remittances && |t'.cashOuts| == c + 1 && t'.cashOuts[..c] == t.cashOuts
        && var row := t'.cashOuts[c];
           && row.user == user && row.key == key && row.status.Requested?
           && row.gross == price.gross && row.fee == price.fee && row.net == price.net
           && row.payoutCurrency == price.payoutCurrency && row.payoutAmount == price.payoutAmount
           && row.debitEntry == |t.books.entries| && row.creditEntry.None?
  {
    MovementsAreExact(t.books, DebitEntry(user, price.gross, |t.cashOuts|));
    hide Post;
  }

  /** A completion pays the payout, in the payout's currency, to the user who asked for it. */
  lemma CompletionPaysThePayout(t: Tables, c: CashOutId)
    requires c < |t.cashOuts|
    ensures CompleteCashOut(t, c).Ok? <==> t.cashOuts[c].payoutAmount > 0
    ensures
      CompleteCashOut(t, c).Ok? ==>
        var row, t' := t.cashOuts[c], CompleteCashOut(t, c).value;
        && t'.books.entries == t.books.entries
             + [Entry(row.user, None, Incoming, row.payoutCurrency, row.payoutAmount, EntryStatus.Success, Some(c))]
        && OnlyMoves(t.books, t'.books, row.user, row.payoutCurrency, row.payoutAmount)
        && t'.remittances == t.remittances
        && t'.cashOuts == t.cashOuts[c := row.(status := Completed, creditEntry := Some(|t.books.entries|))]
  {
    MovementsAreExact(t.books, PayoutEntry(t, c));
    hide Post;
  }

  /** A rejected or refused cash-out gives its user the whole gross back, in tokens. */
  lemma ReversalReturnsTheGross(t: Tables, c: CashOutId)
    requires c < |t.cashOuts|
    ensures FailCashOut(t, c).Ok? <==> t.cashOuts[c].gross > 0
    ensures
      FailCashOut(t, c).Ok? ==>
        var row, t' := t.cashOuts[c], FailCashOut(t, c).value;
        && t'.books.entries == t.books.entries
             + [Entry(row.user, None, Incoming, UCTUSD, row.gross, EntryStatus.Success, Some(c))]
        && OnlyMoves(t.books, t'.books, row.user, UCTUSD, row.gross)
        && t'.remittances == t.remittances && t'.cashOuts == t.cashOuts[c := row.(status := CashOutStatus.Failed)]
  {
    MovementsAreExact(t.books, ReversalEntry(t, c));
    hide Post;
  }

  // -- every run ------------------------------------------------------------------------------------

  /**
   With nothing assumed, every row of the log is one of seven kinds: each
   says who its wallet, its currency and its amount come from.
   */
  lemma EveryEntryFollowsItsRow(p: Limits.Policy, pool: int, now: Instant, steps: seq<Step>, i: nat)
    requires i < |After(p, Init(pool, now), steps).tables.books.entries|
    ensures
      var t := After(p, Init(pool, now), steps).tables;
      var e := t.books.entries[i];
      match e.remittance
      case Some(id) =>
        && id < |t.remittances| && e.cashOut.None?
        && var r := t.remittances[id];
           || (e.direction.Incoming? && e.status.Success?
               && e.currency == UCTUSD && e.wallet == r.recipient && e.amount == r.uctusd)
           || (e.direction.Incoming? && e.status.Success?
               && e.currency == ZAR && e.wallet == r.sender && e.amount == r.zarCents * 10_000)
           || (e.direction.Outgoing? && e.status.Success?
               && e.currency == ZAR && e.wallet == r.sender && e.amount == r.zarCents * 10_000)
           || (e.direction.Incoming? && e.status.Failed?
               && e.currency == UCTUSD && e.wallet == r.recipient && e.amount == r.uctusd)
      case None =>
        && e.cashOut.Some? && e.cashOut.value < |t.cashOuts| && e.status.Success?
        && var c := t.cashOuts[e.cashOut.value];
           && e.wallet == c.user
           && (|| (e.direction.Outgoing? && e.currency == UCTUSD && e.amount == c.gross)
               || (e.direction.Incoming? && e.currency == UCTUSD && e.amount == c.gross)
               || (e.direction.Incoming? && e.currency == c.payoutCurrency && e.amount == c.payoutAmount))
  {
    InitIsSound(pool, now);
    RunIsSound(p, Init(pool, now), steps);
    var t := After(p, Init(pool, now), steps).tables;
    hide After;
    assert t.books.entries[i] in t.books.entries;
    assert RemittanceEntry(t, t.books.entries[i]) || CashOutEntry(t, t.books.entries[i]);
    hide Sound, Safe;
  }

  /** ...and a final status has its entry: SETTLED its recipient's tokens, REFUNDED its sender's rand. */
  lemma FinalStatusPaidItsParty(p: Limits.Policy, pool: int, now: Instant, steps: seq<Step>, id: RemittanceId)
    requires id < |After(p, Init(pool, now), steps).tables.remittances|
    ensures
      var t := After(p, Init(pool, now), steps).tables;
      var r := t.remittances[id];
      && (r.status.Settled? ==>
            && Entry(r.recipient, Some(id), Incoming, UCTUSD, r.uctusd, EntryStatus.Success, None) in t.books.entries
            && Entry(r.sender, Some(id), Outgoing, ZAR, r.zarCents * 10_000, EntryStatus.Success, None)
               in t.books.entries)
      && (r.status.Refunded? ==>
            Entry(r.sender, Some(id), Incoming, ZAR, r.zarCents * 10_000, EntryStatus.Success, None) in t.books.entries)
  {
    InitIsSound(pool, now);
    RunIsSound(p, Init(pool, now), steps);
    assert Backed(After(p, Init(pool, now), steps).tables, id);
    hide Sound, After;
  }

  /**
   With fresh cash-out requests, the entry a COMPLETED cash-out points at
   pays its user the payout in the payout's currency, and the entry behind
   every cash-out took the gross from its user.
   */
  lemma CashOutEntriesAreTheRows(
    p: Limits.Policy, pool: int, now: Instant, steps: seq<Step>, a: Assumed, c: CashOutId)
    requires Run(p, Init(pool, now), steps, a) && a.cashOutChecks
    requires IsCashOut(After(p, Init(pool, now), steps), c)
    ensures
      var s := After(p, Init(pool, now), steps);
      var row, log := s.tables.cashOuts[c], s.tables.books.entries;
      && row.debitEntry < |log|
      && log[row.debitEntry] == Entry(row.user, None, Outgoing, UCTUSD, row.gross, EntryStatus.Success, Some(c))
      && (row.status.Completed? <==> row.creditEntry.Some?)
      && (row.status.Completed? ==>
            && row.creditEntry.value < |log|
            && log[row.creditEntry.value]
               == Entry(row.user, None, Incoming, row.payoutCurrency, row.payoutAmount, EntryStatus.Success, Some(c)))
      && (row.status.Failed? ==>
            exists k :: 0 <= k < |log| && k != row.debitEntry
              && log[k] == Entry(row.user, None, Incoming, UCTUSD, row.gross, EntryStatus.Success, Some(c)))
  {
    InitIsSound(pool, now);
    RunStaysAllOrNothing(p, Init(pool, now), steps, a);
    var s := After(p, Init(pool, now), steps);
    assert Accounted(s, c);
    hide Run, After, AllOrNothing, Sound;
    if s.tables.cashOuts[c].status.Failed? {
      assert s.tables.books.entries[s.burns[c].reversal.value] == ReversalEntry(s.tables, c);
    }
  }
}
