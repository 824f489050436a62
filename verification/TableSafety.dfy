/** What every transaction keeps true of the tables, whatever it races with. */
module TableSafety {
  import opened Wrappers
  import opened Schema
  import opened Bookkeeping
  import opened Transactions
  import Fees
  import Limits

  // -- the invariant ---------------------------------------------------------

  ghost predicate RemittanceEntry(t: Tables, e: Entry) {
    && e.remittance.Some? && e.remittance.value < |t.remittances|
    && var id := e.remittance.value;
       e == CreditEntry(t, id) || e == SentEntry(t, id) || e == FailureEntry(t, id) || e == RefundEntry(t, id)
  }

  ghost predicate CashOutEntry(t: Tables, e: Entry) {
    && e.remittance.None? && e.cashOut.Some? && e.cashOut.value < |t.cashOuts|
    && var id := e.cashOut.value;
       var c := t.cashOuts[id];
       e == DebitEntry(c.user, c.gross, id) || e == ReversalEntry(t, id) || e == PayoutEntry(t, id)
  }

  /** Every row of the log is one of the seven kinds the system writes. */
  ghost predicate EntriesKnown(t: Tables) {
    forall e :: e in t.books.entries ==> RemittanceEntry(t, e) || CashOutEntry(t, e)
  }

  ghost predicate IsCredited(t: Tables, id: RemittanceId) {
    id < |t.remittances| && CreditEntry(t, id) in t.books.entries
  }

  ghost predicate IsRefunded(t: Tables, id: RemittanceId) {
    id < |t.remittances| && RefundEntry(t, id) in t.books.entries
  }

  /** A final status is backed by its entry, and the two legs of a credit are written together. */
  ghost predicate Backed(t: Tables, id: RemittanceId)
    requires id < |t.remittances|
  {
    && (t.remittances[id].status.Settled? ==> IsCredited(t, id))
    && (t.remittances[id].status.Refunded? ==> IsRefunded(t, id))
    && (IsCredited(t, id) <==> SentEntry(t, id) in t.books.entries)
  }

  predicate RemittancePriced(r: Remittance) {
    r.zarCents > 0 && r.uctusd > 0
  }

  predicate CashOutPriced(c: CashOut) {
    c.gross == c.fee + c.net && c.net > 0 && !c.payoutCurrency.UCTUSD?
  }

  ghost predicate RowsPriced(t: Tables) {
    && (forall id: nat :: id < |t.remittances| ==> RemittancePriced(t.remittances[id]))
    && (forall id: nat :: id < |t.cashOuts| ==> CashOutPriced(t.cashOuts[id]))
  }

  ghost predicate Safe(t: Tables) {
    && RowsPriced(t)
    && EntriesKnown(t)
    && UniqueKeys(t.books.entries)
    && BooksAgree(t.books)
    && forall id: nat :: id < |t.remittances| ==> Backed(t, id)
  }

  // -- rows may change status, never what they are for -------------------------

  predicate SameTransfer(r: Remittance, r': Remittance) {
    r'.sender == r.sender && r'.recipient == r.recipient && r'.zarCents == r.zarCents && r'.uctusd == r.uctusd
  }

  predicate SameCashOut(c: CashOut, c': CashOut) {
    && c'.user == c.user && c'.gross == c.gross && c'.fee == c.fee && c'.net == c.net
    && c'.payoutCurrency == c.payoutCurrency && c'.payoutAmount == c.payoutAmount
    && c'.key == c.key && c'.debitEntry == c.debitEntry
  }

  ghost predicate Extends(t: Tables, t': Tables) {
    && |t.remittances| <= |t'.remittances| && |t.cashOuts| <= |t'.cashOuts|
    && t.books.entries <= t'.books.entries
    && (forall id: nat :: id < |t.remittances| ==> SameTransfer(t.remittances[id], t'.remittances[id]))
    && (forall id: nat :: id < |t.cashOuts| ==> SameCashOut(t.cashOuts[id], t'.cashOuts[id]))
  }

  lemma KnownEntriesStayKnown(t: Tables, t': Tables, e: Entry)
    requires Extends(t, t')
    ensures RemittanceEntry(t, e) ==> RemittanceEntry(t', e)
    ensures CashOutEntry(t, e) ==> CashOutEntry(t', e)
  {
  }

  /** An update of rows alone, that moves no remittance into a final status, is safe. */
  lemma RowUpdateIsSafe(t: Tables, t': Tables)
    requires Safe(t) && Extends(t, t') && RowsPriced(t') && t'.books == t.books
    requires forall id: nat :: id < |t'.remittances| ==>
               var s := t'.remittances[id].status;
               (s.Settled? || s.Refunded?) ==> id < |t.remittances| && t.remittances[id].status == s
    ensures Safe(t')
  {
    forall e | e in t'.books.entries
      ensures RemittanceEntry(t', e) || CashOutEntry(t', e)
    {
      KnownEntriesStayKnown(t, t', e);
    }
    forall id: nat | id < |t'.remittances|
      ensures Backed(t', id)
    {
      if id < |t.remittances| {
        assert Backed(t, id);
      } else {
        assert CreditEntry(t', id).remittance == SentEntry(t', id).remittance == Some(id);
      }
    }
  }

  // -- transactions that write entries ---------------------------------------------

  /** The part of Safe that one more entry has to earn. */
  ghost predicate SafeLog(t: Tables) {
    && RowsPriced(t)
    && EntriesKnown(t)
    && UniqueKeys(t.books.entries)
    && BooksAgree(t.books)
  }

  lemma AppendKeepsLogSafe(t: Tables, t': Tables, e: Entry)
    requires SafeLog(t) && Extends(t, t') && RowsPriced(t')
    requires t'.books.entries == t.books.entries + [e]
    requires !KeyTaken(t.books.entries, KeyOf(e)) && BooksAgree(t'.books)
    requires RemittanceEntry(t', e) || CashOutEntry(t', e)
    ensures SafeLog(t')
  {
  }

  lemma RowUpdateKeepsLogSafe(t: Tables, t': Tables)
    requires SafeLog(t) && Extends(t, t') && RowsPriced(t') && t'.books == t.books
    ensures SafeLog(t')
  {
  }

  lemma CreditKeepsLogSafe(t: Tables, id: RemittanceId)
    requires SafeLog(t) && id < |t.remittances| && Post(t.books, CreditEntry(t, id)).Ok?
    ensures var t' := t.(books := Post(t.books, CreditEntry(t, id)).value);
            SafeLog(t') && t'.books.entries == t.books.entries + [CreditEntry(t, id)]
  {
    PostKeepsBooksAgreeing(t.books, CreditEntry(t, id));
    AppendKeepsLogSafe(t, t.(books := Post(t.books, CreditEntry(t, id)).value), CreditEntry(t, id));
  }

  lemma NoteKeepsLogSafe(t: Tables, id: RemittanceId)
    requires SafeLog(t) && id < |t.remittances| && Record(t.books, SentEntry(t, id)).Ok?
    ensures var t' := t.(books := Record(t.books, SentEntry(t, id)).value);
            SafeLog(t') && t'.books.entries == t.books.entries + [SentEntry(t, id)]
  {
    RecordKeepsBooksAgreeing(t.books, SentEntry(t, id));
    AppendKeepsLogSafe(t, t.(books := Record(t.books, SentEntry(t, id)).value), SentEntry(t, id));
  }

  /** A credit and its note back one remittance and say nothing of the others. */
  lemma CreditAndNoteBack(t: Tables, t': Tables, id: RemittanceId, other: RemittanceId)
    requires id < |t.remittances| == |t'.remittances| && other < |t.remittances| && Backed(t, other)
    requires t'.books.entries == t.books.entries + [CreditEntry(t, id)] + [SentEntry(t, id)]
    requires SameTransfer(t.remittances[other], t'.remittances[other])
    requires t'.remittances[other].status == t.remittances[other].status
             || (other == id && !t'.remittances[other].status.Refunded?)
    ensures Backed(t', other)
  {
  }

  /** Settling: credit, note and status in one transaction. */
  lemma RecordSuccessIsSafe(t: Tables, id: RemittanceId, loaded: RemittanceStatus)
    requires Safe(t) && id < |t.remittances| && RecordSuccess(t, id, loaded).Ok?
    ensures var t' := RecordSuccess(t, id, loaded).value;
            Safe(t') && Extends(t, t') && IsCredited(t', id) && !IsCredited(t, id)
  {
    var credit, sent := CreditEntry(t, id), SentEntry(t, id);
    var t1 := t.(books := Post(t.books, credit).value);
    var t2 := t1.(books := Record(t1.books, sent).value);
    var t' := RecordSuccess(t, id, loaded).value;
    assert SafeLog(t) && !KeyTaken(t.books.entries, KeyOf(credit));
    assert forall other: nat :: other < |t.remittances| ==> Backed(t, other);
    assert RowsPriced(t');
    assert Extends(t2, t') && Extends(t, t') && t'.books == t2.books;
    CreditKeepsLogSafe(t, id);
    NoteKeepsLogSafe(t1, id);
    hide SafeLog, RowsPriced, Backed, Extends, Post, Record;
    RowUpdateKeepsLogSafe(t2, t');
    forall other: nat | other < |t'.remittances|
      ensures Backed(t', other)
    {
      CreditAndNoteBack(t, t', id, other);
    }
    assert t'.books.entries[|t.books.entries|] == credit;
    SafeFromParts(t');
  }

  lemma SafeFromParts(t: Tables)
    requires SafeLog(t) && forall id: nat :: id < |t.remittances| ==> Backed(t, id)
    ensures Safe(t)
  {
  }

  lemma RecordFailureIsSafe(t: Tables, id: RemittanceId, loaded: RemittanceStatus, noted: bool)
    requires Safe(t) && id < |t.remittances| && RecordFailure(t, id, loaded, noted).Ok?
    ensures var t' := RecordFailure(t, id, loaded, noted).value; Safe(t') && Extends(t, t')
  {
    var t1 := if noted then t.(books := Record(t.books, FailureEntry(t, id)).value) else t;
    if noted {
      RecordKeepsBooksAgreeing(t.books, FailureEntry(t, id));
      AppendKeepsLogSafe(t, t1, FailureEntry(t, id));
      forall other: nat | other < |t1.remittances|
        ensures Backed(t1, other)
      {
        assert Backed(t, other);
      }
    }
    RowUpdateIsSafe(t1, RecordFailure(t, id, loaded, noted).value);
  }

  lemma RefundIsSafe(t: Tables, id: RemittanceId)
    requires Safe(t) && id < |t.remittances| && Refund(t, id).Ok?
    ensures var t' := Refund(t, id).value;
            Safe(t') && Extends(t, t') && IsRefunded(t', id) && !IsCredited(t', id)
  {
    var e := RefundEntry(t, id);
    var t1 := t.(books := Record(t.books, e).value);
    var t' := Refund(t, id).value;
    RecordKeepsBooksAgreeing(t.books, e);
    AppendKeepsLogSafe(t, t1, e);
    assert KeyOf(CreditEntry(t, id)) == KeyOf(e);
    forall other: nat | other < |t'.remittances|
      ensures Backed(t', other)
    {
      assert Backed(t, other);
    }
    forall f | f in t'.books.entries
      ensures RemittanceEntry(t', f) || CashOutEntry(t', f)
    {
      KnownEntriesStayKnown(t1, t', f);
    }
  }

  /** A cash-out entry touches no remittance's key. */
  lemma CashOutEntryIsSafe(t: Tables, t': Tables, e: Entry)
    requires Safe(t) && Extends(t, t') && RowsPriced(t') && t'.remittances == t.remittances
    requires Post(t.books, e).Ok? && t'.books == Post(t.books, e).value
    requires CashOutEntry(t', e)
    ensures Safe(t')
  {
    PostKeepsBooksAgreeing(t.books, e);
    AppendKeepsLogSafe(t, t', e);
    forall other: nat | other < |t'.remittances|
      ensures Backed(t', other)
    {
      assert Backed(t, other);
    }
  }

  lemma CompleteCashOutIsSafe(t: Tables, id: CashOutId)
    requires Safe(t) && id < |t.cashOuts| && CompleteCashOut(t, id).Ok?
    ensures var t' := CompleteCashOut(t, id).value; Safe(t') && Extends(t, t')
  {
    CashOutEntryIsSafe(t, CompleteCashOut(t, id).value, PayoutEntry(t, id));
  }

  lemma FailCashOutIsSafe(t: Tables, id: CashOutId)
    requires Safe(t) && id < |t.cashOuts|
    ensures FailCashOut(t, id).Ok?
    ensures var t' := FailCashOut(t, id).value; Safe(t') && Extends(t, t')
  {
    assert CashOutPriced(t.cashOuts[id]);
    CashOutEntryIsSafe(t, FailCashOut(t, id).value, ReversalEntry(t, id));
  }

  lemma OpenCashOutIsSafe(t: Tables, user: UserId, q: Fees.CashOutQuote, key: Option<string>)
    requires Safe(t) && OpenCashOut(t, user, q, key).Ok?
    requires q.gross == q.fee + q.net && q.net > 0 && !q.payoutCurrency.UCTUSD?
    ensures var t' := OpenCashOut(t, user, q, key).value; Safe(t') && Extends(t, t')
  {
    CashOutEntryIsSafe(t, OpenCashOut(t, user, q, key).value, DebitEntry(user, q.gross, |t.cashOuts|));
  }
}
