/**
 What one call on the ledger does to balances and entries
 (services/ledger.py), and the audit-log reading of the entries.
 */
module Bookkeeping {
  import opened Wrappers
  import opened Schema
  import opened Sums

  datatype LedgerError = AmountNotPositive | InsufficientFunds | UniqueViolation

  /** NULL remittance ids never collide, so an entry without one has no key. */
  function KeyOf(e: Entry): Option<EntryKey> {
    if e.remittance.Some? then Some(EntryKey(e.remittance.value, e.direction, e.status)) else None
  }

  predicate KeyTaken(entries: seq<Entry>, key: Option<EntryKey>) {
    key.Some? && exists e :: e in entries && KeyOf(e) == key
  }

  function BalanceOf(b: Books, a: Account): nat {
    if a in b.balances then b.balances[a] else 0
  }

  function AccountOf(e: Entry): Account {
    Account(e.wallet, e.currency)
  }

  /** _write_entry: the flush is what meets the unique constraint. */
  function WriteEntry(b: Books, e: Entry): Result<Books, LedgerError> {
    if KeyTaken(b.entries, KeyOf(e)) then Err(UniqueViolation)
    else Ok(b.(entries := b.entries + [e]))
  }

  /** The balance half of _move, done before the entry is written. */
  function MoveBalance(b: Books, e: Entry): Result<Books, LedgerError> {
    var held := BalanceOf(b, AccountOf(e));
    if e.amount <= 0 then Err(AmountNotPositive)
    else if e.direction.Incoming? then Ok(b.(balances := b.balances[AccountOf(e) := held + e.amount]))
    else if held < e.amount then Err(InsufficientFunds)
    else Ok(b.(balances := b.balances[AccountOf(e) := held - e.amount]))
  }

  /** credit and debit: a balance and the entry behind it. */
  function Post(b: Books, e: Entry): Result<Books, LedgerError> {
    var moved :- MoveBalance(b, e);
    WriteEntry(moved, e)
  }

  /** record_external: an entry that moves no balance. */
  function Record(b: Books, e: Entry): Result<Books, LedgerError> {
    if e.amount <= 0 then Err(AmountNotPositive) else WriteEntry(b, e)
  }

  // -- the audit log ----------------------------------------------------

  /** A SUCCESS entry moved a balance, unless it is the rand leg of a remittance. */
  predicate MovesBalance(e: Entry) {
    e.status.Success? && !(e.currency.ZAR? && e.remittance.Some?)
  }

  function Movement(e: Entry, a: Account): int {
    if !MovesBalance(e) || AccountOf(e) != a then 0
    else if e.direction.Incoming? then e.amount
    else -e.amount
  }

  /** A balance as the audit log alone tells it. */
  function Replay(entries: seq<Entry>, a: Account): int {
    if entries == [] then 0
    else Replay(entries[..|entries| - 1], a) + Movement(entries[|entries| - 1], a)
  }

  ghost predicate BooksAgree(b: Books) {
    forall a: Account :: BalanceOf(b, a) == Replay(b.entries, a)
  }

  ghost predicate UniqueKeys(entries: seq<Entry>) {
    forall i, j :: 0 <= i < j < |entries| && KeyOf(entries[i]).Some? ==> KeyOf(entries[i]) != KeyOf(entries[j])
  }

  lemma ReplayAppend(entries: seq<Entry>, e: Entry, a: Account)
    ensures Replay(entries + [e], a) == Replay(entries, a) + Movement(e, a)
  {
  }

  /** A movement keeps the log replayable exactly when the log counts its entry. */
  lemma PostKeepsBooksAgreeing(b: Books, e: Entry)
    requires BooksAgree(b) && Post(b, e).Ok?
    ensures BooksAgree(Post(b, e).value) <==> MovesBalance(e)
  {
    var b' := Post(b, e).value;
    forall a: Account
      ensures MovesBalance(e) ==> BalanceOf(b', a) == Replay(b'.entries, a)
    {
      ReplayAppend(b.entries, e, a);
    }
    if !MovesBalance(e) {
      ReplayAppend(b.entries, e, AccountOf(e));
      assert BalanceOf(b', AccountOf(e)) != Replay(b'.entries, AccountOf(e));
    }
  }

  /** A record keeps the log replayable exactly when the log skips its entry. */
  lemma RecordKeepsBooksAgreeing(b: Books, e: Entry)
    requires BooksAgree(b) && Record(b, e).Ok?
    ensures BooksAgree(Record(b, e).value) <==> !MovesBalance(e)
  {
    var b' := Record(b, e).value;
    forall a: Account
      ensures !MovesBalance(e) ==> BalanceOf(b', a) == Replay(b'.entries, a)
    {
      ReplayAppend(b.entries, e, a);
    }
    if MovesBalance(e) {
      ReplayAppend(b.entries, e, AccountOf(e));
      assert BalanceOf(b', AccountOf(e)) != Replay(b'.entries, AccountOf(e));
    }
  }

  // -- totals -----------------------------------------------------------

  /** Everything customers hold in one currency. */
  ghost function TotalHeld(b: Books, c: Currency): int {
    MapSum(HeldIn(b.balances, c))
  }

  ghost function HeldIn(balances: map<Account, nat>, c: Currency): map<Account, int> {
    map a | a in balances && a.currency == c :: balances[a] as int
  }

  lemma PostMovesTotal(b: Books, e: Entry, c: Currency)
    requires Post(b, e).Ok?
    ensures TotalHeld(Post(b, e).value, c) == TotalHeld(b, c) +
            (if e.currency != c then 0 else if e.direction.Incoming? then e.amount else -e.amount)
  {
    var b' := Post(b, e).value;
    var a := AccountOf(e);
    if e.currency == c {
      assert HeldIn(b'.balances, c) == HeldIn(b.balances, c)[a := b'.balances[a]];
      MapSumPut(HeldIn(b.balances, c), a, b'.balances[a]);
    } else {
      assert HeldIn(b'.balances, c) == HeldIn(b.balances, c);
    }
  }

  lemma {:induction false} TotalHeldNonNegative(b: Books, c: Currency)
    ensures TotalHeld(b, c) >= 0
  {
    MapSumNonNegative(HeldIn(b.balances, c));
  }

  lemma {:induction false} MapSumNonNegative(m: map<Account, int>)
    requires forall a :: a in m ==> m[a] >= 0
    ensures MapSum(m) >= 0
    decreases |m|
  {
    if m != map[] {
      var a :| a in m;
      MapSumRemove(m, a);
      MapSumNonNegative(m - {a});
    }
  }
}
