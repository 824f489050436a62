/** The internal ledger (services/ledger.py): balances updated in place, each with the entry behind it. */
module LedgerService {
  import opened Wrappers
  import opened Schema
  import opened Bookkeeping
  import opened Database

  /**
   What a call may leave in its session.  A refused call leaves no entry, but
   a movement refused by the unique key has moved its balance by then: the
   caller has to roll back, and every caller does.
   */
  ghost predicate Writes(t: Tables, t': Tables, result: Result<Books, LedgerError>, r: Result<nat, LedgerError>) {
    match result
    case Ok(books) => r == Ok(|t.books.entries|) && t' == t.(books := books)
    case Err(error) =>
      && r == Err(error)
      && t' == t.(books := t'.books) && t'.books.entries == t.books.entries
      && (!error.UniqueViolation? ==> forall a: Account :: BalanceOf(t'.books, a) == BalanceOf(t.books, a))
  }

  class Ledger {
    const db: Session

    constructor (db: Session)
      ensures this.db == db
    {
      this.db := db;
    }

    method Credit(
      wallet: UserId, currency: Currency, amount: int, remittance: Option<RemittanceId>, cashOut: Option<CashOutId>)
      returns (r: Result<nat, LedgerError>)
      modifies db`work
      ensures
        var e := Entry(wallet, remittance, Incoming, currency, amount, EntryStatus.Success, cashOut);
        Writes(old(db.work), db.work, Post(old(db.work).books, e), r)
    {
      r := Move(wallet, Incoming, currency, amount, remittance, cashOut);
    }

    method Debit(wallet: UserId, currency: Currency, amount: int, cashOut: Option<CashOutId>)
      returns (r: Result<nat, LedgerError>)
      modifies db`work
      ensures
        var e := Entry(wallet, None, Outgoing, currency, amount, EntryStatus.Success, cashOut);
        Writes(old(db.work), db.work, Post(old(db.work).books, e), r)
    {
      r := Move(wallet, Outgoing, currency, amount, None, cashOut);
    }

    method RecordExternal(
      wallet: UserId, direction: Direction, currency: Currency, amount: int,
      remittance: Option<RemittanceId>, status: EntryStatus)
      returns (r: Result<nat, LedgerError>)
      modifies db`work
      ensures
        var e := Entry(wallet, remittance, direction, currency, amount, status, None);
        Writes(old(db.work), db.work, Record(old(db.work).books, e), r)
    {
      if amount <= 0 {
        return Err(AmountNotPositive);
      }
      r := Write(Entry(wallet, remittance, direction, currency, amount, status, None));
    }

    method Balance(wallet: UserId, currency: Currency) returns (held: nat)
      ensures held == BalanceOf(db.work.books, Account(wallet, currency))
    {
      var a := Account(wallet, currency);
      if a in db.work.books.balances {
        return db.work.books.balances[a];
      }
      return 0;
    }

    /** The row to update, created at zero on a wallet's first movement in a currency. */
    method LockedBalanceRow(a: Account) returns (held: nat)
      modifies db`work
      ensures
        && db.work == old(db.work).(books := old(db.work).books.(balances := old(db.work).books.balances[a := held]))
        && held == BalanceOf(old(db.work).books, a)
    {
      if a !in db.work.books.balances {
        db.work := db.work.(books := db.work.books.(balances := db.work.books.balances[a := 0]));
      }
      held := db.work.books.balances[a];
      assert db.work.books.balances == db.work.books.balances[a := held];
    }

    method Move(
      wallet: UserId, direction: Direction, currency: Currency, amount: int,
      remittance: Option<RemittanceId>, cashOut: Option<CashOutId>)
      returns (r: Result<nat, LedgerError>)
      modifies db`work
      ensures
        var e := Entry(wallet, remittance, direction, currency, amount, EntryStatus.Success, cashOut);
        Writes(old(db.work), db.work, Post(old(db.work).books, e), r)
    {
      if amount <= 0 {
        return Err(AmountNotPositive);
      }
      var a := Account(wallet, currency);
      var held := LockedBalanceRow(a);
      ghost var books := old(db.work).books;
      if direction.Incoming? {
        held := held + amount;
      } else {
        if held - amount < 0 {
          return Err(InsufficientFunds);
        }
        held := held - amount;
      }
      db.work := db.work.(books := db.work.books.(balances := db.work.books.balances[a := held]));
      assert books.balances[a := BalanceOf(books, a)][a := held] == books.balances[a := held];
      r := Write(Entry(wallet, remittance, direction, currency, amount, EntryStatus.Success, cashOut));
    }

    method Write(e: Entry) returns (r: Result<nat, LedgerError>)
      modifies db`work
      ensures
        var written := WriteEntry(old(db.work).books, e);
        if written.Ok? then r == Ok(|old(db.work).books.entries|) && db.work == old(db.work).(books := written.value)
        else r == Err(written.error) && db.work == old(db.work)
    {
      var taken := KeyIsTaken(KeyOf(e));
      if taken {
        return Err(UniqueViolation);
      }
      var id := |db.work.books.entries|;
      db.work := db.work.(books := db.work.books.(entries := db.work.books.entries + [e]));
      return Ok(id);
    }

    /** The unique index, consulted as the flush does. */
    method KeyIsTaken(key: Option<EntryKey>) returns (taken: bool)
      ensures taken <==> KeyTaken(db.work.books.entries, key)
    {
      var entries := db.work.books.entries;
      for i := 0 to |entries|
        invariant key.Some? ==> forall j :: 0 <= j < i ==> KeyOf(entries[j]) != key
      {
        if key.Some? && KeyOf(entries[i]) == key {
          assert entries[i] in entries;
          return true;
        }
      }
      return false;
    }
  }
}
