/** Cash-out requests under an idempotency key: a key opens at most one cash-out, and replays change nothing. */
module Idempotency {
  import opened Wrappers
  import opened Schema
  import opened Bookkeeping
  import opened Transactions
  import opened Stream
  import opened Protocol
  import opened TableSafety
  import opened SettlementSafety
  import opened Frames
  import Fees
  import Limits

  ghost predicate KeysUnique(rows: seq<CashOut>) {
    forall i, j :: 0 <= i < j < |rows| && rows[i].key.Some? ==> rows[i].key != rows[j].key
  }

  /** request_cash_out: the row the caller gets back, and the tables it leaves. */
  function RequestCashOut(t: Tables, user: UserId, price: Fees.CashOutQuote, key: Option<string>):
    Result<(Tables, CashOutId), LedgerError>
  {
    var replayed := if key.Some? then FindCashOut(t.cashOuts, user, key.value) else None;
    if replayed.Some? then Ok((t, replayed.value))
    else
      var opened' :- OpenCashOut(t, user, price, key);
      Ok((opened', |t.cashOuts|))
  }

  /** The one row that carries a key is the one a lookup by its owner finds. */
  lemma FindsTheOwnersRow(rows: seq<CashOut>, user: UserId, key: string, i: nat)
    requires KeysUnique(rows) && i < |rows| && rows[i].key == Some(key)
    ensures FindCashOut(rows, user, key) == if rows[i].user == user then Some(i) else None
  {
  }

  /**
   Once a key has opened a cash-out, its owner asking again at any later
   time, for any amount, gets that cash-out back and changes nothing, and
   nobody else can use the key at all.
   */
  lemma LaterRequestsReplay(
    t: Tables, user: UserId, price: Fees.CashOutQuote, key: string, later: Tables,
    caller: UserId, again: Fees.CashOutQuote)
    requires RequestCashOut(t, user, price, Some(key)).Ok?
    requires Extends(RequestCashOut(t, user, price, Some(key)).value.0, later) && KeysUnique(later.cashOuts)
    ensures
      var id := RequestCashOut(t, user, price, Some(key)).value.1;
      if caller == user then RequestCashOut(later, caller, again, Some(key)) == Ok((later, id))
      else RequestCashOut(later, caller, again, Some(key)).Err?
  {
    var (t1, id) := RequestCashOut(t, user, price, Some(key)).value;
    assert id < |t1.cashOuts| && t1.cashOuts[id].user == user && t1.cashOuts[id].key == Some(key);
    assert SameCashOut(t1.cashOuts[id], later.cashOuts[id]);
    FindsTheOwnersRow(later.cashOuts, caller, key, id);
    assert KeyInUse(later, Some(key));
  }

  // -- every run --------------------------------------------------------------------------------

  /** No step gives a row another key. */
  lemma StepKeepsKeysUnique(p: Limits.Policy, s: State, step: Step)
    requires Sound(s) && KeysUnique(s.tables.cashOuts)
    ensures KeysUnique(Apply(p, s, step).tables.cashOuts)
  {
    var rows, rows' := s.tables.cashOuts, Apply(p, s, step).tables.cashOuts;
    StepIsSound(p, s, step);
    assert |rows| <= |rows'| && forall id: nat :: id < |rows| ==> SameCashOut(rows[id], rows'[id]);
    NewRowsComeFromRequests(p, s, step);
    if OpensCashOut(s, step) {
      var r := s.requests[step.q];
      OpenedRowHasAFreshKey(s.tables, r.user, r.price, r.key);
      var t' := OpenCashOut(s.tables, r.user, r.price, r.key);
      assert rows' == if t'.Ok? then t'.value.cashOuts else rows;
    }
    hide Sound, Apply, OpenCashOut;
  }

  lemma OpenedRowHasAFreshKey(t: Tables, user: UserId, price: Fees.CashOutQuote, key: Option<string>)
    ensures OpenCashOut(t, user, price, key).Ok? ==>
            var rows' := OpenCashOut(t, user, price, key).value.cashOuts;
            && |rows'| == |t.cashOuts| + 1 && rows'[..|t.cashOuts|] == t.cashOuts
            && rows'[|t.cashOuts|].key == key
            && (key.Some? ==> forall i :: 0 <= i < |t.cashOuts| ==> t.cashOuts[i].key != key)
  {
  }

  lemma {:induction false} RunKeepsKeysUnique(p: Limits.Policy, s: State, steps: seq<Step>)
    requires Sound(s) && KeysUnique(s.tables.cashOuts)
    ensures KeysUnique(After(p, s, steps).tables.cashOuts) && Extends(s.tables, After(p, s, steps).tables)
    decreases |steps|
  {
    if steps != [] {
      var s1 := Apply(p, s, steps[0]);
      StepIsSound(p, s, steps[0]);
      StepKeepsKeysUnique(p, s, steps[0]);
      assert Extends(s.tables, s1.tables);
      hide Sound, Grows, Apply, KeysUnique, Extends;
      RunKeepsKeysUnique(p, s1, steps[1..]);
      ExtendsIsTransitive(s.tables, s1.tables, After(p, s1, steps[1..]).tables);
    } else {
      hide Sound;
    }
  }

  lemma ExtendsIsTransitive(t: Tables, t1: Tables, t2: Tables)
    requires Extends(t, t1) && Extends(t1, t2)
    ensures Extends(t, t2)
  {
  }

  /**
   In every interleaving of requests a key opens at most one cash-out, and
   a replay at any later point of any run returns it and changes nothing.
   */
  lemma EachKeyOpensOneCashOut(
    p: Limits.Policy, pool: int, now: Instant, steps: seq<Step>, more: seq<Step>,
    c: CashOutId, price: Fees.CashOutQuote)
    requires IsCashOut(After(p, Init(pool, now), steps), c)
    requires After(p, Init(pool, now), steps).tables.cashOuts[c].key.Some?
    ensures
      var row := After(p, Init(pool, now), steps).tables.cashOuts[c];
      var later := After(p, After(p, Init(pool, now), steps), more).tables;
      && c < |later.cashOuts|
      && (forall i :: 0 <= i < |later.cashOuts| && later.cashOuts[i].key == row.key ==> i == c)
      && RequestCashOut(later, row.user, price, row.key) == Ok((later, c))
  {
    InitIsSound(pool, now);
    RunKeepsKeysUnique(p, Init(pool, now), steps);
    RunIsSound(p, Init(pool, now), steps);
    var s := After(p, Init(pool, now), steps);
    RunKeepsKeysUnique(p, s, more);
    var later := After(p, s, more).tables;
    hide Sound, After;
    assert SameCashOut(s.tables.cashOuts[c], later.cashOuts[c]);
    FindsTheOwnersRow(later.cashOuts, s.tables.cashOuts[c].user, s.tables.cashOuts[c].key.value, c);
  }

  /** A request that loses the race for its key commits nothing: its debit goes back with its row. */
  lemma LosingRequestCommitsNothing(p: Limits.Policy, s: State, q: RequestId)
    requires q in s.requests && s.requests[q].CashingOut?
    ensures KeyInUse(s.tables, s.requests[q].key) ==> CommitStep(p, s, q) == Done(s, q)
    ensures CommitStep(p, s, q).tables == s.tables ||
            (var r, t' := s.requests[q], CommitStep(p, s, q).tables;
             && !KeyInUse(s.tables, r.key)
             && t'.books.entries == s.tables.books.entries + [DebitEntry(r.user, r.price.gross, |s.tables.cashOuts|)]
             && |t'.cashOuts| == |s.tables.cashOuts| + 1
             && t'.cashOuts[|s.tables.cashOuts|].debitEntry == |s.tables.books.entries|
             && BalanceOf(t'.books, Account(r.user, UCTUSD))
                  == BalanceOf(s.tables.books, Account(r.user, UCTUSD)) - r.price.gross)
  {
  }
}
