/** Recording a failed settlement: it always succeeds, says so once, and forecloses nothing. */
module Failures {
  import opened Wrappers
  import opened Schema
  import opened Bookkeeping
  import opened Transactions
  import opened Protocol
  import opened TableSafety
  import opened SettlementSafety
  import Limits

  /** _fail: an attempt, and a second one without an entry if the unique key refuses the first. */
  function Fail(t: Tables, id: RemittanceId, loaded: RemittanceStatus, noted: bool): Result<Tables, LedgerError>
    requires id < |t.remittances|
  {
    var first := RecordFailure(t, id, loaded, noted);
    if first == Err(UniqueViolation) then RecordFailure(t, id, t.remittances[id].status, false) else first
  }

  ghost predicate IsFailureNoted(t: Tables, id: RemittanceId)
    requires id < |t.remittances|
  {
    FailureEntry(t, id) in t.books.entries
  }

  /** The failure key belongs to the failure entry alone. */
  lemma FailureKeyTakenExactlyIfNoted(t: Tables, id: RemittanceId)
    requires Safe(t) && id < |t.remittances|
    ensures KeyTaken(t.books.entries, KeyOf(FailureEntry(t, id))) <==> IsFailureNoted(t, id)
  {
  }

  /** The two attempts of a handler left alone are Fail, loaded and committed in the same state. */
  lemma UninterruptedHandlerFails(s: State, h: HandlerId)
    requires Sound(s) && Settles(s, h) && s.handlers[h].phase.MustFail?
    ensures
      var id, noted := RemittanceOf(s, h), s.handlers[h].phase.noted;
      var once := CommitFailureStep(LoadForFailureStep(s, h), h);
      var s' := if InPhase(once, h, Finished) then once else CommitFailureStep(LoadForFailureStep(once, h), h);
      && Fail(s.tables, id, StatusOf(s, id), noted) == Ok(s'.tables)
      && InPhase(s', h, Finished)
  {
  }

  /** Fail never fails, moves no balance, and leaves at most one failure entry behind. */
  lemma FailIsTotal(t: Tables, id: RemittanceId, loaded: RemittanceStatus, noted: bool)
    requires Safe(t) && id < |t.remittances|
    ensures Fail(t, id, loaded, noted).Ok?
    ensures
      var t' := Fail(t, id, loaded, noted).value;
      && Safe(t') && Extends(t, t')
      && t'.books.balances == t.books.balances
      && t'.books.entries == t.books.entries + (if noted && !IsFailureNoted(t, id) then [FailureEntry(t, id)] else [])
      && (IsFailureNoted(t', id) <==> noted || IsFailureNoted(t, id))
      && |t'.remittances| == |t.remittances| && t'.cashOuts == t.cashOuts
      && (forall other :: 0 <= other < |t.remittances| && other != id ==> t'.remittances[other] == t.remittances[other])
  {
    assert RemittancePriced(t.remittances[id]);
    FailureKeyTakenExactlyIfNoted(t, id);
    var first := RecordFailure(t, id, loaded, noted);
    if first.Ok? {
      RecordFailureIsSafe(t, id, loaded, noted);
    } else {
      RecordFailureIsSafe(t, id, t.remittances[id].status, false);
    }
    assert t.books.entries + [] == t.books.entries;
    hide Safe;
  }

  /**
   It ends FAILED, except when what it loaded already said FAILED and the
   row has moved on since: then the first attempt's write is not issued.
   */
  lemma FailEndsFailedExactlyWhen(t: Tables, id: RemittanceId, loaded: RemittanceStatus, noted: bool)
    requires Safe(t) && id < |t.remittances|
    ensures Fail(t, id, loaded, noted).Ok?
    ensures Fail(t, id, loaded, noted).value.remittances[id].status.Failed? <==>
              || !loaded.Failed? || t.remittances[id].status.Failed?
              || (noted && IsFailureNoted(t, id))
  {
  }

  /** Failing again changes nothing more. */
  lemma FailIsIdempotent(t: Tables, id: RemittanceId, noted: bool)
    requires Safe(t) && id < |t.remittances|
    ensures Fail(t, id, t.remittances[id].status, noted).Ok?
    ensures var t' := Fail(t, id, t.remittances[id].status, noted).value;
            && t'.remittances[id].status.Failed?
            && Fail(t', id, t'.remittances[id].status, noted) == Ok(t')
  {
    var status := t.remittances[id].status;
    FailIsTotal(t, id, status, noted);
    var t' := Fail(t, id, status, noted).value;
    FailEndsFailedExactlyWhen(t, id, status, noted);
    FailIsTotal(t', id, t'.remittances[id].status, noted);
    FailEndsFailedExactlyWhen(t', id, t'.remittances[id].status, noted);
    var t'' := Fail(t', id, t'.remittances[id].status, noted).value;
    hide Safe;
    assert SameTransfer(t.remittances[id], t'.remittances[id]);
    assert FailureEntry(t', id) == FailureEntry(t, id);
    assert t''.books.entries == t'.books.entries;
    OnlyTheStatusMoves(t', id, t'.remittances[id].status, noted);
    assert t''.remittances == t'.remittances;
  }

  lemma OnlyTheStatusMoves(t: Tables, id: RemittanceId, loaded: RemittanceStatus, noted: bool)
    requires id < |t.remittances| && Fail(t, id, loaded, noted).Ok?
    ensures var t' := Fail(t, id, loaded, noted).value;
            && |t'.remittances| == |t.remittances|
            && t'.remittances[id] == t.remittances[id].(status := t'.remittances[id].status)
            && (forall other :: 0 <= other < |t.remittances| && other != id ==>
                  t'.remittances[other] == t.remittances[other])
  {
  }

  /** A failure, however often recorded, takes nothing away from a later success. */
  lemma SuccessIsStillPossible(
    t: Tables, id: RemittanceId, loaded: RemittanceStatus, noted: bool, later: RemittanceStatus)
    requires Safe(t) && id < |t.remittances|
    ensures Fail(t, id, loaded, noted).Ok?
    ensures RecordSuccess(Fail(t, id, loaded, noted).value, id, later).Ok? <==> RecordSuccess(t, id, later).Ok?
  {
    FailIsTotal(t, id, loaded, noted);
    var t' := Fail(t, id, loaded, noted).value;
    assert SameTransfer(t.remittances[id], t'.remittances[id]);
    forall key: EntryKey | !(key.direction.Incoming? && key.status.Failed?)
      ensures KeyTaken(t'.books.entries, Some(key)) <==> KeyTaken(t.books.entries, Some(key))
    {
      assert forall e :: e in t'.books.entries ==> e in t.books.entries || e == FailureEntry(t, id);
    }
    SuccessDependsOnKeys(t, t', id, later);
    hide Safe;
  }

  lemma SuccessDependsOnKeys(t: Tables, t': Tables, id: RemittanceId, later: RemittanceStatus)
    requires id < |t.remittances| == |t'.remittances| && SameTransfer(t.remittances[id], t'.remittances[id])
    requires t'.books.balances == t.books.balances
    requires forall key: EntryKey :: !(key.direction.Incoming? && key.status.Failed?) ==>
               (KeyTaken(t'.books.entries, Some(key)) <==> KeyTaken(t.books.entries, Some(key)))
    ensures RecordSuccess(t', id, later).Ok? <==> RecordSuccess(t, id, later).Ok?
  {
  }

  /** In every run a remittance has at most one failed incoming entry, however often it failed. */
  lemma AtMostOneFailedEntry(p: Limits.Policy, pool: int, now: Instant, steps: seq<Step>, i: nat, j: nat)
    requires i < j < |After(p, Init(pool, now), steps).tables.books.entries|
    ensures
      var log := After(p, Init(pool, now), steps).tables.books.entries;
      log[i].status.Failed? && log[j].status.Failed? ==>
        log[i].remittance.Some? && log[i].direction.Incoming? && log[i].remittance != log[j].remittance
  {
    InitIsSound(pool, now);
    RunIsSound(p, Init(pool, now), steps);
    var t := After(p, Init(pool, now), steps).tables;
    assert t.books.entries[i] in t.books.entries && t.books.entries[j] in t.books.entries;
    assert RemittanceEntry(t, t.books.entries[i]) || CashOutEntry(t, t.books.entries[i]);
    assert RemittanceEntry(t, t.books.entries[j]) || CashOutEntry(t, t.books.entries[j]);
    assert KeyOf(t.books.entries[i]).Some? ==> KeyOf(t.books.entries[i]) != KeyOf(t.books.entries[j]);
  }
}
