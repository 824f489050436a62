/** The settlement stream as its clients drive it (services/settlement_queue.py). */
module QueueService {
  import opened Schema
  import opened Stream

  /** The first `count` of the wanted entry ids, oldest first. */
  ghost predicate IsPick(batch: seq<EntryId>, wanted: set<EntryId>, count: nat) {
    && |batch| <= count
    && (forall i, j :: 0 <= i < j < |batch| ==> batch[i] < batch[j])
    && (forall e :: e in batch ==> e in wanted)
    && (forall e :: e in wanted && e !in batch ==> |batch| == count && forall f :: f in batch ==> f < e)
  }

  /** A pick leaves nothing open: the same wants and count always give the same batch. */
  lemma PicksAreUnique(a: seq<EntryId>, b: seq<EntryId>, wanted: set<EntryId>, count: nat)
    requires IsPick(a, wanted, count) && IsPick(b, wanted, count)
    ensures a == b
  {
    if |a| <= |b| {
      PicksAgree(a, b, wanted, count, |a|);
      PickIsComplete(a, b, wanted, count);
    } else {
      PicksAgree(b, a, wanted, count, |b|);
      PickIsComplete(b, a, wanted, count);
    }
  }

  lemma {:induction false} PicksAgree(a: seq<EntryId>, b: seq<EntryId>, wanted: set<EntryId>, count: nat, n: nat)
    requires IsPick(a, wanted, count) && IsPick(b, wanted, count)
    requires n <= |a| && n <= |b|
    ensures a[..n] == b[..n]
  {
    if n > 0 {
      PicksAgree(a, b, wanted, count, n - 1);
      NoEarlierPick(a, b, wanted, count, n - 1);
      NoEarlierPick(b, a, wanted, count, n - 1);
      assert a[..n] == a[..n - 1] + [a[n - 1]] && b[..n] == b[..n - 1] + [b[n - 1]];
    }
  }

  lemma NoEarlierPick(a: seq<EntryId>, b: seq<EntryId>, wanted: set<EntryId>, count: nat, k: nat)
    requires IsPick(a, wanted, count) && IsPick(b, wanted, count)
    requires k < |a| && k < |b| && a[..k] == b[..k]
    ensures a[k] >= b[k]
  {
    PrefixAgrees(a, b, k);
    assert a[k] in a && b[k] in b;
    if a[k] in b {
      var j :| 0 <= j < |b| && b[j] == a[k];
    }
  }

  lemma PrefixAgrees(a: seq<EntryId>, b: seq<EntryId>, k: nat)
    requires k <= |a| && k <= |b| && a[..k] == b[..k]
    ensures forall i :: 0 <= i < k ==> a[i] == b[i]
  {
  }

  lemma NothingRepeats(a: seq<EntryId>, b: seq<EntryId>)
    requires forall i, j :: 0 <= i < j < |b| ==> b[i] < b[j]
    requires |a| <= |b| && forall i :: 0 <= i < |a| ==> a[i] == b[i]
    ensures |a| < |b| ==> b[|a|] !in a
  {
  }

  lemma PickIsComplete(a: seq<EntryId>, b: seq<EntryId>, wanted: set<EntryId>, count: nat)
    requires IsPick(a, wanted, count) && IsPick(b, wanted, count)
    requires |a| <= |b| && a[..|a|] == b[..|a|]
    ensures a == b
  {
    PrefixAgrees(a, b, |a|);
    NothingRepeats(a, b);
    assert forall i :: 0 <= i < |b| ==> b[i] in b && b[i] in wanted;
    assert |a| == |b|;
  }

  function ReassignedAll(g: Group, batch: seq<EntryId>, c: Consumer): Group {
    if batch == [] then g
    else Reassigned(ReassignedAll(g, batch[..|batch| - 1], c), batch[|batch| - 1], c)
  }

  /** Handing a batch over changes whose its entries are, and nothing else. */
  lemma {:induction false} HandedOver(g: Group, batch: seq<EntryId>, c: Consumer)
    requires forall e :: e in batch ==> e in g.pending
    ensures
      var g' := ReassignedAll(g, batch, c);
      && g'.messages == g.messages && g'.delivered == g.delivered && g'.pending.Keys == g.pending.Keys
      && forall e :: e in g.pending ==> g'.pending[e] == if e in batch then c else g.pending[e]
  {
    if batch != [] {
      var n := |batch| - 1;
      assert batch[n] in batch && forall e :: e in batch <==> e in batch[..n] || e == batch[n];
      HandedOver(g, batch[..n], c);
    }
  }

  class SettlementQueue {
    var messages: seq<Message>
    var delivered: nat
    var pending: map<EntryId, Consumer>

    constructor ()
      ensures View() == Group([], 0, map[])
    {
      messages, delivered, pending := [], 0, map[];
    }

    function View(): Group
      reads this
    {
      Group(messages, delivered, pending)
    }

    method Publish(id: RemittanceId) returns (e: EntryId)
      modifies this
      ensures View() == Added(old(View()), SettleRemittance(id)) && e == |old(messages)|
      ensures messages == old(messages) + [SettleRemittance(id)]
      ensures delivered == old(delivered) && pending == old(pending)
    {
      e := |messages|;
      messages := messages + [SettleRemittance(id)];
    }

    method PublishCashOut(id: CashOutId) returns (e: EntryId)
      modifies this
      ensures View() == Added(old(View()), BurnCashOut(id)) && e == |old(messages)|
      ensures messages == old(messages) + [BurnCashOut(id)]
      ensures delivered == old(delivered) && pending == old(pending)
    {
      e := |messages|;
      messages := messages + [BurnCashOut(id)];
    }

    /** At most one undelivered entry: the worker reads with the default count of one. */
    method ReadNew(consumer: Consumer) returns (batch: seq<EntryId>)
      modifies this
      ensures
        if old(delivered) < |old(messages)| then
          batch == [old(delivered)] && View() == Delivered(old(View()), consumer)
        else batch == [] && View() == old(View())
      ensures batch != [] ==>
                && messages == old(messages) && delivered == old(delivered) + 1
                && pending == old(pending)[old(delivered) := consumer]
    {
      if delivered >= |messages| {
        return [];
      }
      batch := [delivered];
      pending := pending[delivered := consumer];
      delivered := delivered + 1;
    }

    /** This consumer's own unacked entries; reading them hands nothing over. */
    method ReadPending(consumer: Consumer, count: nat) returns (batch: seq<EntryId>)
      requires WellFormed(View())
      ensures IsPick(batch, (set e | e in pending && pending[e] == consumer), count)
    {
      batch := Oldest((set e | e in pending && pending[e] == consumer), count);
    }

    /** Takes over entries unacked for long enough, whoever holds them; `idle` is who has been silent. */
    method ReclaimStale(consumer: Consumer, idle: set<EntryId>, count: nat) returns (batch: seq<EntryId>)
      requires WellFormed(View())
      modifies this
      ensures IsPick(batch, idle * old(pending).Keys, count)
      ensures View() == ReassignedAll(old(View()), batch, consumer)
      ensures messages == old(messages) && delivered == old(delivered)
      ensures pending.Keys == old(pending).Keys
      ensures forall e :: e in pending ==> pending[e] == if e in batch then consumer else old(pending)[e]
    {
      batch := Oldest(idle * pending.Keys, count);
      assert batch[..|batch|] == batch;
      for i := 0 to |batch|
        invariant View() == ReassignedAll(old(View()), batch[..i], consumer)
        invariant messages == old(messages) && delivered == old(delivered)
      {
        assert batch[..i + 1][..i] == batch[..i];
        pending := pending[batch[i] := consumer];
      }
      HandedOver(old(View()), batch, consumer);
    }

    method Oldest(wanted: set<EntryId>, count: nat) returns (batch: seq<EntryId>)
      requires forall e :: e in wanted ==> e < delivered
      ensures IsPick(batch, wanted, count)
    {
      batch := [];
      for e := 0 to delivered
        invariant |batch| <= count
        invariant forall i :: 0 <= i < |batch| ==> batch[i] < e
        invariant IsPick(batch, (set f | f in wanted && f < e), count)
      {
        if e in wanted && |batch| < count {
          batch := batch + [e];
        }
      }
      assert wanted == set f | f in wanted && f < delivered;
    }

    method Acknowledge(e: EntryId)
      modifies this
      ensures View() == Acked(old(View()), e)
      ensures messages == old(messages) && delivered == old(delivered) && pending == old(pending) - {e}
    {
      pending := pending - {e};
    }
  }
}
