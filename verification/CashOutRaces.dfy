/** What an approval or a rejection that commits on a stale read can do to a cash-out. */
module CashOutRaces {
  import opened Wrappers
  import opened Schema
  import opened Bookkeeping
  import opened Transactions
  import opened Stream
  import opened Protocol
  import opened TableSafety
  import opened SettlementSafety
  import opened Frames
  import opened Funding
  import opened Recovery
  import opened CashOuts
  import opened Races
  import opened Limits

  // -- a stale rejection can pay a cash-out out twice ------------------------------------------------

  // Everything assumed but that approvals and rejections write what they checked.
  const STALE := Assumed(true, true, true, false, true)

  lemma Stale(p: Limits.Policy, s: State, step: Step)
    ensures !step.Reclaim? && (step.Burn? ==> step.reply != Raised(true)) && (step.Claim? ==> !Settles(s, step.h))
            && (step.Commit? && step.q in s.requests ==> !WritesRemittance(s.requests[step.q])) ==>
              Permitted(p, s, step, STALE)
  {
  }

  /** The burner's whole course, seen from the tables. */
  lemma BurnedAndPaidOut(s: State, h: HandlerId, c: CashOutId)
    requires Burns(s, h) && CashOutOf(s, h) == c && InPhase(s, h, Waiting)
    requires s.tables.cashOuts[c].status.Approved? && s.tables.cashOuts[c].payoutAmount > 0
    ensures
      var s' := CommitBurnStep(BurnStep(ClaimStep(s, h), h, Validated), h);
      && IsCashOut(s', c) && s'.requests == s.requests
      && s'.burns[c].landed == s.burns[c].landed + 1
      && s'.tables.cashOuts[c]
         == s.tables.cashOuts[c].(status := Completed, creditEntry := Some(|s.tables.books.entries|))
      && s'.tables.books.entries == s.tables.books.entries + [PayoutEntry(s.tables, c)]
      && PayoutEntry(s'.tables, c) == PayoutEntry(s.tables, c) && PayoutEntry(s'.tables, c) in s'.tables.books.entries
  {
  }

  lemma RejectedToo(p: Limits.Policy, s: State, q: RequestId, c: CashOutId)
    requires Safe(s.tables) && IsCashOut(s, c) && q in s.requests && s.requests[q] == Rejecting(c, Approved)
    requires PayoutEntry(s.tables, c) in s.tables.books.entries
    ensures
      var s' := CommitStep(p, s, q);
      && IsCashOut(s', c) && s'.burns[c].landed == s.burns[c].landed
      && PayoutEntry(s'.tables, c) in s'.tables.books.entries
      && ReversalEntry(s'.tables, c) in s'.tables.books.entries
  {
  }

  /**
   If a rejection may commit on a stale read, any approved cash-out with a
   waiting handler can be burned, paid out and refunded as well.
   */
  lemma AtomicRejectionIsNeeded(p: Limits.Policy, s: State, h: HandlerId, c: CashOutId)
    requires Sound(s) && Burns(s, h) && CashOutOf(s, h) == c && InPhase(s, h, Waiting)
    requires s.tables.cashOuts[c].status.Approved? && s.tables.cashOuts[c].payoutAmount > 0
    ensures exists s' ::
              && Reaches(p, s, s', STALE) && IsCashOut(s', c)
              && s'.burns[c].landed == s.burns[c].landed + 1
              && PayoutEntry(s'.tables, c) in s'.tables.books.entries
              && ReversalEntry(s'.tables, c) in s'.tables.books.entries
  {
    hide Reaches, Sound, Safe, BeginStep, ClaimStep, BurnStep, CommitBurnStep, CommitStep;
    var q := FreshId(s.requests);
    var s1 := s.(requests := s.requests[q := Rejecting(c, Approved)]);
    BurnedAndPaidOut(s1, h, c);
    var s4 := CommitBurnStep(BurnStep(ClaimStep(s1, h), h, Validated), h);
    BurnsMeanwhile(p, s, q, h, c);
    Stale(p, s4, Commit(q));
    Next(p, s, s4, Commit(q), STALE);
    ReachesSoundly(p, s, s4, STALE);
    RejectedToo(p, s4, q, c);
    assert Apply(p, s4, Commit(q)) == CommitStep(p, s4, q);
    hide *;
  }

  /** The handler runs its course while the rejection is still to commit. */
  lemma BurnsMeanwhile(p: Limits.Policy, s: State, q: RequestId, h: HandlerId, c: CashOutId)
    requires Burns(s, h) && CashOutOf(s, h) == c && InPhase(s, h, Waiting)
    requires q !in s.requests && s.tables.cashOuts[c].status.Approved?
    ensures
      var s1 := s.(requests := s.requests[q := Rejecting(c, Approved)]);
      Reaches(p, s, CommitBurnStep(BurnStep(ClaimStep(s1, h), h, Validated), h), STALE)
  {
    hide Reaches, Permitted, BeginStep, ClaimStep, BurnStep, CommitBurnStep, Settles;
    var rejecting := Rejecting(c, Approved);
    var s1 := s.(requests := s.requests[q := rejecting]);
    RejectionBegins(p, s, q, c);
    var s2 := ClaimStep(s1, h);
    var s3 := BurnStep(s2, h, Validated);
    assert !Settles(s1, h) by { NotBoth(s1, h); }
    assert Apply(p, s, Begin(q, rejecting)) == s1 && Apply(p, s1, Claim(h)) == s2;
    assert Apply(p, s2, Burn(h, Validated)) == s3 && Apply(p, s3, CommitBurn(h)) == CommitBurnStep(s3, h);
    hide Apply, Burns, InPhase;
    ReachesItself(p, s, STALE);
    Stale(p, s, Begin(q, rejecting));
    Next(p, s, s, Begin(q, rejecting), STALE);
    Stale(p, s1, Claim(h));
    Next(p, s, s1, Claim(h), STALE);
    Stale(p, s2, Burn(h, Validated));
    Next(p, s, s2, Burn(h, Validated), STALE);
    Stale(p, s3, CommitBurn(h));
    Next(p, s, s3, CommitBurn(h), STALE);
  }

  lemma NotBoth(s: State, h: HandlerId)
    ensures !(Burns(s, h) && Settles(s, h))
  {
  }

  lemma RejectionBegins(p: Limits.Policy, s: State, q: RequestId, c: CashOutId)
    requires q !in s.requests && IsCashOut(s, c) && s.tables.cashOuts[c].status.Approved?
    ensures BeginStep(p, s, q, Rejecting(c, Approved)) == s.(requests := s.requests[q := Rejecting(c, Approved)])
  {
  }

  lemma ReachesSoundly(p: Limits.Policy, s: State, s': State, a: Assumed)
    requires Sound(s) && Reaches(p, s, s', a)
    ensures Safe(s'.tables)
  {
    var steps :| Run(p, s, steps, a) && After(p, s, steps) == s';
    RunIsSound(p, s, steps);
  }

  // -- and so can a stale approval, in tokens as well ------------------------------------------------

  /** The backlog is delivered, without claiming any of it, until the newest message has a handler. */
  lemma {:induction false} DeliverLast(p: Limits.Policy, s0: State, s: State) returns (s': State, h: HandlerId)
    requires Reaches(p, s0, s, STALE) && s.stream.delivered < |s.stream.messages|
    ensures Reaches(p, s0, s', STALE) && InPhase(s', h, Waiting)
    ensures s'.handlers[h].entry == |s'.stream.messages| - 1 && s'.stream.messages == s.stream.messages
    ensures s'.tables == s.tables && s'.burns == s.burns && s'.requests == s.requests
    decreases |s.stream.messages| - s.stream.delivered
  {
    hide Reaches, Permitted;
    h := FreshId(s.handlers);
    Stale(p, s, ReadNew(h, "worker"));
    Next(p, s0, s, ReadNew(h, "worker"), STALE);
    s' := ReadNewStep(s, h, "worker");
    if s'.stream.delivered < |s'.stream.messages| {
      s', h := DeliverLast(p, s0, s');
    }
  }

  lemma BurnIsPublished(p: Limits.Policy, s: State, q: RequestId, c: CashOutId)
    requires q !in s.requests && IsCashOut(s, c) && s.tables.cashOuts[c].status.Approved?
    ensures
      var s1 := BeginStep(p, s, q, QueueingBurn(c));
      && s1.requests == s.requests[q := QueueingBurn(c)]
      && CommitStep(p, s1, q) == s.(stream := Added(s.stream, BurnCashOut(c)))
  {
    assert s.requests[q := QueueingBurn(c)] - {q} == s.requests;
  }

  /** One burn of an approved cash-out, from its message to its payout. */
  lemma BurnOnce(p: Limits.Policy, s0: State, s: State, c: CashOutId) returns (s': State)
    requires Reaches(p, s0, s, STALE) && s.stream.delivered <= |s.stream.messages|
    requires IsCashOut(s, c) && s.tables.cashOuts[c].status.Approved? && s.tables.cashOuts[c].payoutAmount > 0
    ensures Reaches(p, s0, s', STALE) && IsCashOut(s', c) && s'.requests == s.requests
    ensures s'.burns[c].landed == s.burns[c].landed + 1
    ensures s'.tables.books.entries == s.tables.books.entries + [PayoutEntry(s.tables, c)]
    ensures s'.tables.cashOuts[c].payoutAmount == s.tables.cashOuts[c].payoutAmount
    ensures PayoutEntry(s'.tables, c) == PayoutEntry(s.tables, c)
  {
    hide Reaches, Permitted, BeginStep, CommitStep, ClaimStep, BurnStep, CommitBurnStep, Settles;
    var q := FreshId(s.requests);
    BurnIsPublished(p, s, q, c);
    var s1 := BeginStep(p, s, q, QueueingBurn(c));
    var s2 := CommitStep(p, s1, q);
    Stale(p, s, Begin(q, QueueingBurn(c)));
    Next(p, s0, s, Begin(q, QueueingBurn(c)), STALE);
    Stale(p, s1, Commit(q));
    Next(p, s0, s1, Commit(q), STALE);
    var s3, h := DeliverLast(p, s0, s2);
    assert Burns(s3, h) && CashOutOf(s3, h) == c;
    s' := BurnByHandler(p, s0, s3, h, c);
  }

  lemma BurnByHandler(p: Limits.Policy, s0: State, s: State, h: HandlerId, c: CashOutId) returns (s': State)
    requires Reaches(p, s0, s, STALE) && Burns(s, h) && CashOutOf(s, h) == c && InPhase(s, h, Waiting)
    requires s.tables.cashOuts[c].status.Approved? && s.tables.cashOuts[c].payoutAmount > 0
    ensures Reaches(p, s0, s', STALE)
    ensures s' == CommitBurnStep(BurnStep(ClaimStep(s, h), h, Validated), h)
    ensures IsCashOut(s', c) && s'.requests == s.requests && s'.burns[c].landed == s.burns[c].landed + 1
    ensures s'.tables.books.entries == s.tables.books.entries + [PayoutEntry(s.tables, c)]
    ensures s'.tables.cashOuts[c].payoutAmount == s.tables.cashOuts[c].payoutAmount
    ensures PayoutEntry(s'.tables, c) == PayoutEntry(s.tables, c)
  {
    hide Reaches, Permitted, ClaimStep, BurnStep, CommitBurnStep, Settles, Burns, InPhase;
    BurnedAndPaidOut(s, h, c);
    NotBoth(s, h);
    var s1 := ClaimStep(s, h);
    var s2 := BurnStep(s1, h, Validated);
    s' := CommitBurnStep(s2, h);
    assert Apply(p, s, Claim(h)) == s1 && Apply(p, s1, Burn(h, Validated)) == s2;
    assert Apply(p, s2, CommitBurn(h)) == s';
    hide Apply;
    Stale(p, s, Claim(h));
    Next(p, s0, s, Claim(h), STALE);
    Stale(p, s1, Burn(h, Validated));
    Next(p, s0, s1, Burn(h, Validated), STALE);
    Stale(p, s2, CommitBurn(h));
    Next(p, s0, s2, CommitBurn(h), STALE);
  }

  /** Two approvals begin; one commits. */
  lemma ApproveTwice(p: Limits.Policy, s: State, c: CashOutId, q1: RequestId, q2: RequestId)
    requires IsCashOut(s, c) && s.tables.cashOuts[c].status.Requested?
    requires q1 !in s.requests && q2 !in s.requests && q1 != q2
    ensures
      var approved := s.tables.cashOuts[c].(status := Approved);
      Reaches(p, s, s.(requests := s.requests[q1 := Approving(c)], tables := PutCashOut(s.tables, c, approved)), STALE)
  {
    var s1 := s.(requests := s.requests[q1 := Approving(c)]);
    var s2 := s1.(requests := s1.requests[q2 := Approving(c)]);
    var s3 := s1.(tables := PutCashOut(s.tables, c, s.tables.cashOuts[c].(status := Approved)));
    assert BeginStep(p, s, q1, Approving(c)) == s1 && BeginStep(p, s1, q2, Approving(c)) == s2;
    assert s2.requests - {q2} == s1.requests;
    assert CommitStep(p, s2, q2) == s3;
    hide Reaches, Permitted, BeginStep, CommitStep;
    ReachesItself(p, s, STALE);
    Stale(p, s, Begin(q1, Approving(c)));
    Next(p, s, s, Begin(q1, Approving(c)), STALE);
    Stale(p, s1, Begin(q2, Approving(c)));
    Next(p, s, s1, Begin(q2, Approving(c)), STALE);
    Stale(p, s2, Commit(q2));
    Next(p, s, s2, Commit(q2), STALE);
  }

  lemma ApprovedAgain(p: Limits.Policy, s: State, c: CashOutId, q: RequestId)
    requires IsCashOut(s, c) && q in s.requests && s.requests[q] == Approving(c)
    ensures
      var s' := CommitStep(p, s, q);
      && IsCashOut(s', c) && s'.tables.cashOuts[c] == s.tables.cashOuts[c].(status := Approved)
      && s'.burns == s.burns && s'.tables.books == s.tables.books && s'.stream == s.stream
      && PayoutEntry(s'.tables, c) == PayoutEntry(s.tables, c)
  {
  }

  /**
   If an approval may commit on a stale read, any requested cash-out that
   pays something can be burned twice and paid out twice: the approval
   brings it back from COMPLETED.
   */
  lemma AtomicApprovalIsNeeded(p: Limits.Policy, s: State, c: CashOutId)
    requires Sound(s) && IsCashOut(s, c) && s.tables.cashOuts[c].status.Requested?
    requires s.tables.cashOuts[c].payoutAmount > 0
    ensures exists s' ::
              && Reaches(p, s, s', STALE) && IsCashOut(s', c)
              && s'.burns[c].landed == s.burns[c].landed + 2
              && s'.tables.books.entries ==
                   s.tables.books.entries + [PayoutEntry(s'.tables, c)] + [PayoutEntry(s'.tables, c)]
  {
    hide Reaches, Permitted, Sound, BeginStep, CommitStep, Settles;
    var q1 := FreshId(s.requests);
    var q2 := FreshId(s.requests[q1 := Approving(c)]);
    ApproveTwice(p, s, c, q1, q2);
    var s1 := s.(requests := s.requests[q1 := Approving(c)],
                 tables := PutCashOut(s.tables, c, s.tables.cashOuts[c].(status := Approved)));
    ReachesInOrder(p, s, s1, STALE);
    var s2 := BurnOnce(p, s, s1, c);
    ReachesInOrder(p, s, s2, STALE);
    ApprovedAgain(p, s2, c, q1);
    var s3 := CommitStep(p, s2, q1);
    Stale(p, s2, Commit(q1));
    Next(p, s, s2, Commit(q1), STALE);
    var s4 := BurnOnce(p, s, s3, c);
  }

  lemma ReachesInOrder(p: Limits.Policy, s: State, s': State, a: Assumed)
    requires Sound(s) && Reaches(p, s, s', a)
    ensures s'.stream.delivered <= |s'.stream.messages|
  {
    var steps :| Run(p, s, steps, a) && After(p, s, steps) == s';
    RunIsSound(p, s, steps);
    PartsAreSound(s');
  }
}
