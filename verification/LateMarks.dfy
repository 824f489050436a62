/**
 Publish, then mark QUEUED, seen from a worker fast enough to come in
 between: one message is enough to overwrite SETTLED and to have the
 payment repeated, with nothing retried, taken over or interrupted.
 */
module LateMarks {
  import opened Wrappers
  import opened Schema
  import opened Bookkeeping
  import opened Transactions
  import opened Stream
  import opened Protocol
  import opened TableSafety
  import opened SettlementSafety
  import opened Recovery
  import opened Races
  import opened Repayments
  import opened Witnesses

  // Everything assumed but that confirmations, queueings, requeues and refunds write what they checked.
  const LATE := Assumed(true, true, false, true, true)

  // -- snapshots --------------------------------------------------------------------------

  /** Everything in a system with the one transfer and no cash-out. */
  function Snap(
    status: RemittanceStatus, books: Books, trail: Trail, pool: int, g: Group,
    handlers: map<HandlerId, Handler>, requests: map<RequestId, Request>): State
  {
    State(Tables(books, [PAID_IN.(status := status)], []), g, handlers, requests, [trail], [], pool, 0)
  }

  function Marking(loaded: RemittanceStatus, published: bool): map<RequestId, Request> {
    map[0 := Queueing(0, loaded, published)]
  }

  /** The trail after so many claims, payments and credits, with no requeue and no takeover. */
  function Tally(claims: nat, last: EntryId, paid: nat, credited: bool): Trail {
    Trail(paid, paid, claims, 0, 0, Some(last), credited)
  }

  function Working1(e: EntryId, phase: Phase): map<HandlerId, Handler> {
    map[1 := Handler(e, false, phase)]
  }

  // -- steps ----------------------------------------------------------------------------------

  /** A step a run may take with everything assumed but fresh remittance requests. */
  ghost predicate Moves(s: State, step: Step, s': State) {
    Permitted(SNUG_POLICY, s, step, LATE) && Apply(SNUG_POLICY, s, step) == s'
  }

  lemma Onward(s: State, step: Step, s': State)
    requires Reaches(SNUG_POLICY, Init(0, 0), s, LATE) && Moves(s, step, s')
    ensures Reaches(SNUG_POLICY, Init(0, 0), s', LATE)
  {
    hide Reaches, Permitted, Apply;
    Next(SNUG_POLICY, Init(0, 0), s, step, LATE);
  }

  lemma Begins(status: RemittanceStatus, books: Books, trail: Trail, pool: int, g: Group)
    requires status.CashInConfirmed? || status.Queued?
    ensures Moves(Snap(status, books, trail, pool, g, map[], map[]), Begin(0, Queueing(0, status, false)),
                  Snap(status, books, trail, pool, g, map[], Marking(status, false)))
  {
  }

  lemma Publishes(status: RemittanceStatus, books: Books, trail: Trail, pool: int, g: Group, g': Group)
    requires g' == Added(g, SettleRemittance(0))
    ensures Moves(Snap(status, books, trail, pool, g, map[], Marking(status, false)), Publish(0),
                  Snap(status, books, trail, pool, g', map[], Marking(status, true)))
  {
    assert Marking(status, false)[0 := Queueing(0, status, true)] == Marking(status, true);
  }

  lemma Marks(status: RemittanceStatus, loaded: RemittanceStatus, books: Books, trail: Trail, pool: int, g: Group)
    requires loaded.CashInConfirmed? || (loaded.Queued? && status.Queued?)
    ensures Moves(Snap(status, books, trail, pool, g, map[], Marking(loaded, true)), Commit(0),
                  Snap(Queued, books, trail, pool, g, map[], map[]))
  {
    assert Marking(loaded, true) - {0} == map[];
  }

  lemma Reads(
    status: RemittanceStatus, books: Books, trail: Trail, pool: int, g: Group, g': Group,
    requests: map<RequestId, Request>)
    requires g.delivered < |g.messages| && g' == Delivered(g, "a")
    ensures Moves(Snap(status, books, trail, pool, g, map[], requests), ReadNew(1, "a"),
                  Snap(status, books, trail, pool, g', Working1(g.delivered, Waiting), requests))
  {
  }

  lemma Claims(
    status: RemittanceStatus, books: Books, trail: Trail, pool: int, g: Group, e: EntryId,
    requests: map<RequestId, Request>)
    requires status.CashInConfirmed? || status.Queued?
    requires e < |g.messages| && g.messages[e] == SettleRemittance(0)
    ensures Moves(Snap(status, books, trail, pool, g, Working1(e, Waiting), requests), Claim(1),
                  Snap(Settling, books, trail.(freshClaims := trail.freshClaims + 1, lastClaim := Some(e)), pool, g,
                       Working1(e, Claimed), requests))
  {
  }

  /** From the claim to a payment that validates. */
  lemma Pays(
    books: Books, trail: Trail, pool: int, g: Group, e: EntryId, requests: map<RequestId, Request>)
    requires e < |g.messages| && g.messages[e] == SettleRemittance(0)
    ensures Moves(Snap(Settling, books, trail, pool, g, Working1(e, Claimed), requests), Resolve(1, Resolved),
                  Snap(Settling, books, trail, pool, g, Working1(e, Ready(Settling)), requests))
    ensures Moves(Snap(Settling, books, trail, pool, g, Working1(e, Ready(Settling)), requests), Pay(1, Validated),
                  Snap(Settling, books, trail.(submitted := trail.submitted + 1, landed := trail.landed + 1),
                       pool + 540_540, g, Working1(e, Paid(Settling)), requests))
  {
  }

  lemma Records(trail: Trail, pool: int, g: Group, requests: map<RequestId, Request>)
    requires 0 < |g.messages| && g.messages[0] == SettleRemittance(0)
    ensures Moves(Snap(Settling, EMPTY_BOOKS, trail, pool, g, Working1(0, Paid(Settling)), requests), CommitSuccess(1),
                  Snap(Settled, CREDITED_BOOKS, trail.(credited := true), pool, g, Working1(0, Finished), requests))
  {
    var s := Snap(Settling, EMPTY_BOOKS, trail, pool, g, Working1(0, Paid(Settling)), requests);
    assert CreditEntry(s.tables, 0) == CREDIT && SentEntry(s.tables, 0) == SENT;
    assert !KeyTaken([], KeyOf(CREDIT)) && !KeyTaken([CREDIT], KeyOf(SENT));
    assert [] + [CREDIT] == [CREDIT] && [CREDIT] + [SENT] == [CREDIT, SENT];
  }

  lemma Acks(trail: Trail, pool: int, requests: map<RequestId, Request>)
    ensures Moves(Snap(Settled, CREDITED_BOOKS, trail, pool, Group(ONE, 1, map[0 := "a"]), Working1(0, Finished),
                       requests), Ack(1),
                  Snap(Settled, CREDITED_BOOKS, trail, pool, Group(ONE, 1, map[]), map[], requests))
  {
    assert map[0 := "a"] - {0} == map[] && Working1(0, Finished) - {1} == map[];
  }

  /** The second payment's credit is refused, so its handler stops and its message stays unacked. */
  lemma Refused(trail: Trail, pool: int, g: Group)
    requires 1 < |g.messages| && g.messages[1] == SettleRemittance(0)
    ensures Moves(Snap(Settling, CREDITED_BOOKS, trail, pool, g, Working1(1, Paid(Settling)), map[]), CommitSuccess(1),
                  Snap(Settling, CREDITED_BOOKS, trail, pool, g, map[], map[]))
  {
    var s := Snap(Settling, CREDITED_BOOKS, trail, pool, g, Working1(1, Paid(Settling)), map[]);
    assert CreditEntry(s.tables, 0) == CREDIT && CREDITED_BOOKS.entries[0] == CREDIT;
    assert KeyTaken(CREDITED_BOOKS.entries, KeyOf(CREDIT));
    assert Working1(1, Paid(Settling)) - {1} == map[];
  }

  // -- the run ----------------------------------------------------------------------------------

  /** The message is published and settled before the request that published it marks the row. */
  lemma SettleBeforeTheMark() returns (s': State)
    ensures Reaches(SNUG_POLICY, Init(0, 0), s', LATE)
    ensures s' == Snap(Settled, CREDITED_BOOKS, Tally(1, 0, 1, true), 540_540, Group(ONE, 1, map[]), map[],
                       Marking(CashInConfirmed, true))
  {
    hide Reaches, Moves;
    ConfirmOnce();
    FewerAssumptions(SNUG_POLICY, Init(0, 0), FUNDED_STATE, LATE);
    var b, m := EMPTY_BOOKS, Marking(CashInConfirmed, true);
    var g0, g1, g2 := Group([], 0, map[]), Group(ONE, 0, map[]), Group(ONE, 1, map[0 := "a"]);
    assert [] + [SettleRemittance(0)] == ONE;
    var s0 := Snap(CashInConfirmed, b, NEW_TRAIL, 0, g0, map[], map[]);
    assert FUNDED_STATE == s0;
    var s1 := Snap(CashInConfirmed, b, NEW_TRAIL, 0, g0, map[], Marking(CashInConfirmed, false));
    Begins(CashInConfirmed, b, NEW_TRAIL, 0, g0);
    Onward(s0, Begin(0, Queueing(0, CashInConfirmed, false)), s1);
    var s2 := Snap(CashInConfirmed, b, NEW_TRAIL, 0, g1, map[], m);
    Publishes(CashInConfirmed, b, NEW_TRAIL, 0, g0, g1);
    Onward(s1, Publish(0), s2);
    var s3 := Snap(CashInConfirmed, b, NEW_TRAIL, 0, g2, Working1(0, Waiting), m);
    Reads(CashInConfirmed, b, NEW_TRAIL, 0, g1, g2, m);
    Onward(s2, ReadNew(1, "a"), s3);
    var s4 := Snap(Settling, b, Tally(1, 0, 0, false), 0, g2, Working1(0, Claimed), m);
    Claims(CashInConfirmed, b, NEW_TRAIL, 0, g2, 0, m);
    Onward(s3, Claim(1), s4);
    var s6 := PayFrom(s4, b, Tally(1, 0, 0, false), 0, g2, 0, m);
    var s7 := Snap(Settled, CREDITED_BOOKS, Tally(1, 0, 1, true), 540_540, g2, Working1(0, Finished), m);
    Records(Tally(1, 0, 1, false), 540_540, g2, m);
    Onward(s6, CommitSuccess(1), s7);
    s' := Snap(Settled, CREDITED_BOOKS, Tally(1, 0, 1, true), 540_540, Group(ONE, 1, map[]), map[], m);
    Acks(Tally(1, 0, 1, true), 540_540, m);
    Onward(s7, Ack(1), s');
  }

  lemma PayFrom(
    s: State, books: Books, trail: Trail, pool: int, g: Group, e: EntryId, requests: map<RequestId, Request>)
    returns (s': State)
    requires Reaches(SNUG_POLICY, Init(0, 0), s, LATE) && e < |g.messages| && g.messages[e] == SettleRemittance(0)
    requires s == Snap(Settling, books, trail, pool, g, Working1(e, Claimed), requests)
    ensures Reaches(SNUG_POLICY, Init(0, 0), s', LATE)
    ensures s' == Snap(Settling, books, trail.(submitted := trail.submitted + 1, landed := trail.landed + 1),
                       pool + 540_540, g, Working1(e, Paid(Settling)), requests)
  {
    hide Reaches, Moves;
    Pays(books, trail, pool, g, e, requests);
    var s1 := Snap(Settling, books, trail, pool, g, Working1(e, Ready(Settling)), requests);
    Onward(s, Resolve(1, Resolved), s1);
    s' := Snap(Settling, books, trail.(submitted := trail.submitted + 1, landed := trail.landed + 1),
               pool + 540_540, g, Working1(e, Paid(Settling)), requests);
    Onward(s1, Pay(1, Validated), s');
  }

  lemma MarkLate() returns (s: State, s': State)
    ensures Reaches(SNUG_POLICY, Init(0, 0), s, LATE) && Moves(s, Commit(0), s')
    ensures s == Snap(Settled, CREDITED_BOOKS, Tally(1, 0, 1, true), 540_540, Group(ONE, 1, map[]), map[],
                      Marking(CashInConfirmed, true))
    ensures s' == Snap(Queued, CREDITED_BOOKS, Tally(1, 0, 1, true), 540_540, Group(ONE, 1, map[]), map[], map[])
  {
    hide Reaches, Moves;
    s := SettleBeforeTheMark();
    s' := Snap(Queued, CREDITED_BOOKS, Tally(1, 0, 1, true), 540_540, Group(ONE, 1, map[]), map[], map[]);
    Marks(Settled, CashInConfirmed, CREDITED_BOOKS, Tally(1, 0, 1, true), 540_540, Group(ONE, 1, map[]));
  }

  /** With one message, one handler and nothing else going on, the QUEUED mark can overwrite SETTLED. */
  lemma LateMarkOverwritesSettled()
    ensures exists s ::
              && Reaches(SNUG_POLICY, Init(0, 0), s, LATE)
              && |s.stream.messages| == 1 && s.handlers == map[] && s.requests.Keys == {0}
              && IsRemittance(s, 0) && StatusOf(s, 0).Settled? && IsCredited(s.tables, 0)
              && var s' := CommitStep(SNUG_POLICY, s, 0);
                 IsRemittance(s', 0) && StatusOf(s', 0).Queued? && IsCredited(s'.tables, 0)
  {
    var s, s' := MarkLate();
    assert s' == CommitStep(SNUG_POLICY, s, 0);
    assert CREDITED_BOOKS.entries[0] == CREDIT;
    assert CreditEntry(s.tables, 0) == CREDIT == CreditEntry(s'.tables, 0);
    hide Reaches, Moves, CommitStep;
  }

  /** A repeated confirmation publishes again, and the row is claimed and paid for a second time. */
  lemma PayTwice() returns (s': State)
    ensures Reaches(SNUG_POLICY, Init(0, 0), s', LATE)
    ensures s' == Snap(Settling, CREDITED_BOOKS, Tally(2, 1, 2, true), 1_081_080,
                       Group(TWO_MESSAGES, 2, map[1 := "a"]), map[], map[])
  {
    hide Reaches, Moves;
    var settled, s0 := MarkLate();
    Onward(settled, Commit(0), s0);
    var b, t := CREDITED_BOOKS, Tally(1, 0, 1, true);
    var g0, g1 := Group(ONE, 1, map[]), Group(TWO_MESSAGES, 1, map[]);
    var g2 := Group(TWO_MESSAGES, 2, map[1 := "a"]);
    assert ONE + [SettleRemittance(0)] == TWO_MESSAGES;
    var s1 := Snap(Queued, b, t, 540_540, g0, map[], Marking(Queued, false));
    Begins(Queued, b, t, 540_540, g0);
    Onward(s0, Begin(0, Queueing(0, Queued, false)), s1);
    var s2 := Snap(Queued, b, t, 540_540, g1, map[], Marking(Queued, true));
    Publishes(Queued, b, t, 540_540, g0, g1);
    Onward(s1, Publish(0), s2);
    var s3 := Snap(Queued, b, t, 540_540, g1, map[], map[]);
    Marks(Queued, Queued, b, t, 540_540, g1);
    Onward(s2, Commit(0), s3);
    var s4 := Snap(Queued, b, t, 540_540, g2, Working1(1, Waiting), map[]);
    Reads(Queued, b, t, 540_540, g1, g2, map[]);
    Onward(s3, ReadNew(1, "a"), s4);
    var s5 := Snap(Settling, b, Tally(2, 1, 1, true), 540_540, g2, Working1(1, Claimed), map[]);
    Claims(Queued, b, t, 540_540, g2, 1, map[]);
    Onward(s4, Claim(1), s5);
    var s6 := PayFrom(s5, b, Tally(2, 1, 1, true), 540_540, g2, 1, map[]);
    s' := Snap(Settling, b, Tally(2, 1, 2, true), 1_081_080, g2, map[], map[]);
    Refused(Tally(2, 1, 2, true), 1_081_080, g2);
    Onward(s6, CommitSuccess(1), s');
  }

  /**
   A payment can go out twice with no requeue, no takeover, one worker and
   no interruption: a late QUEUED mark and a repeated confirmation are
   enough.  What is left is a credited remittance every takeover pays again.
   */
  lemma LateMarkCanRepeatThePayment()
    ensures exists s ::
              && Reaches(SNUG_POLICY, Init(0, 0), s, LATE)
              && |s.trails| == 1 && s.trails[0].submitted == 2 == s.trails[0].landed
              && s.trails[0].requeues == 0 && s.trails[0].reclaims == 0
              && CreditedButSettling(s, 0, 1)
  {
    var s := PayTwice();
    assert CREDITED_BOOKS.entries[0] == CREDIT && CreditEntry(s.tables, 0) == CREDIT;
    assert CreditedButSettling(s, 0, 1);
    hide Reaches, CreditedButSettling;
  }
}
