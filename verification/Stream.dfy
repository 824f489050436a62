/** The settlement stream and its consumer group (services/settlement_queue.py), as a value. */
module Stream {
  import opened Schema

  type Consumer = string

  datatype Message = SettleRemittance(remittance: RemittanceId) | BurnCashOut(cashOut: CashOutId)

  /**
   Entry ids are positions in `messages`.  Entries below `delivered` have
   been handed to some consumer; `pending` holds the unacked ones and who
   they were last handed to.
   */
  datatype Group = Group(messages: seq<Message>, delivered: nat, pending: map<EntryId, Consumer>)

  ghost predicate WellFormed(g: Group) {
    && g.delivered <= |g.messages|
    && forall e :: e in g.pending ==> e < g.delivered
  }

  function Added(g: Group, m: Message): Group {
    g.(messages := g.messages + [m])
  }

  /** Hands the next undelivered entry to a consumer. */
  function Delivered(g: Group, c: Consumer): Group {
    g.(delivered := g.delivered + 1, pending := g.pending[g.delivered := c])
  }

  /** Hands an unacked entry over to a consumer. */
  function Reassigned(g: Group, e: EntryId, c: Consumer): Group {
    g.(pending := g.pending[e := c])
  }

  function Acked(g: Group, e: EntryId): Group {
    g.(pending := g.pending - {e})
  }
}
