/** One session on the database: what is committed, and what this session has flushed on top of it. */
module Database {
  import opened Schema

  class Session {
    var committed: Tables
    var work: Tables

    constructor (t: Tables)
      ensures committed == work == t
    {
      committed, work := t, t;
    }

    /** No transaction is open. */
    predicate Idle()
      reads this
    {
      work == committed
    }

    method Commit()
      modifies this
      ensures committed == work == old(work)
    {
      committed := work;
    }

    method Rollback()
      modifies this
      ensures committed == work == old(committed)
    {
      work := committed;
    }

    method SaveRemittance(id: RemittanceId, r: Remittance)
      requires id < |work.remittances|
      modifies this`work
      ensures work == old(work).(remittances := old(work).remittances[id := r])
    {
      work := work.(remittances := work.remittances[id := r]);
    }

    method SaveCashOut(id: CashOutId, c: CashOut)
      requires id < |work.cashOuts|
      modifies this`work
      ensures work == old(work).(cashOuts := old(work).cashOuts[id := c])
    {
      work := work.(cashOuts := work.cashOuts[id := c]);
    }
  }
}
