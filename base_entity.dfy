/** The audit fields every board entity carries: who created it and when (fixed at
    construction), and who last updated it and when (absent until the first update). */
module Auditing {
  import opened Basics

  /** A reading of the clock; the model receives it as a parameter. */
  type Timestamp = int

  /** The abstract value of an entity's audit fields. */
  datatype AuditRecord = AuditRecord(
    createdBy: string,
    createdAt: Timestamp,
    updatedBy: Option<string>,
    updatedAt: Option<Timestamp>)

  /** The audit fields after one call of `updatedBy(who)` at clock value `now`. */
  function Stamped(a: AuditRecord, who: string, now: Timestamp): (r: AuditRecord)
  {
    a.(updatedBy := Some(who), updatedAt := Some(now))
  }

  /** The audit fields after a series of `updatedBy` calls, oldest first. */
  function StampedAll(a: AuditRecord, writes: seq<(string, Timestamp)>): (r: AuditRecord)
    decreases |writes|
  {
    if writes == [] then a
    else StampedAll(Stamped(a, writes[0].0, writes[0].1), writes[1..])
  }

  /** Successive `updatedBy` calls are last-writer-wins: only the most recent caller and
      time survive, the creation fields never change, and no earlier write leaves a trace. */
  lemma {:induction false} LastWriterWins(a: AuditRecord, writes: seq<(string, Timestamp)>)
    requires writes != []
    decreases |writes|
    ensures StampedAll(a, writes) ==
            AuditRecord(a.createdBy, a.createdAt,
                        Some(writes[|writes| - 1].0), Some(writes[|writes| - 1].1))
  {
    if |writes| > 1 {
      LastWriterWins(Stamped(a, writes[0].0, writes[0].1), writes[1..]);
    }
  }

  /** The mapped superclass of `Post` and `Comment`. */
  class BaseEntity {
    const createdBy: string
    const createdAt: Timestamp
    var updatedBy: Option<string>
    var updatedAt: Option<Timestamp>

    /** The audit fields as a value. */
    ghost function Audit(): AuditRecord
      reads this
    {
      AuditRecord(createdBy, createdAt, updatedBy, updatedAt)
    }

    /** A fresh entity records its author and creation time and has never been updated. */
    constructor (createBy: string, now: Timestamp)
      ensures Audit() == AuditRecord(createBy, now, None, None)
    {
      createdBy := createBy;
      createdAt := now;
      updatedBy := None;
      updatedAt := None;
    }

    /** Records `updateBy` as the latest updater at clock value `now`. */
    method UpdatedBy(updateBy: string, now: Timestamp)
      modifies this
      ensures Audit() == Stamped(old(Audit()), updateBy, now)
      ensures updatedBy == Some(updateBy) && updatedAt == Some(now)
    {
      updatedBy := Some(updateBy);
      updatedAt := Some(now);
    }
  }
}
