/** worker/sweep.py: recover claims whose worker never finished. */
module Sweep {
  import opened Models
  import opened Tables
  import opened Recheck
  import AuditIds

  const SWEEP_STUCK := "sweep.stuck_processing"

  predicate IsStuck(settings: Settings, db: Db, orderId: string) {
    orderId in db.orders && db.orders[orderId].status == Processing &&
    db.orders[orderId].updatedAt < db.clock - settings.timeout &&
    db.orders[orderId].retryCount < settings.maxRetries
  }

  /** The row after a reclaim; the deadline stays as it is. */
  function ReclaimedRow(settings: Settings, row: Row, now: int): Row {
    row.(status := if row.retryCount + 1 >= settings.maxRetries then DeadLetter else PendingRecheck,
         retryCount := row.retryCount + 1, claimToken := None, updatedAt := now)
  }

  function SweepEntry(orderId: string, newStatus: ReconStatus, retryCount: nat): AuditEntry {
    AuditEntry(AuditIds.SweepId(orderId, retryCount), orderId, System, SWEEP_STUCK,
               if newStatus == DeadLetter then DeadLettered else Reclaim, Neutral,
               Some(Processing), Some(newStatus), None, None, None, None)
  }

  /** The log row, and for a dead letter the review row, of one reclaim. */
  function RecordReclaim(db: Db, orderId: string, newStatus: ReconStatus, retryCount: nat): Db {
    var logged := InsertAudit(db, SweepEntry(orderId, newStatus, retryCount), None);
    if newStatus == DeadLetter
    then EnqueueReview(logged, ReviewItem(Some(orderId), DeadLetterReview, None, None))
    else logged
  }

  function ReclaimOne(settings: Settings, db: Db, orderId: string): Db
    requires orderId in db.orders
  {
    var row := ReclaimedRow(settings, db.orders[orderId], db.clock);
    RecordReclaim(db.(orders := db.orders[orderId := row]), orderId, row.status, row.retryCount)
  }

  function ReclaimEach(settings: Settings, db: Db, orderIds: seq<string>): (db': Db)
    requires forall o | o in orderIds :: o in db.orders
    ensures db'.orders.Keys == db.orders.Keys
  {
    if orderIds == [] then db
    else
      var n := |orderIds| - 1;
      ReclaimOne(settings, ReclaimEach(settings, db, orderIds[..n]), orderIds[n])
  }

  /** The rows RETURNING lists, in the order it lists them. */
  predicate ListsStuck(settings: Settings, db: Db, orderIds: seq<string>) {
    && Distinct(orderIds)
    && (forall o | o in orderIds :: IsStuck(settings, db, o))
    && (forall o | o in db.orders && IsStuck(settings, db, o) :: o in orderIds)
  }

  /** One pass of the stuck sweep, the rows being reclaimed in the order listed. */
  function StuckSweep(settings: Settings, db: Db, orderIds: seq<string>): Db
    requires forall o | o in orderIds :: o in db.orders
  {
    var swept := ReclaimEach(settings, db, orderIds);
    swept.(clock := swept.clock + 1)
  }

  predicate IsOrphan(settings: Settings, db: Db, orderId: string) {
    orderId in db.orders && db.orders[orderId].status == PendingRecheck &&
    db.orders[orderId].recheckAt.Some? &&
    db.orders[orderId].recheckAt.value < db.clock - settings.grace
  }

  predicate Distinct(orderIds: seq<string>) {
    forall i, j | 0 <= i < j < |orderIds| :: orderIds[i] != orderIds[j]
  }

  predicate Due(db: Db, earlier: string, later: string) {
    earlier in db.orders && later in db.orders &&
    db.orders[earlier].recheckAt.Some? && db.orders[later].recheckAt.Some? &&
    db.orders[earlier].recheckAt.value <= db.orders[later].recheckAt.value
  }

  /** At most `limit` orphans, earliest deadline first; an orphan is left out only when the
      list is full and nothing on it is due later. */
  predicate ListsOrphans(settings: Settings, db: Db, limit: nat, orderIds: seq<string>) {
    && Distinct(orderIds)
    && |orderIds| <= limit
    && (forall o | o in orderIds :: IsOrphan(settings, db, o))
    && (forall i, j | 0 <= i < j < |orderIds| :: Due(db, orderIds[i], orderIds[j]))
    && (forall o | o in db.orders && IsOrphan(settings, db, o) && o !in orderIds ::
          |orderIds| == limit && forall p | p in orderIds :: Due(db, p, o))
  }

  /** Resolve each listed order in turn. `wall` gives the time each one's finish reads. */
  function ResolveEach(settings: Settings, db: Db, orderIds: seq<string>, now: int, wall: string -> int): Db {
    if orderIds == [] then db
    else
      var n := |orderIds| - 1;
      ResolveOrder(settings, ResolveEach(settings, db, orderIds[..n], now, wall), orderIds[n], now,
                   wall(orderIds[n]))
  }

  lemma ReclaimOneRows(settings: Settings, db: Db, o: string)
    requires o in db.orders
    ensures var db' := ReclaimOne(settings, db, o);
            && db'.views == db.views && db'.claims == db.claims && db'.clock == db.clock
            && db'.orders == db.orders[o := ReclaimedRow(settings, db.orders[o], db.clock)]
  {
  }

  /** What a reclaim of each listed row leaves in the rows themselves. */
  lemma {:induction false} ReclaimEachRows(settings: Settings, db: Db, orderIds: seq<string>)
    requires forall o | o in orderIds :: o in db.orders
    requires Distinct(orderIds)
    ensures var db' := ReclaimEach(settings, db, orderIds);
            && db'.views == db.views && db'.claims == db.claims && db'.clock == db.clock
            && forall o | o in db.orders ::
                 db'.orders[o] == if o in orderIds then ReclaimedRow(settings, db.orders[o], db.clock)
                                  else db.orders[o]
  {
    if orderIds != [] {
      var n := |orderIds| - 1;
      ReclaimEachRows(settings, db, orderIds[..n]);
      ReclaimOneRows(settings, ReclaimEach(settings, db, orderIds[..n]), orderIds[n]);
      hide ReclaimOne, ReclaimedRow;
      assert orderIds == orderIds[..n] + [orderIds[n]];
    }
  }

  /** SweepService.run_once: reclaim stuck rows, then drive the orphans. */
  function SweepPass(settings: Settings, db: Db, stuck: seq<string>, orphans: seq<string>, now: int,
                     wall: string -> int): Db
    requires forall o | o in stuck :: o in db.orders
  {
    ResolveEach(settings, StuckSweep(settings, db, stuck), orphans, now, wall)
  }
}
