/** The Postgres tables the worker writes, and what each guarded statement of
worker/state.py does to them.

`claims` is a history of the claims ever granted, in order; a claim's fencing token is
its position there, so a fresh token is one no earlier claim was given. `clock` is the
commit clock behind NOW(): a statement stamps the rows it hits with the clock and moves
the clock on, so no two writing transactions share a stamp.
 */
module Tables {
  import opened Models
  import opened Json
  import ViewCodec

  datatype Row = Row(
    status: ReconStatus,
    recheckAt: Option<int>,
    retryCount: nat,
    claimToken: Option<nat>,
    updatedAt: int)

  /** `payload` holds the event the row records; system rows have none. */
  datatype AuditRow = AuditRow(entry: AuditEntry, payload: Option<Event>)

  /** `logLength` is the length of the log when the claim was granted. */
  datatype Claim = Claim(orderId: string, logLength: nat)

  datatype Db = Db(
    orders: map<string, Row>,
    views: map<string, Json>,
    audit: seq<AuditRow>,
    reviews: seq<ReviewItem>,
    claims: seq<Claim>,
    clock: int)

  const EMPTY_DB := Db(map[], map[], [], [], [], 0)

  function RowOf(db: Db, orderId: string): Option<Row> {
    if orderId in db.orders then Some(db.orders[orderId]) else None
  }

  function StatusOf(row: Option<Row>): Option<ReconStatus> {
    if row.Some? then Some(row.value.status) else None
  }

  function ViewOf(db: Db, orderId: string): Option<OrderView> {
    if orderId in db.views then ViewCodec.Deserialize(db.views[orderId], orderId) else None
  }

  // ------------------------------------------------------------------
  // audit_log and review_queue: insert unless the id is taken
  // ------------------------------------------------------------------

  predicate Logged(audit: seq<AuditRow>, eventId: string) {
    exists i | 0 <= i < |audit| :: audit[i].entry.eventId == eventId
  }

  function InsertAudit(db: Db, entry: AuditEntry, payload: Option<Event>): Db {
    if Logged(db.audit, entry.eventId) then db
    else db.(audit := db.audit + [AuditRow(entry, payload)])
  }

  predicate Filed(reviews: seq<ReviewItem>, eventId: Option<string>) {
    eventId.Some? && exists i | 0 <= i < |reviews| :: reviews[i].eventId == eventId
  }

  function EnqueueReview(db: Db, item: ReviewItem): Db {
    if Filed(db.reviews, item.eventId) then db else db.(reviews := db.reviews + [item])
  }

  // ------------------------------------------------------------------
  // orders_state: each function returns the tables and whether a row was hit
  // ------------------------------------------------------------------

  function Put(db: Db, orderId: string, row: Row): Db {
    db.(orders := db.orders[orderId := row.(updatedAt := db.clock)], clock := db.clock + 1)
  }

  /** LEAST() skips NULL. */
  function Earliest(stored: Option<int>, proposed: Option<int>): Option<int> {
    if stored.None? then proposed
    else if proposed.None? then stored
    else if stored.value <= proposed.value then stored
    else proposed
  }

  function ArmRow(db: Db, orderId: string, at: Option<int>): (Db, bool)
    requires orderId in db.orders
  {
    var row := db.orders[orderId];
    (Put(db, orderId, row.(status := PendingRecheck, recheckAt := Earliest(row.recheckAt, at))), true)
  }

  function ArmFresh(db: Db, orderId: string, at: Option<int>): (Db, bool) {
    if orderId !in db.orders then (Put(db, orderId, Row(PendingRecheck, at, 0, None, 0)), true)
    else if db.orders[orderId].status != Processing then ArmRow(db, orderId, at)
    else (db, false)
  }

  function ArmGuarded(db: Db, orderId: string, at: Option<int>, lastSeenUpdatedAt: int): (Db, bool) {
    if orderId !in db.orders then (Put(db, orderId, Row(PendingRecheck, at, 0, None, 0)), true)
    else if db.orders[orderId].status != Processing && db.orders[orderId].updatedAt <= lastSeenUpdatedAt
    then ArmRow(db, orderId, at)
    else (db, false)
  }

  function MarkDisputed(db: Db, orderId: string): (Db, bool) {
    if orderId !in db.orders then (Put(db, orderId, Row(Disputed, None, 0, None, 0)), true)
    else if db.orders[orderId].status != Processing && db.orders[orderId].status != Disputed
    then (Put(db, orderId, db.orders[orderId].(status := Disputed, recheckAt := None)), true)
    else (db, false)
  }

  function ResolveNaturally(db: Db, orderId: string): (Db, bool) {
    if orderId in db.orders && db.orders[orderId].status == PendingRecheck
    then (Put(db, orderId, db.orders[orderId].(status := ResolvedNaturally, recheckAt := None)), true)
    else (db, false)
  }

  /** The fresh token, or None when the row is not claimable. */
  function ClaimRecheck(db: Db, orderId: string): (Db, Option<nat>) {
    if orderId in db.orders && db.orders[orderId].status == PendingRecheck then
      var token := |db.claims|;
      var row := db.orders[orderId].(status := Processing, claimToken := Some(token));
      (Put(db, orderId, row).(claims := db.claims + [Claim(orderId, |db.audit|)]), Some(token))
    else
      (db, None)
  }

  predicate HoldsClaim(db: Db, orderId: string, token: nat) {
    orderId in db.orders && db.orders[orderId].status == Processing && db.orders[orderId].claimToken == Some(token)
  }

  function CompleteClaim(db: Db, orderId: string, token: nat, newStatus: ReconStatus): (Db, bool) {
    if HoldsClaim(db, orderId, token)
    then (Put(db, orderId, db.orders[orderId].(status := newStatus, recheckAt := None, claimToken := None)), true)
    else (db, false)
  }

  function RearmOrDeadletter(db: Db, orderId: string, token: nat, freshRecheckAt: int, maxRetries: nat)
    : (Db, Option<(ReconStatus, nat)>)
  {
    if HoldsClaim(db, orderId, token) then
      var row := db.orders[orderId];
      var dead := row.retryCount + 1 >= maxRetries;
      var status := if dead then DeadLetter else PendingRecheck;
      var row' := row.(status := status, retryCount := row.retryCount + 1, claimToken := None,
                       recheckAt := if dead then None else Some(freshRecheckAt));
      (Put(db, orderId, row'), Some((status, row.retryCount + 1)))
    else
      (db, None)
  }

  // ------------------------------------------------------------------
  // apply: one event, one transaction
  // ------------------------------------------------------------------

  datatype ApplyResult = ApplyResult(auditWritten: bool, pointerMoved: bool)

  function ApplyPointer(db: Db, event: Event, decision: Decision, prior: Option<Row>): (Db, bool) {
    match decision.action
    case ArmRecheck =>
      if prior.None? then ArmFresh(db, event.orderId, decision.recheckAt)
      else ArmGuarded(db, event.orderId, decision.recheckAt, prior.value.updatedAt)
    case RouteDisputed => MarkDisputed(db, event.orderId)
    case MarkResolvedNaturally => ResolveNaturally(db, event.orderId)
    case FlagForReview =>
      (if decision.review.Some? then EnqueueReview(db, decision.review.value) else db, false)
    case _ => (db, false)
  }

  function Apply(db: Db, event: Event, decision: Decision, view: OrderView, prior: Option<Row>)
    : (Db, ApplyResult)
  {
    if Logged(db.audit, decision.audit.eventId) then (db, ApplyResult(false, false))
    else
      var logged := InsertAudit(db, decision.audit, Some(event));
      var stored := logged.(views := logged.views[event.orderId := ViewCodec.Serialize(view)]);
      var (moved, hit) := ApplyPointer(stored, event, decision, prior);
      (moved, ApplyResult(true, hit))
  }
}
