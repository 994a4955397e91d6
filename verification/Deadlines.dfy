/** When an order is looked at again: the deadlines of its row and of its queue entry, told
from the rows before and after. */
module Deadlines {
  import opened Models
  import opened Tables
  import opened Recheck
  import opened Protocol
  import opened Consumer
  import opened Runners
  import Actions
  import AuditIds
  import Compare
  import Correlate
  import DecisionTable
  import Engine
  import Refinement
  import Sweep
  import Text
  import ViewCodec

  // ------------------------------------------------------------------
  // After an event
  // ------------------------------------------------------------------

  /** The order's row carries the stamp of a transaction that began at `stamp`. */
  predicate Written(db: Db, orderId: string, stamp: int) {
    orderId in db.orders && db.orders[orderId].updatedAt == stamp
  }

  /** The order stands on the queue at `when`, or at its old score if that is earlier; no
      other entry has changed. */
  predicate QueuedBy(scores: map<string, int>, scores': map<string, int>, orderId: string, when: int) {
    && scores'.Keys == scores.Keys + {orderId}
    && scores'[orderId] == (if orderId in scores && scores[orderId] < when then scores[orderId] else when)
    && forall o | o in scores && o != orderId :: scores'[o] == scores[o]
  }

  /** A row armed for `when` keeps an earlier deadline it already had. */
  predicate ArmedBy(before: Option<Row>, row: Row, when: int) {
    row.recheckAt == match before
                     case Some(r) => if r.recheckAt.Some? && r.recheckAt.value < when then r.recheckAt else Some(when)
                     case None => Some(when)
  }

  lemma AppliedWrites(db: Db, event: Event, d: Decision, view: OrderView, prior: Option<Row>, at: int)
    requires forall o | o in db.orders :: db.orders[o].updatedAt < db.clock
    requires d.action == ArmRecheck ==> d.recheckAt == Some(at)
    ensures var (db', r) := Tables.Apply(db, event, d, view, prior);
            var o := event.orderId;
            && (r.pointerMoved <==> Written(db', o, db.clock))
            && (forall p | p != o :: RowOf(db', p) == RowOf(db, p))
            && (!Written(db', o, db.clock) ==> RowOf(db', o) == RowOf(db, o))
            && (Written(db', o, db.clock) ==>
                  && (db'.orders[o].status == PendingRecheck <==> d.action == ArmRecheck)
                  && (d.action == ArmRecheck ==> ArmedBy(RowOf(db, o), db'.orders[o], at)))
  {
    hide ViewCodec.Serialize;
  }


  lemma DecidedDeadline(event: Event, view: Option<OrderView>, status: Option<ReconStatus>, now: int, delay: int)
    ensures var d := Engine.EvaluateAgainst(event, view, status, now, delay).decision;
            d.action == ArmRecheck ==> d.recheckAt == Some(now + delay)
  {
    hide Correlate.Correlate, Compare.Assess;
  }

  /** One transaction wrote the row of `o` at most. If it left the row pending, the row is armed
      for `when`, or earlier if it was, and the order is queued by then; in every other case the
      queue is as it was. */
  ghost predicate QueueFollowsRow(w: WorkerState, w': WorkerState, o: string, when: int) {
    && (forall p | p != o :: RowOf(w'.db, p) == RowOf(w.db, p))
    && (!Written(w'.db, o, w.db.clock) ==> RowOf(w'.db, o) == RowOf(w.db, o))
    && (if Written(w'.db, o, w.db.clock) && w'.db.orders[o].status == PendingRecheck then
          ArmedBy(RowOf(w.db, o), w'.db.orders[o], when) && QueuedBy(w.scores, w'.scores, o, when)
        else
          w'.scores == w.scores)
  }

  lemma PushFollowsRow(w: WorkerState, event: Event, d: Decision, view: OrderView, prior: Option<Row>, at: int,
                       seen: set<string>)
    requires forall o | o in w.db.orders :: w.db.orders[o].updatedAt < w.db.clock
    requires d.action == ArmRecheck ==> d.recheckAt == Some(at)
    ensures var (db', r) := Tables.Apply(w.db, event, d, view, prior);
            QueueFollowsRow(w, WorkerState(db', seen, Pushes(w.scores, event, d, r.pointerMoved)), event.orderId, at)
  {
    AppliedWrites(w.db, event, d, view, prior, at);
    hide Tables.Apply, ArmedBy, Written;
  }

  /** Handling a message writes no row but that of its event's order, and queues the order
      exactly when it leaves that row armed. */
  lemma ArmedIsQueued(settings: Settings, w: WorkerState, m: Message, now: int)
    requires forall o | o in w.db.orders :: w.db.orders[o].updatedAt < w.db.clock
    ensures var w', event := Handle(settings, w, m, now), EventOf(m, now);
            match event
            case None => w'.db.orders == w.db.orders && w'.scores == w.scores
            case Some(e) => QueueFollowsRow(w, w', e.orderId, now + settings.recheckDelay)
  {
    var event := EventOf(m, now);
    if event.Some? {
      NothingWritten(w, event.value.orderId, now + settings.recheckDelay);
      if !Raises(m) && event.value.eventId !in w.seen {
        HandledEventQueues(settings, w, event.value, now);
      }
    }
    hide EventOf, Raises, QueueFollowsRow, MalformedReviewOf, Filed, HandleEvent;
    if event.Some? && !Raises(m) { SeenIsVoid(settings, w, event.value, now); }
  }

  lemma SeenIsVoid(settings: Settings, w: WorkerState, event: Event, now: int)
    ensures event.eventId in w.seen ==> HandleEvent(settings, w, event, now) == w
  {
  }

  lemma NothingWritten(w: WorkerState, o: string, when: int)
    requires forall p | p in w.db.orders :: w.db.orders[p].updatedAt < w.db.clock
    ensures QueueFollowsRow(w, w, o, when)
  {
  }

  lemma HandledEventQueues(settings: Settings, w: WorkerState, event: Event, now: int)
    requires forall o | o in w.db.orders :: w.db.orders[o].updatedAt < w.db.clock
    requires event.eventId !in w.seen
    ensures QueueFollowsRow(w, HandleEvent(settings, w, event, now), event.orderId, now + settings.recheckDelay)
  {
    var c := ReadAndEvaluate(settings, w.db, event, now);
    DecidedDeadline(event, ViewOf(w.db, event.orderId), StatusOf(c.prior), now, settings.recheckDelay);
    PushFollowsRow(w, event, c.evaluation.decision, c.evaluation.view, c.prior, now + settings.recheckDelay,
                   w.seen + {event.eventId});
    hide Engine.EvaluateAgainst, Tables.Apply, QueueFollowsRow, Pushes;
  }

  // ------------------------------------------------------------------
  // What goes to review
  // ------------------------------------------------------------------

  lemma AppliedRecords(db: Db, event: Event, d: Decision, view: OrderView, prior: Option<Row>)
    requires d.audit.eventId == event.eventId && !Logged(db.audit, event.eventId)
    requires d.action == FlagForReview ==> d.review.Some? && d.review.value.eventId == Some(event.eventId)
    ensures var db' := Tables.Apply(db, event, d, view, prior).0;
            && db'.audit == db.audit + [AuditRow(d.audit, Some(event))]
            && db'.reviews == (if d.action == FlagForReview && !Filed(db.reviews, Some(event.eventId))
                               then db.reviews + [d.review.value] else db.reviews)
  {
    hide ViewCodec.Serialize, Logged, Filed;
  }

  /** A new event is logged under its own id with all it says; it adds to the review queue the
      row its decision flags, unless that event was filed before, and nothing otherwise. */
  lemma HandledIsRecorded(settings: Settings, w: WorkerState, e: Event, now: int)
    requires e.eventId !in w.seen && !Logged(w.db.audit, e.eventId)
    ensures var db' := HandleEvent(settings, w, e, now).db;
            var d := Engine.EvaluateAgainst(e, ViewOf(w.db, e.orderId), StatusOf(RowOf(w.db, e.orderId)), now,
                                            settings.recheckDelay).decision;
            && db'.audit == w.db.audit + [AuditRow(d.audit, Some(e))]
            && (d.action == FlagForReview ==> d.review.Some?)
            && db'.reviews == (if d.action == FlagForReview && !Filed(w.db.reviews, Some(e.eventId))
                               then w.db.reviews + [d.review.value] else w.db.reviews)
  {
    var c := ReadAndEvaluate(settings, w.db, e, now);
    FlaggedHasReview(e, ViewOf(w.db, e.orderId), StatusOf(c.prior), now, settings.recheckDelay);
    AppliedRecords(w.db, e, c.evaluation.decision, c.evaluation.view, c.prior);
    hide Engine.EvaluateAgainst, Tables.Apply, Logged, Filed;
  }

  lemma FlaggedHasReview(e: Event, view: Option<OrderView>, status: Option<ReconStatus>, now: int, delay: int)
    ensures var d := Engine.EvaluateAgainst(e, view, status, now, delay).decision;
            && d.audit.eventId == e.eventId
            && (d.action == FlagForReview ==> d.review.Some? && d.review.value.eventId == Some(e.eventId))
  {
    hide Correlate.Correlate, Compare.Assess;
  }

  // ------------------------------------------------------------------
  // After a recheck
  // ------------------------------------------------------------------

  /** Nothing to decide on: the merchant has not been heard of, or the two sides may still come
      to agree. */
  predicate Inconclusive(view: OrderView) {
    view.merchantStatus.None? || Compare.Assess(view) in {UnsafeDrift, Indeterminate}
  }

  /** What a recheck on `view` tells the log. */
  function Told(view: OrderView): (Action, Direction) {
    if view.merchantStatus.None? then (FlagForReview, Neutral)
    else
      match Compare.Assess(view)
      case SafeDrift => (ApplyAutocorrect, DirectionOf(SafeDrift))
      case NoDrift => (MarkResolvedNaturally, Neutral)
      case ReversalDrift => (RouteDisputed, DirectionOf(ReversalDrift))
      case drift => (ArmRecheck, DirectionOf(drift))
  }

  lemma RecheckDecides(o: string, token: nat, view: OrderView, now: int, delay: int)
    requires !Text.Blank(o)
    ensures var d := RecheckDecision(o, token, Some(view), now, delay);
            && d.action == Told(view).0
            && (d.recheckAt == if d.action == ArmRecheck then Some(now + delay) else None)
            && d.newStatus == Refinement.OutcomeOf(view)
            && (exists newState :: d.audit ==
                 AuditEntry(AuditIds.RecheckId(o, token), o, System, "recheck.fired", Decided(d.action), Told(view).1,
                            Some(Processing), newState, None, None, None, None))
            && (d.newStatus.Some? ==> d.audit.newState == d.newStatus)
  {
    var e := Synthetic(o, AuditIds.RecheckId(o, token), now);
    var projected := Correlate.Project(view, e);
    assert projected == view.(seenEventIds := view.seenEventIds + {e.eventId});
    assert Compare.Assess(projected) == Compare.Assess(view);
    hide Compare.Assess, AuditIds.RecheckId;
  }

  /** The row a recheck of a held claim leaves, and its deadline: an inconclusive recheck with
      budget left comes again one recheck delay after the look, or where there was nothing to
      look at, one delay after the finish. The deadline returned is the row's. */
  lemma FinishedClaim(settings: Settings, db: Db, o: string, token: nat, view: OrderView, now: int, wall: int)
    requires HoldsClaim(db, o, token) && !Text.Blank(o)
    ensures var d := RecheckDecision(o, token, Some(view), now, settings.recheckDelay);
            var (db', at) := FinishClaim(settings, db, o, token, d, wall);
            o in db'.orders &&
            var row, row' := db.orders[o], db'.orders[o];
            && row'.status == (if Inconclusive(view) then
                                 if row.retryCount + 1 >= settings.maxRetries then DeadLetter else PendingRecheck
                               else match Compare.Assess(view)
                                    case SafeDrift => ResolvedAutocorrected
                                    case NoDrift => ResolvedNaturally
                                    case _ => Disputed)
            && row'.recheckAt == (if row'.status != PendingRecheck then None
                                  else if view.merchantStatus.None? then Some(wall + settings.recheckDelay)
                                  else Some(now + settings.recheckDelay))
            && at == row'.recheckAt
  {
    RecheckDecides(o, token, view, now, settings.recheckDelay);
    hide RecheckDecision, Compare.Assess, AuditIds.RecheckId, Logged, Filed;
  }

  /** A finish without the claim does nothing and re-arms nothing. */
  lemma FencedFinish(settings: Settings, db: Db, o: string, token: nat, decision: Decision, wall: int)
    requires !HoldsClaim(db, o, token)
    ensures FinishClaim(settings, db, o, token, decision, wall) == (db, None)
  {
  }

  /** The log row of a finish: the action decided, or that the budget is spent. */
  lemma FinishedEntry(settings: Settings, db: Db, o: string, token: nat, view: OrderView, now: int, wall: int)
    requires HoldsClaim(db, o, token) && !Text.Blank(o) && !Logged(db.audit, AuditIds.RecheckId(o, token))
    ensures var d := RecheckDecision(o, token, Some(view), now, settings.recheckDelay);
            var db' := FinishClaim(settings, db, o, token, d, wall).0;
            o in db'.orders &&
            var decision := if db'.orders[o].status == DeadLetter then RecheckRetriesExhausted
                            else Decided(Told(view).0);
            db'.audit == db.audit +
              [AuditRow(AuditEntry(AuditIds.RecheckId(o, token), o, System, "recheck.fired", decision, Told(view).1,
                                   Some(Processing), Some(db'.orders[o].status), None, None, None, None), None)]
  {
    RecheckDecides(o, token, view, now, settings.recheckDelay);
    hide RecheckDecision, Compare.Assess, AuditIds.RecheckId, Logged, Filed;
  }

  // ------------------------------------------------------------------
  // The watchdog
  // ------------------------------------------------------------------

  /** A pass of the stuck sweep takes the claims whose row has stood in PROCESSING for longer
      than the timeout with budget left, each at the cost of a retry, and leaves every other
      row, and so every younger claim, as it is. */
  lemma OnlyOldClaimsAreTaken(settings: Settings, db: Db, orderIds: seq<string>)
    requires Sweep.ListsStuck(settings, db, orderIds)
    ensures var db' := Sweep.StuckSweep(settings, db, orderIds);
            && db'.orders.Keys == db.orders.Keys
            && forall o | o in db.orders ::
                 var row, row' := db.orders[o], db'.orders[o];
                 if row.status == Processing && row.updatedAt < db.clock - settings.timeout &&
                    row.retryCount < settings.maxRetries then
                   && row'.claimToken.None? && row'.updatedAt == db.clock && row'.recheckAt == row.recheckAt
                   && row'.retryCount == row.retryCount + 1
                   && row'.status == if row'.retryCount == settings.maxRetries then DeadLetter else PendingRecheck
                 else
                   row' == row
  {
    Sweep.ReclaimEachRows(settings, db, orderIds);
    hide Sweep.ReclaimEach;
  }

  /** So along any run: a reclaim step that changes an order's row found its claim older than
      the timeout. */
  lemma ReclaimWaits(settings: Settings, s: Sys, orderIds: seq<string>, o: string)
    requires o in s.db.orders
    ensures var s' := Do(settings, s, ReclaimStuck(orderIds));
            && o in s'.db.orders
            && (s'.db.orders[o] != s.db.orders[o] ==>
                  s.db.orders[o].status == Processing && s.db.orders[o].updatedAt < s.db.clock - settings.timeout)
  {
    if Sweep.ListsStuck(settings, s.db, orderIds) {
      OnlyOldClaimsAreTaken(settings, s.db, orderIds);
    }
    hide Sweep.ListsStuck, Sweep.StuckSweep;
  }

  /** The log row of a reclaim says whether the order was put back or given up. */
  lemma ReclaimIsTold(settings: Settings, db: Db, o: string)
    requires o in db.orders && !Logged(db.audit, AuditIds.SweepId(o, db.orders[o].retryCount + 1))
    ensures var db' := Sweep.ReclaimOne(settings, db, o);
            var retries := db.orders[o].retryCount + 1;
            var dead := retries >= settings.maxRetries;
            && db'.audit == db.audit +
                 [AuditRow(AuditEntry(AuditIds.SweepId(o, retries), o, System, "sweep.stuck_processing",
                                      if dead then DeadLettered else Reclaim, Neutral, Some(Processing),
                                      Some(if dead then DeadLetter else PendingRecheck), None, None, None, None),
                           None)]
            && db'.reviews == db.reviews +
                 if dead then [ReviewItem(Some(o), DeadLetterReview, None, None)] else []
  {
    hide AuditIds.SweepId, Logged;
  }

  /** A pending order is driven by the fallback sweep only once its deadline is past by more
      than the grace period; then it is, the earliest first, as far as the limit goes. */
  lemma OrphansAreOverdue(settings: Settings, db: Db, limit: nat, orderIds: seq<string>, o: string)
    requires Sweep.ListsOrphans(settings, db, limit, orderIds)
    ensures var overdue := o in db.orders && db.orders[o].status == PendingRecheck && db.orders[o].recheckAt.Some? &&
                           db.orders[o].recheckAt.value < db.clock - settings.grace;
            && (o in orderIds ==> overdue)
            && (overdue && o !in orderIds ==>
                  && |orderIds| == limit
                  && forall p | p in orderIds ::
                       p in db.orders && db.orders[p].recheckAt.Some? &&
                       db.orders[p].recheckAt.value <= db.orders[o].recheckAt.value)
  {
  }
}
