/** The consumer's transaction, applied to tables that may have moved on since it read
them, keeps the store invariant. */
module ConsumerSteps {
  import opened Models
  import opened Tables
  import opened Recheck
  import opened LogFacts
  import opened StoreInvariant
  import opened StoreSteps
  import AuditIds
  import Compare
  import Correlate
  import Engine
  import ViewCodec
  import ViewFold

  function LoggedView(audit: seq<AuditRow>, o: string): Option<OrderView> {
    if EventsOf(audit, o) == [] then None else Some(ViewAt(audit, o))
  }

  lemma NoViewIsEmptyView(settings: Settings, db: Db, o: string, token: nat, now: int)
    ensures RecheckDecision(o, token, LoggedView(db.audit, o), now, settings.recheckDelay) ==
            RecheckDecision(o, token, Some(ViewAt(db.audit, o)), now, settings.recheckDelay)
  {
  }

  /** `prior` was read earlier: the row did not appear since, and if its stamp has not
      moved on it is still the row that was read. */
  predicate PriorOk(db: Db, o: string, prior: Option<Row>) {
    match prior
    case None => o !in db.orders
    case Some(p) => o in db.orders && p.updatedAt < db.clock &&
                    (db.orders[o].updatedAt <= p.updatedAt ==> db.orders[o] == p)
  }

  predicate EvaluationOk(settings: Settings, db: Db, event: Event, prior: Option<Row>, now: int,
                         evaluation: Evaluation)
  {
    evaluation == Engine.EvaluateAgainst(event, LoggedView(db.audit, event.orderId), StatusOf(prior), now,
                                         settings.recheckDelay)
  }

  predicate ConsumerShape(d: Decision, event: Event, prior: Option<Row>) {
    && d.audit.eventId == event.eventId
    && d.audit.orderId == event.orderId
    && d.audit.source == event.source
    && (d.action == ArmRecheck ==>
          d.recheckAt.Some? && (prior.Some? ==> !IsTerminal(prior.value.status)))
    && (d.action == FlagForReview ==>
          d.review.Some? && d.review.value.reason != DeadLetterReview &&
          d.review.value.eventId == Some(event.eventId))
  }

  lemma ConsumerFacts(settings: Settings, db: Db, event: Event, prior: Option<Row>, now: int, ev: Evaluation)
    requires EvaluationOk(settings, db, event, prior, now, ev)
    ensures ConsumerShape(ev.decision, event, prior)
    ensures ev.view == ViewFold.Absorb(ViewAt(db.audit, event.orderId), event)
  {
    ViewFold.PersistedViewIsAbsorb(event, LoggedView(db.audit, event.orderId), StatusOf(prior), now,
                                   settings.recheckDelay);
    hide ViewFold.Absorb, Correlate.Correlate, Compare.Assess;
  }

  /** What the consumer may do to an order's pointer. */
  predicate PointerMove(row: Option<Row>, row': Option<Row>) {
    || row' == row
    || (row'.Some? && row'.value.claimToken.None? &&
        match row
        case None =>
          row'.value.retryCount == 0 &&
          (|| (row'.value.status == PendingRecheck && row'.value.recheckAt.Some?)
           || (row'.value.status == Disputed && row'.value.recheckAt.None?))
        case Some(r) =>
          r.status != Processing && row'.value.retryCount == r.retryCount &&
          (|| (r.status == PendingRecheck && row'.value.status == PendingRecheck && r.recheckAt.Some? &&
               row'.value.recheckAt.Some? && row'.value.recheckAt.value <= r.recheckAt.value)
           || (r.status == PendingRecheck && row'.value.status == ResolvedNaturally && row'.value.recheckAt.None?)
           || (r.status != Disputed && row'.value.status == Disputed && row'.value.recheckAt.None?)))
  }

  /** Applying a decision moves the pointer only along `PointerMove`, even when the row has
      changed since the decision was made. */
  lemma ApplyMovesPointer(settings: Settings, db: Db, event: Event, d: Decision, prior: Option<Row>)
    requires RowOf(db, event.orderId).Some? ==> RowOk(settings, db.orders[event.orderId])
    requires ConsumerShape(d, event, prior)
    requires PriorOk(db, event.orderId, prior)
    ensures var db' := ApplyPointer(db, event, d, prior).0;
            && PointerMove(RowOf(db, event.orderId), RowOf(db', event.orderId))
            && (RowOf(db', event.orderId) != RowOf(db, event.orderId) ==>
                  && db'.orders == db.orders[event.orderId := db'.orders[event.orderId]]
                  && db'.orders[event.orderId].updatedAt == db.clock
                  && db'.clock == db.clock + 1)
            && (RowOf(db', event.orderId) == RowOf(db, event.orderId) ==>
                  db'.orders == db.orders && db'.clock == db.clock)
            && db'.views == db.views && db'.audit == db.audit && db'.claims == db.claims
            && (|| db'.reviews == db.reviews
                || (d.action == FlagForReview && d.review.Some? && db'.reviews == db.reviews + [d.review.value]))
  {
  }

  /** The consumer's step on its order. */
  predicate ApplyEffect(db: Db, db': Db, event: Event, d: Decision, view: OrderView) {
    var o := event.orderId;
    && PointerMove(RowOf(db, o), RowOf(db', o))
    && (RowOf(db', o) != RowOf(db, o) ==>
          db'.orders == db.orders[o := db'.orders[o]] && db'.orders[o].updatedAt == db.clock &&
          db'.clock == db.clock + 1)
    && (RowOf(db', o) == RowOf(db, o) ==> db'.orders == db.orders && db'.clock == db.clock)
    && db'.views == db.views[o := ViewCodec.Serialize(view)]
    && db'.audit == db.audit + [AuditRow(d.audit, Some(event))]
    && db'.claims == db.claims
    && (|| db'.reviews == db.reviews
        || (d.action == FlagForReview && d.review.Some? && db'.reviews == db.reviews + [d.review.value]))
  }

  lemma ApplyHasEffect(settings: Settings, db: Db, event: Event, d: Decision, view: OrderView, prior: Option<Row>)
    requires RowOf(db, event.orderId).Some? ==> RowOk(settings, db.orders[event.orderId])
    requires ConsumerShape(d, event, prior)
    requires PriorOk(db, event.orderId, prior)
    requires !Logged(db.audit, event.eventId)
    ensures ApplyEffect(db, Apply(db, event, d, view, prior).0, event, d, view)
  {
    var o := event.orderId;
    var stored := db.(audit := db.audit + [AuditRow(d.audit, Some(event))],
                      views := db.views[o := ViewCodec.Serialize(view)]);
    assert Apply(db, event, d, view, prior).0 == ApplyPointer(stored, event, d, prior).0;
    ApplyMovesPointer(settings, stored, event, d, prior);
    assert RowOf(stored, o) == RowOf(db, o);
  }

  lemma ApplyFits(db: Db, db': Db, event: Event, prior: Option<Row>, d: Decision, view: OrderView)
    requires EventOk(event)
    requires !Logged(db.audit, event.eventId)
    requires ConsumerShape(d, event, prior)
    requires ApplyEffect(db, db', event, d, view)
    requires event.orderId in db.orders ==> db.orders[event.orderId].updatedAt < db.clock
    ensures StepFits(db, db', event.orderId)
  {
    assert OwnId(event.orderId, event.eventId);
    assert db'.audit[|db.audit|] == AuditRow(d.audit, Some(event));
    ApplyTouchesOnly(db, db', event, d, view);
    hide PointerMove, TouchesOnly, OwnId;
  }

  lemma ApplyTouchesOnly(db: Db, db': Db, event: Event, d: Decision, view: OrderView)
    requires ApplyEffect(db, db', event, d, view)
    requires d.audit.orderId == event.orderId && d.audit.eventId == event.eventId
    requires d.action == FlagForReview ==>
               d.review.Some? && d.review.value.reason != DeadLetterReview &&
               d.review.value.eventId == Some(event.eventId)
    requires OwnId(event.orderId, event.eventId)
    ensures TouchesOnly(db, db', event.orderId)
  {
    hide PointerMove, OwnId;
  }

  /** The consumer's moves leave the books of claims and dead letters balanced. */
  lemma MovedRowOk(settings: Settings, row: Option<Row>, row': Option<Row>, claims: nat, systemRows: nat,
                   deadLetters: nat)
    requires settings.maxRetries >= 1
    requires PointerMove(row, row')
    requires row.Some? ==> RowOk(settings, row.value)
    requires ClaimsAccounted(settings, row, claims, systemRows)
    requires DeadLettersOk(row, deadLetters)
    ensures row'.Some? ==> RowOk(settings, row'.value)
    ensures ClaimsAccounted(settings, row', claims, systemRows)
    ensures DeadLettersOk(row', deadLetters)
  {
  }

  lemma AppliedIdsOk(settings: Settings, db: Db, db': Db, event: Event, prior: Option<Row>, d: Decision,
                     view: OrderView)
    requires OrderOk(settings, db, event.orderId)
    requires EventOk(event)
    requires ConsumerShape(d, event, prior)
    requires ApplyEffect(db, db', event, d, view)
    ensures IdsOk(db', event.orderId)
  {
    var o := event.orderId;
    AuditAppend(db.audit, AuditRow(d.audit, Some(event)), o);
    if db'.reviews != db.reviews {
      ReviewsAppend(db.reviews, d.review.value, o);
    }
    forall t: nat ensures event.eventId != AuditIds.RecheckId(o, t) && event.eventId != AuditIds.SweepId(o, t)
                  ensures Settled(db, o, t) ==> Settled(db', o, t) {
      AuditIds.SystemIds(o, t);
    }
  }

  lemma AppliedOrderOk(settings: Settings, db: Db, db': Db, event: Event, prior: Option<Row>, d: Decision,
                       view: OrderView)
    requires settings.maxRetries >= 1
    requires OrderOk(settings, db, event.orderId)
    requires EventOk(event)
    requires ConsumerShape(d, event, prior)
    requires view == ViewFold.Absorb(ViewAt(db.audit, event.orderId), event)
    requires ApplyEffect(db, db', event, d, view)
    requires TouchesOnly(db, db', event.orderId)
    ensures OrderOk(settings, db', event.orderId)
  {
    var o := event.orderId;
    hide IdsOk, TokensOk, ProvenanceOk, ViewsOk, TouchesOnly, RowOk, ClaimsAccounted, DeadLettersOk, PointerMove;
    MovedRowOk(settings, RowOf(db, o), RowOf(db', o), ClaimsOf(db.claims, o), SystemRows(db.audit, o),
               DeadLetters(db.reviews, o));
    AppliedIdsOk(settings, db, db', event, prior, d, view);
    AppliedViewsOk(db, db', event, d, view);
    AppliedProvenance(db, db', event, d, view);
    AuditAppend(db.audit, AuditRow(d.audit, Some(event)), o);
    if db'.reviews != db.reviews {
      ReviewsAppend(db.reviews, d.review.value, o);
    }
  }

  lemma AppliedViewsOk(db: Db, db': Db, event: Event, d: Decision, view: OrderView)
    requires ViewsOk(db, event.orderId)
    requires event.orderId != ""
    requires view == ViewFold.Absorb(ViewAt(db.audit, event.orderId), event)
    requires ApplyEffect(db, db', event, d, view)
    ensures ViewsOk(db', event.orderId)
    ensures TokensOk(db, event.orderId) ==> TokensOk(db', event.orderId)
  {
    hide ViewFold.Absorb;
    var o := event.orderId;
    AuditAppend(db.audit, AuditRow(d.audit, Some(event)), o);
    ViewFold.FoldAppend(EmptyView(o), EventsOf(db.audit, o), event);
    forall t: nat ensures Live(db', o, t) ==> Live(db, o, t)
                  ensures LastClaim(db, o, t) ==> LastClaim(db', o, t) {
    }
  }

  lemma AppliedProvenance(db: Db, db': Db, event: Event, d: Decision, view: OrderView)
    requires ProvenanceOk(db, event.orderId)
    requires ApplyEffect(db, db', event, d, view)
    requires TouchesOnly(db, db', event.orderId)
    ensures ProvenanceOk(db', event.orderId)
  {
    var o := event.orderId;
    if o in db'.orders && db'.orders[o].status == ResolvedAutocorrected {
      var token, n :| Justified(db, o, token, n);
      JustifiedPersists(db, db', o, o, token, n);
    }
  }

  /** A consumer transaction whose event is already logged changes nothing; otherwise it
      logs the event, stores the next view, and moves the pointer along `PointerMove`. */
  lemma ApplyKeeps(settings: Settings, db: Db, event: Event, prior: Option<Row>, now: int, ev: Evaluation)
    requires StoreOk(settings, db)
    requires EventOk(event)
    requires PriorOk(db, event.orderId, prior)
    requires EvaluationOk(settings, db, event, prior, now, ev)
    ensures var db' := Apply(db, event, ev.decision, ev.view, prior).0;
            && StoreOk(settings, db')
            && (Logged(db.audit, event.eventId) ==> db' == db)
            && (!Logged(db.audit, event.eventId) ==> ApplyEffect(db, db', event, ev.decision, ev.view))
            && Logged(db'.audit, event.eventId)
  {
    ConsumerFacts(settings, db, event, prior, now, ev);
    if !Logged(db.audit, event.eventId) {
      var db' := Apply(db, event, ev.decision, ev.view, prior).0;
      StoreOrder(settings, db, event.orderId);
      hide StoreOk, EvaluationOk;
      ApplyHasEffect(settings, db, event, ev.decision, ev.view, prior);
      AppliedKeeps(settings, db, db', event, prior, ev.decision, ev.view);
    }
  }

  lemma AppliedKeeps(settings: Settings, db: Db, db': Db, event: Event, prior: Option<Row>, d: Decision,
                     view: OrderView)
    requires StoreOk(settings, db)
    requires EventOk(event)
    requires !Logged(db.audit, event.eventId)
    requires ConsumerShape(d, event, prior)
    requires view == ViewFold.Absorb(ViewAt(db.audit, event.orderId), event)
    requires ApplyEffect(db, db', event, d, view)
    ensures StoreOk(settings, db')
    ensures Logged(db'.audit, event.eventId)
  {
    var row := AuditRow(d.audit, Some(event));
    StoreOrder(settings, db, event.orderId);
    ApplyFits(db, db', event, prior, d, view);
    assert db'.audit[|db.audit|] == row;
    assert TouchesOnly(db, db', event.orderId);
    hide StoreOk, OrderOk, TouchesOnly;
    AppliedOrderOk(settings, db, db', event, prior, d, view);
    AuditAppend(db.audit, row, event.orderId);
    StepKeeps(settings, db, db', event.orderId);
  }
}
