/** The stateless tool and the worker agree: folding an order's events in memory and
simulating one recheck tells where the worker's pointer comes to rest. */
module Refinement {
  import opened Models
  import opened Tables
  import opened Recheck
  import opened LogFacts
  import opened StoreInvariant
  import opened StoreSteps
  import opened ConsumerSteps
  import opened Protocol
  import AuditIds
  import Compare
  import Correlate
  import CrashRecovery
  import Engine
  import Text
  import ViewCodec
  import ViewFold

  // ------------------------------------------------------------------
  // The tool: reconcile_tool/run.py
  // ------------------------------------------------------------------

  /** What the tool carries from one event of an order to the next. */
  datatype Carried = Carried(view: Option<OrderView>, status: Option<ReconStatus>)

  const START := Carried(None, None)

  function After(status: Option<ReconStatus>, decision: Decision): Option<ReconStatus> {
    if decision.newStatus.Some? then decision.newStatus else status
  }

  function ToolStep(c: Carried, event: Event, now: int, delay: int): Carried {
    var ev := Engine.EvaluateAgainst(event, c.view, c.status, now, delay);
    Carried(Some(ev.view), After(c.status, ev.decision))
  }

  function ToolFold(events: seq<Event>, now: int, delay: int): Carried {
    if events == [] then START
    else ToolStep(ToolFold(events[..|events| - 1], now, delay), events[|events| - 1], now, delay)
  }

  function StatelessId(orderId: string): string {
    AuditIds.RECHECK + orderId + ":stateless"
  }

  /** The simulated recheck, on the tool's own audit id. */
  function ToolRecheck(orderId: string, c: Carried, now: int, delay: int): Carried {
    if c.status != Some(PendingRecheck) then c
    else
      var ev := EvaluateRecheck(orderId, StatelessId(orderId), c.view, now + delay, delay);
      Carried(Some(ev.view), After(c.status, ev.decision))
  }

  function ToolStatus(orderId: string, events: seq<Event>, now: int, delay: int): Option<ReconStatus> {
    ToolRecheck(orderId, ToolFold(events, now, delay), now, delay).status
  }

  // ------------------------------------------------------------------
  // The worker, with nothing interleaved
  // ------------------------------------------------------------------

  function Consume(settings: Settings, db: Db, events: seq<Event>, nows: seq<int>): Db
    requires |nows| == |events|
  {
    if events == [] then db
    else
      var n := |events| - 1;
      ReconcileEvent(settings, Consume(settings, db, events[..n], nows[..n]), events[n], nows[n])
  }

  /** Recheck until the order is no longer pending. Each entry of `times` is the instant a
      recheck fires at and the time its finish reads. */
  function DriveRechecks(settings: Settings, db: Db, orderId: string, times: seq<(int, int)>): Db
    decreases |times|
  {
    if times == [] || orderId !in db.orders || db.orders[orderId].status != PendingRecheck then db
    else DriveRechecks(settings, ResolveOrder(settings, db, orderId, times[0].0, times[0].1), orderId, times[1..])
  }

  // ------------------------------------------------------------------
  // Decisions do not depend on the time or on the token
  // ------------------------------------------------------------------

  lemma StatusIgnoresTime(event: Event, view: Option<OrderView>, status: Option<ReconStatus>, now1: int, now2: int,
                          delay1: int, delay2: int)
    ensures var d1 := Engine.EvaluateAgainst(event, view, status, now1, delay1).decision;
            var d2 := Engine.EvaluateAgainst(event, view, status, now2, delay2).decision;
            d1.newStatus == d2.newStatus && d1.action == d2.action
  {
    hide Correlate.Correlate, Compare.Assess;
  }

  /** A recheck's outcome is a function of the view alone. */
  function OutcomeOf(view: OrderView): (outcome: Option<ReconStatus>)
    ensures outcome in {None, Some(ResolvedAutocorrected), Some(ResolvedNaturally), Some(Disputed),
                        Some(PendingRecheck)}
  {
    if view.merchantStatus.None? then None
    else
      match Compare.Assess(view)
      case SafeDrift => Some(ResolvedAutocorrected)
      case NoDrift => Some(ResolvedNaturally)
      case ReversalDrift => Some(Disputed)
      case _ => Some(PendingRecheck)
  }

  function ActionFor(outcome: Option<ReconStatus>): Action {
    match outcome
    case None => FlagForReview
    case Some(ResolvedAutocorrected) => ApplyAutocorrect
    case Some(ResolvedNaturally) => MarkResolvedNaturally
    case Some(Disputed) => RouteDisputed
    case _ => ArmRecheck
  }

  /** No event of the order has arrived with a currency or an amount the synthetic event
      could contradict, so only a missing merchant record fails its correlation. */
  lemma RecheckOutcome(orderId: string, tokenId: string, view: OrderView, now: int, delay: int)
    requires !Text.Blank(orderId)
    ensures EvaluateRecheck(orderId, tokenId, Some(view), now, delay).decision.newStatus == OutcomeOf(view)
    ensures var d := EvaluateRecheck(orderId, tokenId, Some(view), now, delay).decision;
            d.action == ActionFor(OutcomeOf(view))
  {
    var e := Synthetic(orderId, tokenId, now);
    var projected := Correlate.Project(view, e);
    assert projected == view.(seenEventIds := view.seenEventIds + {e.eventId});
    assert Compare.Assess(projected) == Compare.Assess(view);
  }

  // ------------------------------------------------------------------
  // Consuming the events
  // ------------------------------------------------------------------

  /** The tables hold about the order exactly what the tool carries. */
  predicate Mirrors(db: Db, orderId: string, c: Carried) {
    && StatusOf(RowOf(db, orderId)) == c.status
    && LoggedView(db.audit, orderId) == c.view
    && c.status != Some(Processing)
  }

  /** Read, evaluated and applied with nothing in between, a decision's status is the
      pointer's. */
  lemma UninterruptedPointer(db: Db, event: Event, view: Option<OrderView>, now: int, delay: int)
    requires RowOf(db, event.orderId).Some? ==> db.orders[event.orderId].status != Processing
    ensures var prior := RowOf(db, event.orderId);
            var d := Engine.EvaluateAgainst(event, view, StatusOf(prior), now, delay).decision;
            StatusOf(RowOf(ApplyPointer(db, event, d, prior).0, event.orderId)) == After(StatusOf(prior), d)
  {
    hide Correlate.Correlate, Compare.Assess;
  }

  /** The event is logged and the view is the next one of the fold. */
  lemma ConsumedStore(settings: Settings, db: Db, event: Event, now: int)
    requires StoreOk(settings, db)
    requires EventOk(event) && !Logged(db.audit, event.eventId)
    ensures var db' := ReconcileEvent(settings, db, event, now);
            && StoreOk(settings, db')
            && LoggedView(db'.audit, event.orderId) ==
               Some(ViewFold.Absorb(ViewAt(db.audit, event.orderId), event))
            && forall id :: Logged(db'.audit, id) ==> Logged(db.audit, id) || id == event.eventId
  {
    var o := event.orderId;
    var prior := RowOf(db, o);
    var ev := Engine.EvaluateAgainst(event, LoggedView(db.audit, o), StatusOf(prior), now, settings.recheckDelay);
    StoreOrder(settings, db, o);
    ReadsReplay(settings, db, o);
    assert PriorOk(db, o, prior);
    ApplyKeeps(settings, db, event, prior, now, ev);
    hide StoreOk, OrderOk, Engine.EvaluateAgainst, ViewFold.Absorb, Apply, PointerMove;
    AuditAppend(db.audit, AuditRow(ev.decision.audit, Some(event)), o);
    ViewFold.FoldAppend(EmptyView(o), EventsOf(db.audit, o), event);
  }

  lemma ToolStepCases(c: Carried, event: Event, now: int, toolNow: int, delay: int)
    ensures ToolStep(c, event, toolNow, delay) ==
            Carried(Some(ViewFold.Absorb(if c.view.Some? then c.view.value else EmptyView(event.orderId), event)),
                    After(c.status, Engine.EvaluateAgainst(event, c.view, c.status, now, delay).decision))
  {
    StatusIgnoresTime(event, c.view, c.status, now, toolNow, delay, delay);
    ViewFold.PersistedViewIsAbsorb(event, c.view, c.status, toolNow, delay);
    hide Engine.EvaluateAgainst, ViewFold.Absorb;
  }

  lemma ConsumeOne(settings: Settings, db: Db, event: Event, now: int, c: Carried, toolNow: int)
    requires StoreOk(settings, db)
    requires EventOk(event) && !Logged(db.audit, event.eventId)
    requires Mirrors(db, event.orderId, c)
    ensures var db' := ReconcileEvent(settings, db, event, now);
            && StoreOk(settings, db')
            && Mirrors(db', event.orderId, ToolStep(c, event, toolNow, settings.recheckDelay))
            && forall id :: Logged(db'.audit, id) ==> Logged(db.audit, id) || id == event.eventId
  {
    ConsumedStore(settings, db, event, now);
    StoreOrder(settings, db, event.orderId);
    ConsumedPointer(settings, db, event, now);
    ToolStepCases(c, event, now, toolNow, settings.recheckDelay);
    StatusIsNeverProcessing(event, c.view, c.status, now, settings.recheckDelay);
    hide StoreOk, OrderOk, ReconcileEvent, ToolStep, Engine.EvaluateAgainst, ViewFold.Absorb;
  }

  lemma StatusIsNeverProcessing(event: Event, view: Option<OrderView>, status: Option<ReconStatus>, now: int,
                                delay: int)
    ensures Engine.EvaluateAgainst(event, view, status, now, delay).decision.newStatus != Some(Processing)
  {
    hide Correlate.Correlate, Compare.Assess;
  }

  lemma ConsumedPointer(settings: Settings, db: Db, event: Event, now: int)
    requires OrderOk(settings, db, event.orderId)
    requires !Logged(db.audit, event.eventId)
    requires RowOf(db, event.orderId).Some? ==> db.orders[event.orderId].status != Processing
    ensures var prior := RowOf(db, event.orderId);
            var d := Engine.EvaluateAgainst(event, LoggedView(db.audit, event.orderId), StatusOf(prior), now,
                                            settings.recheckDelay).decision;
            StatusOf(RowOf(ReconcileEvent(settings, db, event, now), event.orderId)) == After(StatusOf(prior), d)
  {
    var o := event.orderId;
    ReadsReplay(settings, db, o);
    var prior := RowOf(db, o);
    var ev := Engine.EvaluateAgainst(event, LoggedView(db.audit, o), StatusOf(prior), now, settings.recheckDelay);
    var stored := db.(audit := db.audit + [AuditRow(ev.decision.audit, Some(event))],
                      views := db.views[o := ViewCodec.Serialize(ev.view)]);
    ConsumerFacts(settings, db, event, prior, now, ev);
    UninterruptedPointer(stored, event, LoggedView(db.audit, o), now, settings.recheckDelay);
    assert RowOf(stored, o) == prior;
    hide OrderOk, Engine.EvaluateAgainst, ApplyPointer, LoggedView, ViewCodec.Serialize;
  }

  predicate FreshEvents(db: Db, orderId: string, events: seq<Event>) {
    && (forall i | 0 <= i < |events| ::
          EventOk(events[i]) && events[i].orderId == orderId && !Logged(db.audit, events[i].eventId))
    && (forall i, j | 0 <= i < j < |events| :: events[i].eventId != events[j].eventId)
  }

  lemma {:induction false} ConsumeMirrors(settings: Settings, db: Db, orderId: string, events: seq<Event>,
                                          nows: seq<int>, toolNow: int)
    requires |nows| == |events|
    requires StoreOk(settings, db)
    requires orderId !in db.views
    requires FreshEvents(db, orderId, events)
    ensures var db' := Consume(settings, db, events, nows);
            && StoreOk(settings, db')
            && Mirrors(db', orderId, ToolFold(events, toolNow, settings.recheckDelay))
            && forall id :: Logged(db'.audit, id) ==> Logged(db.audit, id) || exists e :: e in events && e.eventId == id
  {
    if events == [] {
      StoreOrder(settings, db, orderId);
    } else {
      hide StoreOk, Mirrors, ToolStep, ReconcileEvent, Logged;
      var n := |events| - 1;
      var before, e := Consume(settings, db, events[..n], nows[..n]), events[n];
      FreshPrefix(db, orderId, events);
      hide FreshEvents, EventOk;
      ConsumeMirrors(settings, db, orderId, events[..n], nows[..n], toolNow);
      ConsumeOne(settings, before, e, nows[n], ToolFold(events[..n], toolNow, settings.recheckDelay), toolNow);
      assert e in events;
    }
  }

  lemma FreshPrefix(db: Db, orderId: string, events: seq<Event>)
    requires FreshEvents(db, orderId, events) && events != []
    ensures var n := |events| - 1;
            && FreshEvents(db, orderId, events[..n])
            && EventOk(events[n]) && events[n].orderId == orderId && !Logged(db.audit, events[n].eventId)
            && forall x | x in events[..n] :: x.eventId != events[n].eventId
  {
  }

  // ------------------------------------------------------------------
  // Driving the recheck
  // ------------------------------------------------------------------

  /** One uninterrupted recheck of a pending order ends where the view says, and otherwise
      spends one retry. */
  lemma ResolveOutcome(settings: Settings, db: Db, o: string, now: int, wall: int)
    requires StoreOk(settings, db)
    requires !Text.Blank(o)
    requires o in db.orders && db.orders[o].status == PendingRecheck
    ensures var db', row := ResolveOrder(settings, db, o, now, wall), db.orders[o];
            var outcome := OutcomeOf(ViewAt(db.audit, o));
            && StoreOk(settings, db')
            && o in db'.orders
            && EventsOf(db'.audit, o) == EventsOf(db.audit, o)
            && (if outcome.Some? && outcome != Some(PendingRecheck) then Some(db'.orders[o].status) == outcome
                else db'.orders[o].retryCount == row.retryCount + 1 &&
                     db'.orders[o].status ==
                       if row.retryCount + 1 >= settings.maxRetries then DeadLetter else PendingRecheck)
  {
    var (claimed, token) := ClaimRecheck(db, o);
    ClaimKeeps(settings, db, o);
    var t, view := token.value, ViewAt(db.audit, o);
    var decision := RecheckDecision(o, t, ViewOf(claimed, o), now, settings.recheckDelay);
    assert claimed.audit == db.audit && claimed.orders[o].retryCount == db.orders[o].retryCount;
    CrashRecovery.FreshDecision(settings, claimed, o, t, now);
    DecisionOutcome(settings, claimed, o, t, now);
    hide StoreOk, FinishClaim, OutcomeOf, RecheckDecision, ViewAt, MadeAt, FinishEffect;
    FinishKeeps(settings, claimed, o, t, decision, wall, |claimed.audit|, now);
    var db' := FinishClaim(settings, claimed, o, t, decision, wall).0;
    EffectOutcome(settings, claimed, db', o, t, OutcomeOf(view));
  }

  lemma DecisionOutcome(settings: Settings, db: Db, o: string, token: nat, now: int)
    requires StoreOk(settings, db)
    requires !Text.Blank(o)
    ensures RecheckDecision(o, token, ViewOf(db, o), now, settings.recheckDelay).action ==
            ActionFor(OutcomeOf(ViewAt(db.audit, o)))
  {
    StoreOrder(settings, db, o);
    ReadsReplay(settings, db, o);
    NoViewIsEmptyView(settings, db, o, token, now);
    RecheckOutcome(o, AuditIds.RecheckId(o, token), ViewAt(db.audit, o), now, settings.recheckDelay);
    hide StoreOk, OrderOk, EvaluateRecheck, OutcomeOf, ViewAt;
  }

  lemma EffectOutcome(settings: Settings, db: Db, db': Db, o: string, token: nat, outcome: Option<ReconStatus>)
    requires FinishEffect(settings, db, db', o, token, ActionFor(outcome))
    requires outcome in {None, Some(ResolvedAutocorrected), Some(ResolvedNaturally), Some(Disputed),
                         Some(PendingRecheck)}
    ensures EventsOf(db'.audit, o) == EventsOf(db.audit, o)
    ensures var row, row' := db.orders[o], db'.orders[o];
            if outcome.Some? && outcome != Some(PendingRecheck) then Some(row'.status) == outcome
            else row'.retryCount == row.retryCount + 1 &&
                 row'.status == if row.retryCount + 1 >= settings.maxRetries then DeadLetter else PendingRecheck
  {
    AuditAppend(db.audit, db'.audit[|db.audit|], o);
  }

  lemma {:induction false} DriveOutcome(settings: Settings, db: Db, o: string, times: seq<(int, int)>)
    requires StoreOk(settings, db)
    requires !Text.Blank(o)
    requires o in db.orders && db.orders[o].status == PendingRecheck
    requires |times| + db.orders[o].retryCount >= settings.maxRetries
    ensures var db', outcome := DriveRechecks(settings, db, o, times), OutcomeOf(ViewAt(db.audit, o));
            && StoreOk(settings, db')
            && o in db'.orders
            && db'.orders[o].status ==
                 if outcome.Some? && outcome != Some(PendingRecheck) then outcome.value else DeadLetter
    decreases |times|
  {
    StoreOrder(settings, db, o);
    hide StoreOk, ResolveOrder, OutcomeOf;
    var next := ResolveOrder(settings, db, o, times[0].0, times[0].1);
    ResolveOutcome(settings, db, o, times[0].0, times[0].1);
    if next.orders[o].status == PendingRecheck {
      DriveOutcome(settings, next, o, times[1..]);
    }
  }

  // ------------------------------------------------------------------
  // Refinement
  // ------------------------------------------------------------------

  /** Where the worker rests when the tool ends in `t`. */
  function RestingPlace(t: Option<ReconStatus>): Option<ReconStatus> {
    if t == Some(PendingRecheck) then Some(DeadLetter) else t
  }

  /** For any events of one order, run through the store and then rechecked until the order
      is no longer pending: no pointer if the tool has none, DEAD_LETTER if the tool leaves
      it pending, and the tool's own status otherwise; for every retry budget. */
  lemma ToolRefinesWorker(settings: Settings, db: Db, orderId: string, events: seq<Event>, nows: seq<int>,
                          times: seq<(int, int)>, toolNow: int)
    requires |nows| == |events|
    requires StoreOk(settings, db)
    requires orderId !in db.views && !Text.Blank(orderId)
    requires FreshEvents(db, orderId, events)
    requires |times| >= settings.maxRetries
    ensures var rest := DriveRechecks(settings, Consume(settings, db, events, nows), orderId, times);
            && StoreOk(settings, rest)
            && StatusOf(RowOf(rest, orderId)) ==
               RestingPlace(ToolStatus(orderId, events, toolNow, settings.recheckDelay))
  {
    hide StoreOk, ToolFold, ToolRecheck, Consume, Logged, Mirrors, DriveRechecks, RestingPlace, FreshEvents,
         Text.Blank;
    var consumed, c := Consume(settings, db, events, nows), ToolFold(events, toolNow, settings.recheckDelay);
    ConsumeMirrors(settings, db, orderId, events, nows, toolNow);
    RefinesFrom(settings, consumed, orderId, c, times, toolNow);
  }

  lemma RefinesFrom(settings: Settings, db: Db, orderId: string, c: Carried, times: seq<(int, int)>, toolNow: int)
    requires StoreOk(settings, db)
    requires !Text.Blank(orderId)
    requires Mirrors(db, orderId, c)
    requires |times| >= settings.maxRetries
    ensures var rest := DriveRechecks(settings, db, orderId, times);
            && StoreOk(settings, rest)
            && StatusOf(RowOf(rest, orderId)) ==
               RestingPlace(ToolRecheck(orderId, c, toolNow, settings.recheckDelay).status)
  {
    hide StoreOk, OutcomeOf, ResolveOrder;
    if c.status == Some(PendingRecheck) {
      MirroredView(db, orderId, c);
      ToolRecheckOutcome(orderId, c, toolNow, settings.recheckDelay);
      DriveOutcome(settings, db, orderId, times);
      hide ToolRecheck, DriveRechecks, LoggedView, ViewAt, ViewIn;
    }
  }

  lemma MirroredView(db: Db, orderId: string, c: Carried)
    requires Mirrors(db, orderId, c)
    ensures ViewAt(db.audit, orderId) == ViewIn(orderId, c)
  {
  }

  function ViewIn(orderId: string, c: Carried): OrderView {
    if c.view.Some? then c.view.value else EmptyView(orderId)
  }

  lemma ToolRecheckOutcome(orderId: string, c: Carried, now: int, delay: int)
    requires !Text.Blank(orderId)
    requires c.status == Some(PendingRecheck)
    ensures var outcome := OutcomeOf(ViewIn(orderId, c));
            ToolRecheck(orderId, c, now, delay).status ==
            if outcome.Some? then outcome else Some(PendingRecheck)
  {
    RecheckOutcome(orderId, StatelessId(orderId), ViewIn(orderId, c), now + delay, delay);
    hide Engine.Evaluate, OutcomeOf;
  }
}
