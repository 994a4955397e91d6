/** The message path of the worker: normalize, pre-filter, one transaction, mark seen, push. */
module Consumer {
  import opened Models
  import opened Json
  import opened Tables
  import opened Recheck
  import opened Protocol
  import opened StateStore
  import opened DelayQueue
  import opened Idempotency
  import opened Normalize
  import AuditIds
  import Compare
  import Correlate
  import Digits
  import Duplicates
  import Engine
  import Text

  /** The bytes of a message: not text at all, text that is not JSON, or JSON. */
  datatype Body = NotText | NotJson | Parsed(json: Json)

  datatype Message = Message(topic: string, partition: nat, offset: nat, body: Body)

  /** A stable id for a message that names none. */
  function SyntheticId(m: Message): string {
    "malformed:" + m.topic + ":" + Digits.Print(m.partition) + ":" + Digits.Print(m.offset)
  }

  /** The review row a message that cannot be processed leaves. */
  function MalformedReviewOf(m: Message): ReviewItem {
    var orderId := if m.body.Parsed? then StrOrNone(Get(m.body.json, "order_id")) else None;
    var eventId := if m.body.Parsed? then StrOrNone(Get(m.body.json, "event_id")) else None;
    ReviewItem(orderId, MalformedReview, Some(if eventId.Some? then eventId.value else SyntheticId(m)), None)
  }

  function EventOf(m: Message, now: int): Option<Event> {
    if m.body.Parsed? then EnvelopeToEvent(m.body.json, now) else None
  }

  /** Messages whose handling raises: bytes that are not text, and usable envelopes whose time
      no datetime can hold. Nothing catches this; the worker stops, and the message is
      delivered again. */
  predicate Raises(m: Message) {
    m.body.NotText? ||
    (m.body.Parsed? && EnvelopeToEvent(m.body.json, 0).Some? && !TimeFits(Get(m.body.json, "occurred_at")))
  }

  /** Everything the message path reads and writes. */
  datatype WorkerState = WorkerState(db: Db, seen: set<string>, scores: map<string, int>)

  /** The queue after an event was applied: only a pointer that moved to an armed recheck is
      pushed, and never to a later deadline. */
  function Pushes(scores: map<string, int>, event: Event, d: Decision, moved: bool): map<string, int> {
    if d.action == ArmRecheck && moved && d.recheckAt.Some?
    then Pushed(scores, event.orderId, d.recheckAt.value, true) else scores
  }

  function HandleEvent(settings: Settings, w: WorkerState, event: Event, now: int): WorkerState {
    if event.eventId in w.seen then w
    else
      var c := ReadAndEvaluate(settings, w.db, event, now);
      var (db, r) := Tables.Apply(w.db, event, c.evaluation.decision, c.evaluation.view, c.prior);
      WorkerState(db, w.seen + {event.eventId},
                  Pushes(w.scores, event, c.evaluation.decision, r.pointerMoved))
  }

  function Handle(settings: Settings, w: WorkerState, m: Message, now: int): WorkerState {
    var event := EventOf(m, now);
    if Raises(m) then w
    else if event.None? then w.(db := Tables.EnqueueReview(w.db, MalformedReviewOf(m)))
    else HandleEvent(settings, w, event.value, now)
  }

  class ReconciliationWorker {
    const store: PostgresStateStore
    const filter: InMemoryIdempotencyFilter
    const queue: InMemoryDelayQueue
    const settings: Settings

    constructor (store: PostgresStateStore, filter: InMemoryIdempotencyFilter, queue: InMemoryDelayQueue,
                 settings: Settings)
      ensures this.store == store && this.filter == filter && this.queue == queue && this.settings == settings
    {
      this.store, this.filter, this.queue, this.settings := store, filter, queue, settings;
    }

    function State(): WorkerState
      reads store, filter, queue
    {
      WorkerState(store.Contents(), filter.keys, queue.scores)
    }

    /** Whether the message is done with and may be committed past. Where the
        code raises, this returns false, with nothing written. */
    method HandleMessage(m: Message, now: int) returns (commit: bool)
      modifies store, filter, queue
      ensures commit <==> !Raises(m)
      ensures State() == Handle(settings, old(State()), m, now)
    {
      hide Engine.EvaluateAgainst, Tables.Apply, Tables.EnqueueReview, MalformedReviewOf, EnvelopeToEvent;
      if Raises(m) {
        return false;
      }
      commit := true;
      var event := if m.body.Parsed? then EnvelopeToEvent(m.body.json, now) else None;
      if event.None? {
        store.EnqueueReview(MalformedReviewOf(m));
        return;
      }
      if filter.Seen(event.value.eventId) {
        return;
      }
      var evaluation, result := ReconcileEvent(event.value, now);
      filter.MarkSeen(event.value.eventId);
      if evaluation.decision.action == ArmRecheck && result.pointerMoved && evaluation.decision.recheckAt.Some? {
        queue.Push(event.value.orderId, evaluation.decision.recheckAt.value, true);
      }
    }

    /** reconcile_event: read, evaluate and apply in one transaction. */
    method ReconcileEvent(event: Event, now: int) returns (evaluation: Evaluation, result: ApplyResult)
      modifies store
      ensures var c := ReadAndEvaluate(settings, old(store.Contents()), event, now);
              && evaluation == c.evaluation
              && (store.Contents(), result) ==
                 Tables.Apply(old(store.Contents()), event, c.evaluation.decision, c.evaluation.view, c.prior)
      ensures store.Contents() == Protocol.ReconcileEvent(settings, old(store.Contents()), event, now)
    {
      hide Engine.EvaluateAgainst, Tables.Apply;
      var row, view := store.ReadState(event.orderId);
      evaluation := Engine.EvaluateAgainst(event, view, StatusOf(row), now, settings.recheckDelay);
      result := store.Apply(event, evaluation.decision, evaluation.view, row);
    }
  }

  // ------------------------------------------------------------------
  // At-least-once delivery
  // ------------------------------------------------------------------

  lemma AuditCarriesEventId(event: Event, view: Option<OrderView>, status: Option<ReconStatus>, now: int, delay: int)
    ensures Engine.EvaluateAgainst(event, view, status, now, delay).decision.audit.eventId == event.eventId
  {
    hide Correlate.Correlate, Compare.Assess;
  }

  lemma AppliedIsLogged(db: Db, event: Event, d: Decision, view: OrderView, prior: Option<Row>)
    ensures Logged(Tables.Apply(db, event, d, view, prior).0.audit, d.audit.eventId)
  {
    var audit := db.audit + [AuditRow(d.audit, Some(event))];
    assert audit[|db.audit|].entry.eventId == d.audit.eventId;
  }

  lemma EnqueuedIsFiled(db: Db, item: ReviewItem)
    requires item.eventId.Some?
    ensures Filed(Tables.EnqueueReview(db, item).reviews, item.eventId)
  {
    var reviews := db.reviews + [item];
    assert reviews[|db.reviews|].eventId == item.eventId;
  }

  /** The pre-filter knows no event the log does not. */
  predicate FilterBehindLog(w: WorkerState) {
    forall id | id in w.seen :: Logged(w.db.audit, id)
  }

  lemma LoggedStays(db: Db, event: Event, d: Decision, view: OrderView, prior: Option<Row>, id: string)
    requires Logged(db.audit, id)
    ensures Logged(Tables.Apply(db, event, d, view, prior).0.audit, id)
  {
    Duplicates.ApplyExtendsLog(db, event, d, view, prior);
    hide Tables.Apply;
    var db' := Tables.Apply(db, event, d, view, prior).0;
    var i :| 0 <= i < |db.audit| && db.audit[i].entry.eventId == id;
    assert db'.audit[i] == db.audit[i];
  }

  /** Marking an event seen only after its transaction keeps the pre-filter behind the log. */
  lemma HandleKeepsFilterBehind(settings: Settings, w: WorkerState, m: Message, now: int)
    requires FilterBehindLog(w)
    ensures FilterBehindLog(Handle(settings, w, m, now))
  {
    var event := EventOf(m, now);
    if !Raises(m) && event.Some? && event.value.eventId !in w.seen {
      var e := event.value;
      var c := ReadAndEvaluate(settings, w.db, e, now);
      var d := c.evaluation.decision;
      AuditCarriesEventId(e, ViewOf(w.db, e.orderId), StatusOf(c.prior), now, settings.recheckDelay);
      hide Tables.Apply, Engine.EvaluateAgainst, EventOf, Logged;
      AppliedIsLogged(w.db, e, d, c.evaluation.view, c.prior);
      forall id | id in w.seen ensures Logged(Tables.Apply(w.db, e, d, c.evaluation.view, c.prior).0.audit, id) {
        LoggedStays(w.db, e, d, c.evaluation.view, c.prior, id);
      }
    }
  }

  /** An event the log already has is handled without effect. */
  lemma LoggedEventIsVoid(settings: Settings, w: WorkerState, event: Event, now: int)
    requires Logged(w.db.audit, event.eventId)
    ensures var after := HandleEvent(settings, w, event, now); after.db == w.db && after.scores == w.scores
  {
    var c := ReadAndEvaluate(settings, w.db, event, now);
    AuditCarriesEventId(event, ViewOf(w.db, event.orderId), StatusOf(c.prior), now, settings.recheckDelay);
    hide Engine.EvaluateAgainst;
  }

  /** Handling a message again, whenever, and whatever the pre-filter has forgotten since,
      changes no table and pushes nothing. */
  lemma RedeliveryIsVoid(settings: Settings, w: WorkerState, m: Message, now: int, later: int, seen: set<string>)
    requires FilterBehindLog(w)
    ensures var once := Handle(settings, w, m, now);
            var twice := Handle(settings, once.(seen := seen), m, later);
            twice.db == once.db && twice.scores == once.scores
  {
    var once := Handle(settings, w, m, now);
    SameEventLater(m, now, later);
    if Raises(m) {
    } else if EventOf(m, now).None? {
      EnqueuedIsFiled(w.db, MalformedReviewOf(m));
      hide EventOf, MalformedReviewOf, Filed, Raises;
      assert MalformedReviewOf(m).eventId.Some?;
    } else {
      HandledIsLogged(settings, w, m, now);
      hide HandleEvent, Logged, EventOf, Raises;
      LoggedEventIsVoid(settings, once.(seen := seen), EventOf(m, later).value, later);
    }
  }

  /** Once handled, an event is in the log. */
  lemma HandledIsLogged(settings: Settings, w: WorkerState, m: Message, now: int)
    requires FilterBehindLog(w)
    requires EventOf(m, now).Some? && !Raises(m)
    ensures Logged(Handle(settings, w, m, now).db.audit, EventOf(m, now).value.eventId)
  {
    hide EventOf, Logged, HandleEvent;
    HandleKeepsFilterBehind(settings, w, m, now);
    HandledIsSeen(settings, w, EventOf(m, now).value, now);
  }

  lemma HandledIsSeen(settings: Settings, w: WorkerState, event: Event, now: int)
    ensures event.eventId in HandleEvent(settings, w, event, now).seen
  {
  }

  lemma SameEventLater(m: Message, now: int, later: int)
    ensures EventOf(m, now).Some? <==> EventOf(m, later).Some?
    ensures EventOf(m, now).Some? ==> EventOf(m, now).value.eventId == EventOf(m, later).value.eventId
  {
  }

  // ------------------------------------------------------------------
  // Messages that cannot be processed
  // ------------------------------------------------------------------

  /** The place of a message in its topic can be read off its synthetic id, whatever the topic
      is called. */
  lemma SyntheticIdsDiffer(a: Message, b: Message)
    requires SyntheticId(a) == SyntheticId(b)
    ensures a.topic == b.topic && a.partition == b.partition && a.offset == b.offset
  {
    var x, y := a.topic + ":" + Digits.Print(a.partition), b.topic + ":" + Digits.Print(b.partition);
    assert SyntheticId(a) == "malformed:" + x + ":" + Digits.Print(a.offset);
    assert SyntheticId(b) == "malformed:" + y + ":" + Digits.Print(b.offset);
    AuditIds.SplitIsUnique("malformed:", x, a.offset, y, b.offset);
    assert "" + a.topic == a.topic && "" + b.topic == b.topic;
    AuditIds.SplitIsUnique("", a.topic, a.partition, b.topic, b.partition);
  }

  /** The text under `key` of a body that is an object with non-blank text there. */
  function Named(m: Message, key: string): Option<string> {
    match m.body
    case Parsed(JObj(members)) =>
      if key in members && members[key].JStr? && !Text.Blank(members[key].s) then Some(members[key].s) else None
    case _ => None
  }

  /** A message that yields no event goes to review once, under the event id it names or its
      own place, with the order id it names; nothing else changes. */
  lemma MalformedIsFiled(settings: Settings, w: WorkerState, m: Message, now: int)
    requires !Raises(m) && EventOf(m, now).None?
    ensures var w', named := Handle(settings, w, m, now), Named(m, "event_id");
            var id := if named.Some? then named.value else SyntheticId(m);
            w' == if Filed(w.db.reviews, Some(id)) then w
                  else w.(db := w.db.(reviews :=
                         w.db.reviews + [ReviewItem(Named(m, "order_id"), MalformedReview, Some(id), None)]))
  {
    hide EventOf, Raises, SyntheticId, Filed;
  }

  /** Two such messages that name no event are both kept. */
  lemma BothMalformedAreFiled(settings: Settings, w: WorkerState, a: Message, b: Message, now: int, later: int)
    requires !Raises(a) && EventOf(a, now).None? && Named(a, "event_id").None?
    requires !Raises(b) && EventOf(b, later).None? && Named(b, "event_id").None?
    requires (a.topic, a.partition, a.offset) != (b.topic, b.partition, b.offset)
    requires !Filed(w.db.reviews, Some(SyntheticId(a))) && !Filed(w.db.reviews, Some(SyntheticId(b)))
    ensures Handle(settings, Handle(settings, w, a, now), b, later).db.reviews ==
            w.db.reviews + [ReviewItem(Named(a, "order_id"), MalformedReview, Some(SyntheticId(a)), None)] +
            [ReviewItem(Named(b, "order_id"), MalformedReview, Some(SyntheticId(b)), None)]
  {
    if SyntheticId(a) == SyntheticId(b) { SyntheticIdsDiffer(a, b); }
    MalformedIsFiled(settings, w, a, now);
    MalformedIsFiled(settings, Handle(settings, w, a, now), b, later);
    hide Handle, EventOf, Raises, SyntheticId, Named;
  }

  /** Which messages stop the worker: bytes that are not text, or an object that names itself,
      an order and a provider, with an integer time outside the years 1 to 9999. */
  lemma RaisesIff(m: Message)
    ensures Raises(m) <==>
            || m.body.NotText?
            || (&& m.body.Parsed? && m.body.json.JObj?
                && var fields := m.body.json.members;
                && Named(m, "event_id").Some? && Named(m, "order_id").Some?
                && "source" in fields && fields["source"] in {JStr("razorpay"), JStr("merchant")}
                && "occurred_at" in fields && fields["occurred_at"].JInt?
                && !(-62_135_596_800 <= fields["occurred_at"].n <= 253_402_300_799))
  {
    if m.body.Parsed? { UsableIff(m.body.json, 0); }
    hide EnvelopeToEvent;
  }
}
