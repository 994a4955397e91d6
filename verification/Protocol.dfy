/** The whole system as a state machine: the tables, the consumers, any number of
recheck agents, and the pre-filter, every transaction being one step.

A consumer's transaction is split into its reads and its writes, and a recheck into its
claim, its read and its finish, so anything may run in between. Any participant may be
lost between two steps. A step that is not possible leaves the state as it is, so every
sequence of steps is a run.
 */
module Protocol {
  import opened Models
  import opened Tables
  import opened Recheck
  import opened Sweep
  import opened LogFacts
  import AuditIds
  import Engine

  /** A consumer between its read and its write, or after its commit. */
  datatype InFlight =
    | Evaluated(event: Event, prior: Option<Row>, now: int, evaluation: Evaluation)
    | Committed(event: Event)

  /** A recheck agent between its claim and its finish. `logLength` is the length of the
      log it read. */
  datatype Agent =
    | Claimed(orderId: string, token: nat)
    | Resolving(orderId: string, token: nat, now: int, logLength: nat, decision: Decision)

  /** `consumers` holds at most one message per order: the topic is keyed by order id. */
  datatype Sys = Sys(db: Db, consumers: map<string, InFlight>, agents: map<nat, Agent>, seen: set<string>)

  datatype Step =
    | Deliver(event: Event, now: int)
    | Commit(orderId: string)
    | MarkSeen(orderId: string)
    | LoseConsumer(orderId: string)
    | LoseKey(eventId: string)
    | FileMalformed(about: Option<string>, eventId: string)
    | ClaimOrder(agent: nat, orderId: string)
    | ReadOrder(agent: nat, now: int)
    | Finish(agent: nat, wall: int)
    | LoseAgent(agent: nat)
    | ReclaimStuck(orderIds: seq<string>)
    | Tick(seconds: nat)

  const INITIAL := Sys(EMPTY_DB, map[], map[], {})

  predicate Delivers(s: Sys, event: Event) {
    EventOk(event) && event.orderId !in s.consumers && event.eventId !in s.seen
  }

  /** The consumer's read and evaluation. */
  function ReadAndEvaluate(settings: Settings, db: Db, event: Event, now: int): InFlight {
    var prior := RowOf(db, event.orderId);
    Evaluated(event, prior, now,
              Engine.EvaluateAgainst(event, ViewOf(db, event.orderId), StatusOf(prior), now,
                                     settings.recheckDelay))
  }

  /** The consumer's write. */
  function CommitInFlight(db: Db, c: InFlight): Db
    requires c.Evaluated?
  {
    Apply(db, c.event, c.evaluation.decision, c.evaluation.view, c.prior).0
  }

  /** reconcile_event: read, evaluate and apply with nothing in between. */
  function ReconcileEvent(settings: Settings, db: Db, event: Event, now: int): Db {
    CommitInFlight(db, ReadAndEvaluate(settings, db, event, now))
  }

  function Do(settings: Settings, s: Sys, step: Step): Sys {
    match step
    case Deliver(event, now) =>
      if Delivers(s, event)
      then s.(consumers := s.consumers[event.orderId := ReadAndEvaluate(settings, s.db, event, now)])
      else s
    case Commit(o) =>
      if o in s.consumers && s.consumers[o].Evaluated?
      then s.(db := CommitInFlight(s.db, s.consumers[o]),
              consumers := s.consumers[o := Committed(s.consumers[o].event)])
      else s
    case MarkSeen(o) =>
      if o in s.consumers && s.consumers[o].Committed?
      then s.(seen := s.seen + {s.consumers[o].event.eventId}, consumers := s.consumers - {o})
      else s
    case LoseConsumer(o) => s.(consumers := s.consumers - {o})
    case LoseKey(id) => s.(seen := s.seen - {id})
    case FileMalformed(o, id) =>
      if AuditIds.IsSystemId(id) then s
      else s.(db := EnqueueReview(s.db, ReviewItem(o, MalformedReview, Some(id), None)))
    case ClaimOrder(a, o) =>
      var (db, token) := ClaimRecheck(s.db, o);
      if a !in s.agents && token.Some?
      then s.(db := db, agents := s.agents[a := Claimed(o, token.value)])
      else s
    case ReadOrder(a, now) =>
      if a in s.agents && s.agents[a].Claimed? then
        var o, token := s.agents[a].orderId, s.agents[a].token;
        var decision := RecheckDecision(o, token, ViewOf(s.db, o), now, settings.recheckDelay);
        s.(agents := s.agents[a := Resolving(o, token, now, |s.db.audit|, decision)])
      else s
    case Finish(a, wall) =>
      if a in s.agents && s.agents[a].Resolving? then
        var g := s.agents[a];
        s.(db := FinishClaim(settings, s.db, g.orderId, g.token, g.decision, wall).0, agents := s.agents - {a})
      else s
    case LoseAgent(a) => s.(agents := s.agents - {a})
    case ReclaimStuck(orderIds) =>
      if ListsStuck(settings, s.db, orderIds) then s.(db := StuckSweep(settings, s.db, orderIds)) else s
    case Tick(seconds) => s.(db := s.db.(clock := s.db.clock + seconds))
  }

  function Run(settings: Settings, s: Sys, steps: seq<Step>): Sys {
    if steps == [] then s
    else Do(settings, Run(settings, s, steps[..|steps| - 1]), steps[|steps| - 1])
  }
}
