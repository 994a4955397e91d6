/** The inductive invariant of the protocol. */
module ProtocolInvariant {
  import opened Models
  import opened Tables
  import opened Recheck
  import opened Sweep
  import opened LogFacts
  import opened StoreInvariant
  import opened StoreSteps
  import opened ConsumerSteps
  import opened SweepSteps
  import opened Protocol
  import AuditIds
  import CrashRecovery
  import Engine

  predicate InFlightOk(settings: Settings, db: Db, o: string, c: InFlight) {
    match c
    case Evaluated(event, prior, now, evaluation) =>
      event.orderId == o && EventOk(event) && PriorOk(db, o, prior) &&
      EvaluationOk(settings, db, event, prior, now, evaluation)
    case Committed(event) => Logged(db.audit, event.eventId)
  }

  predicate AgentOk(settings: Settings, db: Db, g: Agent) {
    match g
    case Claimed(o, token) => Granted(db, o, token)
    case Resolving(o, token, now, n, decision) => MadeAt(settings, db, o, token, decision, n, now)
  }

  ghost predicate Inv(settings: Settings, s: Sys) {
    && StoreOk(settings, s.db)
    && (forall o | o in s.consumers :: InFlightOk(settings, s.db, o, s.consumers[o]))
    && (forall a | a in s.agents :: AgentOk(settings, s.db, s.agents[a]))
    && (forall id | id in s.seen :: Logged(s.db.audit, id))
  }

  /** How the tables may move while others watch: log and claims only grow, a changed row
      carries a new stamp, and only order `p` may gain events or a first row. */
  predicate Grows(db: Db, db': Db, p: Option<string>) {
    && db.audit <= db'.audit
    && db.claims <= db'.claims
    && db.clock <= db'.clock
    && (forall o | o in db.orders ::
          o in db'.orders && (db'.orders[o] == db.orders[o] || db'.orders[o].updatedAt >= db.clock))
    && (forall o | o in db'.orders :: o in db.orders || p == Some(o))
  }

  ghost predicate SameEvents(db: Db, db': Db, p: Option<string>) {
    forall o | p != Some(o) :: EventsOf(db'.audit, o) == EventsOf(db.audit, o)
  }

  lemma LoggedPersists(db: Db, db': Db, id: string)
    requires db.audit <= db'.audit && Logged(db.audit, id)
    ensures Logged(db'.audit, id)
  {
    var i :| 0 <= i < |db.audit| && db.audit[i].entry.eventId == id;
    assert db'.audit[i] == db.audit[i];
  }

  lemma WatchersKeep(settings: Settings, db: Db, db': Db, p: Option<string>)
    requires Grows(db, db', p) && SameEvents(db, db', p)
    ensures forall o, c | p != Some(o) && InFlightOk(settings, db, o, c) :: InFlightOk(settings, db', o, c)
    ensures forall g | AgentOk(settings, db, g) :: AgentOk(settings, db', g)
    ensures forall id | Logged(db.audit, id) :: Logged(db'.audit, id)
  {
    forall id | Logged(db.audit, id) ensures Logged(db'.audit, id) {
      LoggedPersists(db, db', id);
    }
    forall g | AgentOk(settings, db, g) ensures AgentOk(settings, db', g) {
      if g.Resolving? { assert db'.audit[..g.logLength] == db.audit[..g.logLength]; }
    }
    forall o, c | p != Some(o) && InFlightOk(settings, db, o, c) ensures InFlightOk(settings, db', o, c) {
      if c.Evaluated? {
        assert LoggedView(db'.audit, o) == LoggedView(db.audit, o);
      }
    }
  }

  /** A step that changes the tables but none of the watchers. */
  lemma DbStepKeeps(settings: Settings, s: Sys, db': Db)
    requires Inv(settings, s)
    requires StoreOk(settings, db')
    requires Grows(s.db, db', None) && SameEvents(s.db, db', None)
    ensures Inv(settings, s.(db := db'))
  {
    WatchersKeep(settings, s.db, db', None);
  }

  lemma DeliveredOk(settings: Settings, db: Db, event: Event, now: int)
    requires StoreOk(settings, db) && EventOk(event)
    ensures InFlightOk(settings, db, event.orderId, ReadAndEvaluate(settings, db, event, now))
  {
    StoreOrder(settings, db, event.orderId);
    ReadsReplay(settings, db, event.orderId);
    UpdatesAreStamped(settings, db, event.orderId);
    hide StoreOk, OrderOk, Engine.EvaluateAgainst;
  }

  lemma UpdatesAreStamped(settings: Settings, db: Db, o: string)
    requires StoreOk(settings, db)
    ensures PriorOk(db, o, RowOf(db, o))
  {
    hide OrderOk;
  }

  lemma DeliverKeeps(settings: Settings, s: Sys, event: Event, now: int)
    requires Inv(settings, s)
    ensures Inv(settings, Do(settings, s, Deliver(event, now)))
  {
    if Delivers(s, event) {
      DeliveredOk(settings, s.db, event, now);
      hide StoreOk, InFlightOk, AgentOk, ReadAndEvaluate;
    }
  }

  lemma CommitKeeps(settings: Settings, s: Sys, o: string)
    requires Inv(settings, s)
    ensures Inv(settings, Do(settings, s, Commit(o)))
  {
    hide StoreOk, Apply, ApplyEffect, EvaluationOk, PriorOk, AgentOk, Grows, SameEvents;
    if o in s.consumers && s.consumers[o].Evaluated? {
      var c := s.consumers[o];
      var db' := CommitInFlight(s.db, c);
      ApplyKeeps(settings, s.db, c.event, c.prior, c.now, c.evaluation);
      if Logged(s.db.audit, c.event.eventId) {
        Unmoved(s.db, Some(o));
      } else {
        CommitGrows(s.db, db', c.event, c.evaluation.decision, c.evaluation.view);
      }
      WatchersKeep(settings, s.db, db', Some(o));
    }
  }

  lemma Unmoved(db: Db, p: Option<string>)
    ensures Grows(db, db, p) && SameEvents(db, db, p)
  {
  }

  lemma CommitGrows(db: Db, db': Db, event: Event, d: Decision, view: OrderView)
    requires ApplyEffect(db, db', event, d, view)
    ensures Grows(db, db', Some(event.orderId)) && SameEvents(db, db', Some(event.orderId))
  {
    forall o | o != event.orderId ensures EventsOf(db'.audit, o) == EventsOf(db.audit, o) {
      AuditAppend(db.audit, AuditRow(d.audit, Some(event)), o);
    }
  }

  lemma AgentJoins(settings: Settings, s: Sys, a: nat, g: Agent)
    requires Inv(settings, s) && AgentOk(settings, s.db, g)
    ensures Inv(settings, s.(agents := s.agents[a := g]))
  {
    hide StoreOk, InFlightOk, AgentOk;
  }

  lemma AgentLeaves(settings: Settings, s: Sys, a: nat)
    requires Inv(settings, s)
    ensures Inv(settings, s.(agents := s.agents - {a}))
  {
    hide StoreOk, InFlightOk, AgentOk;
  }

  lemma ClaimOrderKeeps(settings: Settings, s: Sys, a: nat, o: string)
    requires Inv(settings, s)
    ensures Inv(settings, Do(settings, s, ClaimOrder(a, o)))
  {
    var (db', token) := ClaimRecheck(s.db, o);
    if a !in s.agents && token.Some? {
      ClaimKeeps(settings, s.db, o);
      ClaimGrows(s.db, o);
      hide StoreOk, Grows, SameEvents, InFlightOk, ClaimRecheck, Inv;
      DbStepKeeps(settings, s, db');
      AgentJoins(settings, s.(db := db'), a, Claimed(o, token.value));
    }
  }

  lemma ClaimGrows(db: Db, o: string)
    requires ClaimRecheck(db, o).1.Some?
    ensures var (db', token) := ClaimRecheck(db, o);
            Grows(db, db', None) && SameEvents(db, db', None) && Granted(db', o, token.value)
  {
  }

  lemma ReadOk(settings: Settings, db: Db, o: string, token: nat, now: int)
    requires StoreOk(settings, db) && Granted(db, o, token)
    ensures AgentOk(settings, db,
                    Resolving(o, token, now, |db.audit|,
                              RecheckDecision(o, token, ViewOf(db, o), now, settings.recheckDelay)))
  {
    CrashRecovery.FreshDecision(settings, db, o, token, now);
    hide StoreOk, RecheckDecision;
  }

  lemma ReadOrderKeeps(settings: Settings, s: Sys, a: nat, now: int)
    requires Inv(settings, s)
    ensures Inv(settings, Do(settings, s, ReadOrder(a, now)))
  {
    if a in s.agents && s.agents[a].Claimed? {
      var o, token := s.agents[a].orderId, s.agents[a].token;
      assert AgentOk(settings, s.db, s.agents[a]);
      ReadOk(settings, s.db, o, token, now);
      hide Inv, RecheckDecision, AgentOk;
      AgentJoins(settings, s, a, Resolving(o, token, now, |s.db.audit|,
                                           RecheckDecision(o, token, ViewOf(s.db, o), now, settings.recheckDelay)));
    }
  }

  /** An agent's finish settles the claim it holds, or changes nothing. */
  lemma FinishStep(settings: Settings, s: Sys, a: nat, wall: int)
    requires Inv(settings, s)
    requires a in s.agents && s.agents[a].Resolving?
    ensures var g, db' := s.agents[a], Do(settings, s, Finish(a, wall)).db;
            && StoreOk(settings, db')
            && Granted(s.db, g.orderId, g.token)
            && (if HoldsClaim(s.db, g.orderId, g.token)
                then FinishEffect(settings, s.db, db', g.orderId, g.token, g.decision.action)
                else db' == s.db)
  {
    var g := s.agents[a];
    assert StoreOk(settings, s.db) && AgentOk(settings, s.db, g);
    DoFinish(settings, s, a, wall);
    hide Inv, Do, StoreOk, FinishClaim, FinishEffect, HoldsClaim, RecheckDecision;
    FinishKeeps(settings, s.db, g.orderId, g.token, g.decision, wall, g.logLength, g.now);
  }

  lemma DoFinish(settings: Settings, s: Sys, a: nat, wall: int)
    requires a in s.agents && s.agents[a].Resolving?
    ensures var g := s.agents[a];
            Do(settings, s, Finish(a, wall)).db ==
            FinishClaim(settings, s.db, g.orderId, g.token, g.decision, wall).0
  {
    hide FinishClaim;
  }

  lemma FinishGrows(settings: Settings, db: Db, db': Db, o: string, token: nat, action: Action)
    requires FinishEffect(settings, db, db', o, token, action)
    ensures Grows(db, db', None) && SameEvents(db, db', None)
  {
    forall p ensures EventsOf(db'.audit, p) == EventsOf(db.audit, p) {
      AuditAppend(db.audit, db'.audit[|db.audit|], p);
    }
  }

  lemma FinishStepKeeps(settings: Settings, s: Sys, a: nat, wall: int)
    requires Inv(settings, s)
    ensures Inv(settings, Do(settings, s, Finish(a, wall)))
  {
    if a in s.agents && s.agents[a].Resolving? {
      var g, db' := s.agents[a], Do(settings, s, Finish(a, wall)).db;
      FinishStep(settings, s, a, wall);
      if HoldsClaim(s.db, g.orderId, g.token) {
        FinishGrows(settings, s.db, db', g.orderId, g.token, g.decision.action);
      } else {
        Unmoved(s.db, None);
      }
      hide StoreOk, FinishClaim, FinishEffect, Grows, SameEvents, Inv;
      DbStepKeeps(settings, s, db');
      AgentLeaves(settings, s.(db := db'), a);
    }
  }

  lemma FileMalformedKeeps(settings: Settings, s: Sys, o: Option<string>, id: string)
    requires Inv(settings, s)
    ensures Inv(settings, Do(settings, s, FileMalformed(o, id)))
  {
    if !AuditIds.IsSystemId(id) {
      var item := ReviewItem(o, MalformedReview, Some(id), None);
      var db' := EnqueueReview(s.db, item);
      if db' != s.db {
        forall p: string ensures OrderOk(settings, db', p) {
          assert OrderOk(settings, s.db, p);
          ReviewOrderOk(settings, s.db, db', item, p);
        }
        DbStepKeeps(settings, s, db');
      }
    }
  }

  lemma ReviewOrderOk(settings: Settings, db: Db, db': Db, item: ReviewItem, p: string)
    requires OrderOk(settings, db, p)
    requires db' == db.(reviews := db.reviews + [item])
    requires item.reason == MalformedReview && item.eventId.Some? && !AuditIds.IsSystemId(item.eventId.value)
    ensures OrderOk(settings, db', p)
  {
    ReviewsAppend(db.reviews, item, p);
    forall t: nat ensures item.eventId != Some(AuditIds.RecheckId(p, t))
                  ensures Settled(db, p, t) ==> Settled(db', p, t)
                  ensures LastClaim(db, p, t) ==> LastClaim(db', p, t)
                  ensures Live(db', p, t) ==> Live(db, p, t) {
      AuditIds.SystemIds(p, t);
    }
    if p in db'.orders && db'.orders[p].status == ResolvedAutocorrected {
      var token, n :| Justified(db, p, token, n);
      assert Justified(db', p, token, n);
    }
  }

  lemma ReclaimStuckKeeps(settings: Settings, s: Sys, orderIds: seq<string>)
    requires Inv(settings, s)
    ensures Inv(settings, Do(settings, s, ReclaimStuck(orderIds)))
  {
    if ListsStuck(settings, s.db, orderIds) {
      StuckSweepKeeps(settings, s.db, orderIds);
      DbStepKeeps(settings, s, StuckSweep(settings, s.db, orderIds));
    }
  }

  lemma TickStepKeeps(settings: Settings, s: Sys, seconds: nat)
    requires Inv(settings, s)
    ensures Inv(settings, Do(settings, s, Tick(seconds)))
  {
    TickKeeps(settings, s.db, s.db.clock + seconds);
    TickGrows(s.db, seconds);
    hide StoreOk, Grows, SameEvents, Inv;
    DbStepKeeps(settings, s, s.db.(clock := s.db.clock + seconds));
  }

  lemma TickGrows(db: Db, seconds: nat)
    ensures var db' := db.(clock := db.clock + seconds); Grows(db, db', None) && SameEvents(db, db', None)
  {
  }

  lemma LossKeeps(settings: Settings, s: Sys, step: Step)
    requires Inv(settings, s)
    requires step.MarkSeen? || step.LoseConsumer? || step.LoseKey? || step.LoseAgent?
    ensures Inv(settings, Do(settings, s, step))
  {
    hide StoreOk, InFlightOk, AgentOk;
    if step.MarkSeen? && step.orderId in s.consumers && s.consumers[step.orderId].Committed? {
      assert InFlightOk(settings, s.db, step.orderId, s.consumers[step.orderId]);
      CommittedIsLogged(settings, s.db, step.orderId, s.consumers[step.orderId]);
    }
  }

  lemma CommittedIsLogged(settings: Settings, db: Db, o: string, c: InFlight)
    requires InFlightOk(settings, db, o, c) && c.Committed?
    ensures Logged(db.audit, c.event.eventId)
  {
  }

  lemma DoKeeps(settings: Settings, s: Sys, step: Step)
    requires Inv(settings, s)
    ensures Inv(settings, Do(settings, s, step))
  {
    hide Inv, Do;
    match step
    case Deliver(event, now) => DeliverKeeps(settings, s, event, now);
    case Commit(o) => CommitKeeps(settings, s, o);
    case ClaimOrder(a, o) => ClaimOrderKeeps(settings, s, a, o);
    case ReadOrder(a, now) => ReadOrderKeeps(settings, s, a, now);
    case Finish(a, wall) => FinishStepKeeps(settings, s, a, wall);
    case FileMalformed(o, id) => FileMalformedKeeps(settings, s, o, id);
    case ReclaimStuck(orderIds) => ReclaimStuckKeeps(settings, s, orderIds);
    case Tick(seconds) => TickStepKeeps(settings, s, seconds);
    case _ => LossKeeps(settings, s, step);
  }

  lemma InitialInv(settings: Settings)
    requires settings.maxRetries >= 1
    ensures Inv(settings, INITIAL)
  {
    forall o: string ensures OrderOk(settings, EMPTY_DB, o) {
    }
  }

  /** Every state of every run satisfies the invariant. */
  lemma {:induction false} RunKeeps(settings: Settings, s: Sys, steps: seq<Step>)
    requires Inv(settings, s)
    ensures Inv(settings, Run(settings, s, steps))
  {
    if steps != [] {
      RunKeeps(settings, s, steps[..|steps| - 1]);
      DoKeeps(settings, Run(settings, s, steps[..|steps| - 1]), steps[|steps| - 1]);
    }
  }
}
