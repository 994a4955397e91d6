/** Redelivered messages, crashes before the offset commit, and a pre-filter that may
forget: none of it shows in the tables. */
module Duplicates {
  import opened Models
  import opened Tables
  import opened Recheck
  import opened Sweep
  import opened LogFacts
  import opened StoreInvariant
  import opened ConsumerSteps
  import opened Protocol
  import opened ProtocolInvariant

  /** A delivery that changes nothing: it is not taken up, or its event is already logged. */
  predicate Redundant(s: Sys, step: Step) {
    step.Deliver? && (!Delivers(s, step.event) || Logged(s.db.audit, step.event.eventId))
  }

  /** The run with every redundant delivery removed. */
  function Deduplicated(settings: Settings, steps: seq<Step>): seq<Step> {
    if steps == [] then []
    else
      var n := |steps| - 1;
      var before := Deduplicated(settings, steps[..n]);
      if Redundant(Run(settings, INITIAL, steps[..n]), steps[n]) then before else before + [steps[n]]
  }

  /** `t` is `s` without the consumers that are busy with an event already logged. */
  predicate Shadows(s: Sys, t: Sys) {
    && t.db == s.db
    && t.agents == s.agents
    && (forall o | o in t.consumers :: o in s.consumers && t.consumers[o] == s.consumers[o])
    && (forall o | o in s.consumers && o !in t.consumers :: Logged(s.db.audit, s.consumers[o].event.eventId))
  }

  lemma LoggedAfter(settings: Settings, s: Sys, step: Step, id: string)
    requires Logged(s.db.audit, id)
    ensures Logged(Do(settings, s, step).db.audit, id)
  {
    StepExtendsLog(settings, s, step);
    LoggedPersists(s.db, Do(settings, s, step).db, id);
  }

  lemma StepExtendsLog(settings: Settings, s: Sys, step: Step)
    ensures s.db.audit <= Do(settings, s, step).db.audit
  {
    match step
    case Commit(o) =>
      if o in s.consumers && s.consumers[o].Evaluated? {
        var c := s.consumers[o];
        ApplyExtendsLog(s.db, c.event, c.evaluation.decision, c.evaluation.view, c.prior);
      }
    case Finish(a, wall) =>
      if a in s.agents && s.agents[a].Resolving? {
        var g := s.agents[a];
        FinishExtendsLog(settings, s.db, g.orderId, g.token, g.decision, wall);
      }
    case ReclaimStuck(orderIds) =>
      if ListsStuck(settings, s.db, orderIds) {
        ReclaimsExtendLog(settings, s.db, orderIds);
      }
    case _ =>
  }

  lemma ApplyExtendsLog(db: Db, event: Event, d: Decision, view: OrderView, prior: Option<Row>)
    ensures db.audit <= Apply(db, event, d, view, prior).0.audit
  {
  }

  lemma FinishExtendsLog(settings: Settings, db: Db, o: string, token: nat, d: Decision, wall: int)
    ensures db.audit <= FinishClaim(settings, db, o, token, d, wall).0.audit
  {
  }

  lemma {:induction false} ReclaimsExtendLog(settings: Settings, db: Db, orderIds: seq<string>)
    requires forall o | o in orderIds :: o in db.orders
    ensures db.audit <= ReclaimEach(settings, db, orderIds).audit
  {
    if orderIds != [] {
      ReclaimsExtendLog(settings, db, orderIds[..|orderIds| - 1]);
    }
  }

  /** The commit of an event already logged leaves the tables as they are. */
  lemma LoggedCommitIsVoid(settings: Settings, s: Sys, o: string)
    requires Inv(settings, s)
    requires o in s.consumers && Logged(s.db.audit, s.consumers[o].event.eventId)
    ensures Do(settings, s, Commit(o)).db == s.db
  {
    if s.consumers[o].Evaluated? {
      var c := s.consumers[o];
      ConsumerFacts(settings, s.db, c.event, c.prior, c.now, c.evaluation);
    }
  }

  lemma RedundantStep(settings: Settings, s: Sys, t: Sys, step: Step)
    requires Inv(settings, s)
    requires Shadows(s, t)
    requires Redundant(s, step)
    ensures Shadows(Do(settings, s, step), t)
  {
  }

  lemma DeliverShadows(settings: Settings, s: Sys, t: Sys, event: Event, now: int)
    requires Inv(settings, s) && Inv(settings, t)
    requires Shadows(s, t)
    requires !Redundant(s, Deliver(event, now))
    ensures Shadows(Do(settings, s, Deliver(event, now)), Do(settings, t, Deliver(event, now)))
  {
    hide StoreOk, InFlightOk, AgentOk, ReadAndEvaluate;
  }

  lemma CommitShadows(settings: Settings, s: Sys, t: Sys, o: string)
    requires Inv(settings, s)
    requires Shadows(s, t)
    ensures Shadows(Do(settings, s, Commit(o)), Do(settings, t, Commit(o)))
  {
    hide Inv, CommitInFlight;
    if o in s.consumers {
      forall p | p in s.consumers && p !in t.consumers
        ensures Logged(Do(settings, s, Commit(o)).db.audit, s.consumers[p].event.eventId) {
        LoggedAfter(settings, s, Commit(o), s.consumers[p].event.eventId);
      }
      if o !in t.consumers {
        LoggedCommitIsVoid(settings, s, o);
      }
    }
  }

  lemma MarkSeenShadows(settings: Settings, s: Sys, t: Sys, o: string)
    requires Shadows(s, t)
    ensures Shadows(Do(settings, s, MarkSeen(o)), Do(settings, t, MarkSeen(o)))
  {
  }

  lemma OtherStepShadows(settings: Settings, s: Sys, t: Sys, step: Step)
    requires Shadows(s, t)
    requires !step.Deliver? && !step.Commit? && !step.MarkSeen?
    ensures Shadows(Do(settings, s, step), Do(settings, t, step))
  {
    var s' := Do(settings, s, step);
    forall p | p in s.consumers && p !in t.consumers
      ensures Logged(s'.db.audit, s.consumers[p].event.eventId) {
      LoggedAfter(settings, s, step, s.consumers[p].event.eventId);
    }
  }

  /** Any run, with at-least-once redelivery, lost consumers and lost pre-filter keys,
      reaches the same tables as the run with its redundant deliveries removed. */
  lemma {:induction false} DuplicatesAreAbsorbed(settings: Settings, steps: seq<Step>)
    requires settings.maxRetries >= 1
    ensures Shadows(Run(settings, INITIAL, steps), Run(settings, INITIAL, Deduplicated(settings, steps)))
    ensures Run(settings, INITIAL, steps).db == Run(settings, INITIAL, Deduplicated(settings, steps)).db
  {
    hide Do, Inv, Redundant;
    if steps != [] {
      var n := |steps| - 1;
      var s, kept := Run(settings, INITIAL, steps[..n]), Deduplicated(settings, steps[..n]);
      var t, step := Run(settings, INITIAL, kept), steps[n];
      DuplicatesAreAbsorbed(settings, steps[..n]);
      InitialInv(settings);
      RunKeeps(settings, INITIAL, steps[..n]);
      RunKeeps(settings, INITIAL, kept);
      if Redundant(s, step) {
        RedundantStep(settings, s, t, step);
      } else {
        assert (kept + [step])[..|kept|] == kept;
        match step {
          case Deliver(event, now) => DeliverShadows(settings, s, t, event, now);
          case Commit(o) => CommitShadows(settings, s, t, o);
          case MarkSeen(o) => MarkSeenShadows(settings, s, t, o);
          case _ => OtherStepShadows(settings, s, t, step);
        }
      }
    }
  }

  /** What remains delivers no event that is already logged, and drops nothing but
      deliveries. */
  lemma {:induction false} DeduplicatedDeliversOnlyNews(settings: Settings, steps: seq<Step>)
    requires settings.maxRetries >= 1
    ensures var kept := Deduplicated(settings, steps);
            forall i | 0 <= i < |kept| && kept[i].Deliver? ::
              !Logged(Run(settings, INITIAL, kept[..i]).db.audit, kept[i].event.eventId)
  {
    if steps != [] {
      var n := |steps| - 1;
      var before, kept := Deduplicated(settings, steps[..n]), Deduplicated(settings, steps);
      DeduplicatedDeliversOnlyNews(settings, steps[..n]);
      DuplicatesAreAbsorbed(settings, steps[..n]);
      forall i | 0 <= i < |kept| && kept[i].Deliver?
        ensures !Logged(Run(settings, INITIAL, kept[..i]).db.audit, kept[i].event.eventId)
      {
        if i < |before| {
          assert kept[..i] == before[..i];
        } else {
          assert kept[..i] == before;
        }
      }
    }
  }
}
