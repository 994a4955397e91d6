/** The components are the protocol: what a consumer, a recheck runner or a sweep does in one
call is a run of protocol steps, so whatever holds of every run holds of them. */
module Components {
  import opened Models
  import opened Tables
  import opened Recheck
  import opened Sweep
  import opened LogFacts
  import opened Protocol
  import opened ProtocolInvariant
  import opened Consumer
  import opened Normalize
  import AuditIds
  import CrashRecovery
  import Engine
  import RunTheorems
  import StoreInvariant

  // ------------------------------------------------------------------
  // Runs compose
  // ------------------------------------------------------------------

  lemma {:induction false} RunAppend(settings: Settings, s: Sys, first: seq<Step>, second: seq<Step>)
    ensures Run(settings, s, first + second) == Run(settings, Run(settings, s, first), second)
  {
    hide Do;
    if second == [] {
      assert first + second == first;
    } else {
      var n := |second| - 1;
      RunAppend(settings, s, first, second[..n]);
      assert (first + second)[..|first + second| - 1] == first + second[..n];
    }
  }

  lemma RunOne(settings: Settings, s: Sys, a: Step)
    ensures Run(settings, s, [a]) == Do(settings, s, a)
  {
    hide Do;
    assert [a][..0] == [];
    assert Run(settings, s, []) == s;
  }

  lemma RunThree(settings: Settings, s: Sys, a: Step, b: Step, c: Step)
    ensures Run(settings, s, [a, b, c]) == Do(settings, Do(settings, Do(settings, s, a), b), c)
  {
    hide Do;
    RunOne(settings, s, a);
    RunAppend(settings, s, [a], [b]);
    RunOne(settings, Do(settings, s, a), b);
    RunAppend(settings, s, [a, b], [c]);
    RunOne(settings, Do(settings, Do(settings, s, a), b), c);
    assert [a] + [b] == [a, b] && [a, b] + [c] == [a, b, c];
  }

  // ------------------------------------------------------------------
  // The consumer
  // ------------------------------------------------------------------

  function HandlingSteps(m: Message, now: int): seq<Step> {
    var event := EventOf(m, now);
    if Raises(m) then []
    else if event.None? then
      var item := MalformedReviewOf(m);
      [FileMalformed(item.orderId, item.eventId.value)]
    else
      [Deliver(event.value, now), Commit(event.value.orderId), MarkSeen(event.value.orderId)]
  }

  /** The provider uses none of the worker's own ids. */
  predicate ForeignId(m: Message, now: int) {
    var event := EventOf(m, now);
    if event.None? then !AuditIds.IsSystemId(MalformedReviewOf(m).eventId.value)
    else !AuditIds.IsSystemId(event.value.eventId)
  }

  /** Handling one message, no other message of its order being in flight, is a run: the
      tables and the pre-filter end as they do there, and nothing else is touched. */
  lemma HandlingIsARun(settings: Settings, s: Sys, m: Message, now: int, scores: map<string, int>)
    requires ForeignId(m, now)
    requires EventOf(m, now).Some? ==> EventOf(m, now).value.orderId !in s.consumers
    ensures var s' := Run(settings, s, HandlingSteps(m, now));
            var w := Handle(settings, WorkerState(s.db, s.seen, scores), m, now);
            s' == Sys(w.db, s.consumers, s.agents, w.seen)
  {
    var event := EventOf(m, now);
    if Raises(m) {
      assert Run(settings, s, []) == s;
    } else if event.None? {
      hide EventOf, MalformedReviewOf;
      var item := MalformedReviewOf(m);
      MalformedItem(m);
      RunOne(settings, s, FileMalformed(item.orderId, item.eventId.value));
    } else {
      var e := event.value;
      NormalizedIsOk(m.body.json, now);
      hide EventOf, Run;
      RunThree(settings, s, Deliver(e, now), Commit(e.orderId), MarkSeen(e.orderId));
      HandledEvent(settings, s, e, now, scores);
      hide Do, HandleEvent, EventOk;
    }
  }

  lemma MalformedItem(m: Message)
    ensures var item := MalformedReviewOf(m);
            item.eventId.Some? && item == ReviewItem(item.orderId, MalformedReview, item.eventId, None)
  {
  }

  lemma HandledEvent(settings: Settings, s: Sys, e: Event, now: int, scores: map<string, int>)
    requires EventOk(e) && e.orderId !in s.consumers
    ensures var read := Do(settings, s, Deliver(e, now));
            var s' := Do(settings, Do(settings, read, Commit(e.orderId)), MarkSeen(e.orderId));
            var w := HandleEvent(settings, WorkerState(s.db, s.seen, scores), e, now);
            s' == Sys(w.db, s.consumers, s.agents, w.seen)
  {
    hide EventOk, Apply, Engine.EvaluateAgainst;
    assert s.consumers - {e.orderId} == s.consumers;
    if e.eventId !in s.seen {
      var c := ReadAndEvaluate(settings, s.db, e, now);
      assert s.consumers[e.orderId := c][e.orderId := Committed(e)] - {e.orderId} == s.consumers;
    }
  }

  // ------------------------------------------------------------------
  // The recheck runner and the sweeps
  // ------------------------------------------------------------------

  function ResolvingSteps(agent: nat, orderId: string, now: int, wall: int): seq<Step> {
    [ClaimOrder(agent, orderId), ReadOrder(agent, now), Finish(agent, wall)]
  }

  /** Resolving one order, by an agent not otherwise engaged, is a run. */
  lemma ResolvingIsARun(settings: Settings, s: Sys, agent: nat, orderId: string, now: int, wall: int)
    requires agent !in s.agents
    ensures Run(settings, s, ResolvingSteps(agent, orderId, now, wall)) ==
            s.(db := ResolveOrder(settings, s.db, orderId, now, wall))
  {
    RunThree(settings, s, ClaimOrder(agent, orderId), ReadOrder(agent, now), Finish(agent, wall));
    hide Run, FinishClaim, RecheckDecision;
    var (claimed, token) := ClaimRecheck(s.db, orderId);
    assert s.agents - {agent} == s.agents;
    if token.Some? {
      var d := RecheckDecision(orderId, token.value, ViewOf(claimed, orderId), now, settings.recheckDelay);
      var busy := s.agents[agent := Claimed(orderId, token.value)]
                           [agent := Resolving(orderId, token.value, now, |claimed.audit|, d)];
      assert busy - {agent} == s.agents;
    }
  }

  function DrivingSteps(agent: nat, orderIds: seq<string>, now: int, wall: string -> int): seq<Step> {
    if orderIds == [] then []
    else
      var n := |orderIds| - 1;
      DrivingSteps(agent, orderIds[..n], now, wall) + ResolvingSteps(agent, orderIds[n], now, wall(orderIds[n]))
  }

  lemma {:induction false} DrivingIsARun(settings: Settings, s: Sys, agent: nat, orderIds: seq<string>, now: int,
                                         wall: string -> int)
    requires agent !in s.agents
    ensures Run(settings, s, DrivingSteps(agent, orderIds, now, wall)) ==
            s.(db := ResolveEach(settings, s.db, orderIds, now, wall))
  {
    hide Do, ResolveOrder, ResolvingSteps;
    if orderIds != [] {
      var n := |orderIds| - 1;
      DrivingIsARun(settings, s, agent, orderIds[..n], now, wall);
      RunAppend(settings, s, DrivingSteps(agent, orderIds[..n], now, wall),
                ResolvingSteps(agent, orderIds[n], now, wall(orderIds[n])));
      ResolvingIsARun(settings, s.(db := ResolveEach(settings, s.db, orderIds[..n], now, wall)), agent, orderIds[n],
                      now, wall(orderIds[n]));
    } else {
      assert Run(settings, s, []) == s;
    }
  }

  /** One pass of the sweep service is a run: one reclaim, then each orphan in turn. */
  lemma SweepPassIsARun(settings: Settings, s: Sys, agent: nat, stuck: seq<string>, orphans: seq<string>, now: int,
                        wall: string -> int)
    requires agent !in s.agents
    requires ListsStuck(settings, s.db, stuck)
    ensures Run(settings, s, [ReclaimStuck(stuck)] + DrivingSteps(agent, orphans, now, wall)) ==
            s.(db := SweepPass(settings, s.db, stuck, orphans, now, wall))
  {
    assert forall o | o in stuck :: o in s.db.orders;
    hide ListsStuck, StuckSweep, Run, ResolveEach, DrivingSteps;
    RunAppend(settings, s, [ReclaimStuck(stuck)], DrivingSteps(agent, orphans, now, wall));
    RunOne(settings, s, ReclaimStuck(stuck));
    DrivingIsARun(settings, s.(db := StuckSweep(settings, s.db, stuck)), agent, orphans, now, wall);
  }

  // ------------------------------------------------------------------
  // Recovery from any run
  // ------------------------------------------------------------------

  /** Stop every worker after any run whatever; `maxRetries` passes of the sweep service, each
      given time enough and a limit no smaller than the orders there are, settle every order
      and move none that was settled. */
  lemma AnyRunRecovers(settings: Settings, steps: seq<Step>, limit: nat, passes: seq<CrashRecovery.Pass>, db: Db)
    requires settings.maxRetries >= 1
    requires |RunTheorems.Reached(settings, steps).orders.Keys| <= limit
    requires CrashRecovery.Recovers(settings, RunTheorems.Reached(settings, steps), limit, passes, db)
    requires |passes| >= settings.maxRetries
    ensures var crashed := RunTheorems.Reached(settings, steps);
            && db.orders.Keys == crashed.orders.Keys
            && (forall o | o in db.orders :: IsTerminal(db.orders[o].status))
            && (forall o | o in crashed.orders && IsTerminal(crashed.orders[o].status) ::
                  db.orders[o] == crashed.orders[o])
  {
    RunTheorems.ReachedOk(settings, steps);
    hide Run, CrashRecovery.Recovers, StoreInvariant.StoreOk;
    CrashRecovery.RecoveryTerminates(settings, RunTheorems.Reached(settings, steps), limit, passes, db);
  }
}
