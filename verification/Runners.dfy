/** The recheck runner and the two fallback sweeps, driving one shared store and queue. */
module Runners {
  import opened Models
  import opened Tables
  import opened Recheck
  import opened Sweep
  import opened StateStore
  import opened DelayQueue
  import AuditIds
  import StoreSteps

  /** The queue after an order was resolved: re-armed at the new deadline, or dropped. */
  function Requeued(scores: map<string, int>, orderId: string, rearmAt: Option<int>): map<string, int> {
    if rearmAt.Some? then scores[orderId := rearmAt.value] else scores - {orderId}
  }

  /** The tables and the queue after resolving each listed order in turn. */
  function DriveEach(settings: Settings, db: Db, scores: map<string, int>, orderIds: seq<string>, now: int,
                     wall: string -> int): (Db, map<string, int>)
  {
    if orderIds == [] then (db, scores)
    else
      var n := |orderIds| - 1;
      var o := orderIds[n];
      var (before, queued) := DriveEach(settings, db, scores, orderIds[..n], now, wall);
      (Recheck.ResolveOrder(settings, before, o, now, wall(o)),
       Requeued(queued, o, RearmedAt(settings, before, o, now, wall(o))))
  }

  /** The order was claimed, and the finish armed it again. */
  predicate Rearmed(before: Db, after: Db, orderId: string) {
    && orderId in before.orders && before.orders[orderId].status == PendingRecheck
    && orderId in after.orders && after.orders[orderId].status == PendingRecheck
  }

  /** The deadline a finish returns is the row's, where it leaves the row pending. */
  lemma FinishReturnsDeadline(settings: Settings, db: Db, o: string, token: nat, d: Decision, wall: int)
    requires HoldsClaim(db, o, token) && StoreSteps.RecheckShape(d, o, token)
    ensures var (db', at) := FinishClaim(settings, db, o, token, d, wall);
            && o in db'.orders
            && at == if db'.orders[o].status == PendingRecheck then db'.orders[o].recheckAt else None
    ensures var db' := FinishClaim(settings, db, o, token, d, wall).0;
            o in db'.orders && db'.orders[o].status == PendingRecheck ==> db'.orders[o].recheckAt.Some?
  {
    hide AuditIds.RecheckId, Logged, Filed;
  }

  lemma RearmedAtIsTheRows(settings: Settings, db: Db, o: string, now: int, wall: int)
    ensures var db', at := Recheck.ResolveOrder(settings, db, o, now, wall), RearmedAt(settings, db, o, now, wall);
            && (at.Some? <==> Rearmed(db, db', o))
            && (at.Some? ==> o in db'.orders && db'.orders[o].recheckAt == at)
  {
    var (claimed, token) := ClaimRecheck(db, o);
    if token.Some? {
      var view := ViewOf(claimed, o);
      StoreSteps.RecheckFacts(settings, o, token.value, if view.Some? then view.value else EmptyView(o), now);
      FinishReturnsDeadline(settings, claimed, o, token.value,
                            RecheckDecision(o, token.value, view, now, settings.recheckDelay), wall);
      hide EvaluateRecheck, FinishClaim, StoreSteps.RecheckShape;
    }
  }

  /** Driving orders resolves each in turn, and leaves every other entry of the queue as it
      was. An order just driven is on the queue exactly if its claim was granted and its row
      armed again, at its row's new deadline. */
  lemma {:induction false} DrivenQueue(settings: Settings, db: Db, scores: map<string, int>, orderIds: seq<string>,
                                       now: int, wall: string -> int)
    ensures var (db', scores') := DriveEach(settings, db, scores, orderIds, now, wall);
            && db' == ResolveEach(settings, db, orderIds, now, wall)
            && (forall o | o !in orderIds :: o in scores' <==> o in scores)
            && (forall o | o !in orderIds && o in scores' :: scores'[o] == scores[o])
            && (orderIds != [] ==>
                  var last := orderIds[|orderIds| - 1];
                  var before := ResolveEach(settings, db, orderIds[..|orderIds| - 1], now, wall);
                  && (last in scores' <==> Rearmed(before, db', last))
                  && (last in scores' ==> db'.orders[last].recheckAt == Some(scores'[last])))
  {
    hide Recheck.ResolveOrder, RearmedAt, Rearmed;
    if orderIds != [] {
      var n := |orderIds| - 1;
      DrivenQueue(settings, db, scores, orderIds[..n], now, wall);
      RearmedAtIsTheRows(settings, ResolveEach(settings, db, orderIds[..n], now, wall), orderIds[n], now,
                         wall(orderIds[n]));
      assert orderIds == orderIds[..n] + [orderIds[n]];
    }
  }

  lemma ResolveLeavesOthers(settings: Settings, db: Db, o: string, now: int, wall: int, p: string)
    requires p != o
    ensures RowOf(Recheck.ResolveOrder(settings, db, o, now, wall), p) == RowOf(db, p)
  {
    hide EvaluateRecheck;
  }

  /** After driving some orders, each once, each of them is on the queue exactly if its row
      was pending before and is again, and then at the deadline of the row. */
  lemma {:induction false} QueueFollowsRows(settings: Settings, db: Db, scores: map<string, int>,
                                            orderIds: seq<string>, now: int, wall: string -> int, o: string)
    requires Distinct(orderIds) && o in orderIds
    ensures var (db', scores') := DriveEach(settings, db, scores, orderIds, now, wall);
            && (o in scores' <==> Rearmed(db, db', o))
            && (o in scores' ==> db'.orders[o].recheckAt == Some(scores'[o]))
  {
    hide Recheck.ResolveOrder, RearmedAt;
    var n := |orderIds| - 1;
    var (before, queued) := DriveEach(settings, db, scores, orderIds[..n], now, wall);
    var last := orderIds[n];
    if o == last {
      RearmedAtIsTheRows(settings, before, last, now, wall(last));
      NotDriven(settings, db, scores, orderIds[..n], now, wall, o);
    } else {
      QueueFollowsRows(settings, db, scores, orderIds[..n], now, wall, o);
      ResolveLeavesOthers(settings, before, last, now, wall(last), o);
      assert RowOf(DriveEach(settings, db, scores, orderIds, now, wall).0, o) == RowOf(before, o);
    }
  }

  lemma {:induction false} NotDriven(settings: Settings, db: Db, scores: map<string, int>, orderIds: seq<string>,
                                     now: int, wall: string -> int, o: string)
    requires o !in orderIds
    ensures RowOf(DriveEach(settings, db, scores, orderIds, now, wall).0, o) == RowOf(db, o)
  {
    hide Recheck.ResolveOrder, RearmedAt;
    if orderIds != [] {
      var n := |orderIds| - 1;
      NotDriven(settings, db, scores, orderIds[..n], now, wall, o);
      ResolveLeavesOthers(settings, DriveEach(settings, db, scores, orderIds[..n], now, wall).0, orderIds[n], now,
                          wall(orderIds[n]), o);
    }
  }

  lemma DriveNext(settings: Settings, db: Db, scores: map<string, int>, orderIds: seq<string>, i: nat, now: int,
                  wall: string -> int)
    requires i < |orderIds|
    ensures var (before, queued) := DriveEach(settings, db, scores, orderIds[..i], now, wall);
            DriveEach(settings, db, scores, orderIds[..i + 1], now, wall) ==
            (Recheck.ResolveOrder(settings, before, orderIds[i], now, wall(orderIds[i])),
             Requeued(queued, orderIds[i], RearmedAt(settings, before, orderIds[i], now, wall(orderIds[i]))))
  {
    hide Recheck.ResolveOrder, RearmedAt;
    assert orderIds[..i + 1][..i] == orderIds[..i];
  }

  class RecheckRunner {
    const store: PostgresStateStore
    const queue: InMemoryDelayQueue
    const settings: Settings

    constructor (store: PostgresStateStore, queue: InMemoryDelayQueue, settings: Settings)
      ensures this.store == store && this.queue == queue && this.settings == settings
    {
      this.store, this.queue, this.settings := store, queue, settings;
    }

    /** One recheck from claim to finish, and what becomes of its queue entry. */
    method ResolveOrder(orderId: string, now: int, wall: int)
      modifies store, queue
      ensures store.Contents() == Recheck.ResolveOrder(settings, old(store.Contents()), orderId, now, wall)
      ensures queue.scores ==
              Requeued(old(queue.scores), orderId,
                       RearmedAt(settings, old(store.Contents()), orderId, now, wall))
      ensures orderId in queue.scores <==> Rearmed(old(store.Contents()), store.Contents(), orderId)
      ensures orderId in queue.scores ==>
                orderId in store.orders && store.orders[orderId].recheckAt == Some(queue.scores[orderId])
      ensures queue.scores - {orderId} == old(queue.scores) - {orderId}
    {
      hide FinishClaim, EvaluateRecheck, Rearmed, ViewOf, Tables.ClaimRecheck, AuditIds.RecheckId;
      RearmedAtIsTheRows(settings, store.Contents(), orderId, now, wall);
      var token := store.ClaimRecheck(orderId);
      if token.None? {
        queue.Remove(orderId);
        return;
      }
      var row, view := store.ReadState(orderId);
      var evaluation := EvaluateRecheck(orderId, AuditIds.RecheckId(orderId, token.value), view, now,
                                        settings.recheckDelay);
      var rearmAt := Apply(orderId, token.value, evaluation.decision, wall);
      if rearmAt.Some? {
        queue.Push(orderId, rearmAt.value, false);
      } else {
        queue.Remove(orderId);
      }
    }

    /** Finish a claim with token verification; returns the new deadline if re-armed. */
    method Apply(orderId: string, token: nat, decision: Decision, wall: int) returns (rearmAt: Option<int>)
      modifies store
      ensures (store.Contents(), rearmAt) ==
              FinishClaim(settings, old(store.Contents()), orderId, token, decision, wall)
      ensures rearmAt.Some? ==>
                && HoldsClaim(old(store.Contents()), orderId, token) && orderId in store.orders
                && store.orders[orderId].status == PendingRecheck && store.orders[orderId].recheckAt == rearmAt
                && rearmAt == Some(if decision.recheckAt.Some? then decision.recheckAt.value
                                   else wall + settings.recheckDelay)
    {
      rearmAt := None;
      if IsTerminalAction(decision.action) {
        if decision.newStatus.Some? {
          var ok := store.CompleteClaim(orderId, token, decision.newStatus.value);
          if ok {
            var _ := store.InsertAudit(decision.audit, None);
          }
        }
        return;
      }
      var deadline := if decision.recheckAt.Some? then decision.recheckAt.value else wall + settings.recheckDelay;
      var outcome := store.RearmOrDeadletter(orderId, token, deadline, settings.maxRetries);
      if outcome.None? {
        return;
      }
      if decision.action == ArmRecheck || decision.action == FlagForReview {
        if outcome.value.0 == DeadLetter {
          var _ := store.InsertAudit(
            decision.audit.(decision := RecheckRetriesExhausted, newState := Some(DeadLetter)), None);
          store.EnqueueReview(ReviewItem(Some(orderId), DeadLetterReview, Some(decision.audit.eventId), None));
          return;
        }
        var _ := store.InsertAudit(decision.audit.(newState := Some(PendingRecheck)), None);
      }
      rearmAt := if outcome.value.0 != DeadLetter then Some(deadline) else None;
    }

    /** Resolve every due entry, in order. */
    method RunOnce(now: int, limit: nat, wall: string -> int) returns (fired: nat, ghost due: seq<string>)
      modifies store, queue
      ensures IsDue(old(queue.scores), now, limit, due) && fired == |due|
      ensures (store.Contents(), queue.scores) ==
              DriveEach(settings, old(store.Contents()), old(queue.scores), due, now, wall)
    {
      hide DriveEach, IsDue, Recheck.ResolveOrder, RearmedAt;
      var ready := queue.Due(now, limit);
      due := ready;
      fired := |ready|;
      var i := 0;
      DriveNone(settings, store.Contents(), queue.scores, now, wall);
      while i < |ready|
        invariant 0 <= i <= |ready|
        invariant (store.Contents(), queue.scores) ==
                  DriveEach(settings, old(store.Contents()), old(queue.scores), ready[..i], now, wall)
      {
        DriveNext(settings, old(store.Contents()), old(queue.scores), ready, i, now, wall);
        ResolveOrder(ready[i], now, wall(ready[i]));
        i := i + 1;
      }
      assert ready[..i] == ready;
    }
  }

  lemma DriveNone(settings: Settings, db: Db, scores: map<string, int>, now: int, wall: string -> int)
    ensures DriveEach(settings, db, scores, [], now, wall) == (db, scores)
  {
  }

  class StuckProcessingSweep {
    const store: PostgresStateStore
    const settings: Settings

    constructor (store: PostgresStateStore, settings: Settings)
      ensures this.store == store && this.settings == settings
    {
      this.store, this.settings := store, settings;
    }

    /** Reclaim every stuck row, then record each reclaim. */
    method RunOnce() returns (count: nat, ghost orderIds: seq<string>)
      modifies store
      ensures ListsStuck(settings, old(store.Contents()), orderIds) && count == |orderIds|
      ensures store.Contents() == StuckSweep(settings, old(store.Contents()), orderIds)
      ensures forall o | o in old(store.orders) ::
                var row := old(store.orders)[o];
                && o in store.orders
                && if row.status == Processing && row.updatedAt < old(store.clock) - settings.timeout &&
                      row.retryCount < settings.maxRetries
                   then store.orders[o].claimToken.None? && store.orders[o].retryCount == row.retryCount + 1
                   else store.orders[o] == row
    {
      hide ReclaimedRow, RecordReclaim, ListsStuck;
      ghost var before := store.Contents();
      var reclaimed := store.ReclaimStuckProcessing(settings);
      orderIds := OrderIds(reclaimed);
      ListedInOrders(settings, before, orderIds);
      count := |reclaimed|;
      RecordEach(reclaimed, before);
      SweptRows(settings, before, orderIds, store.Contents());
    }

    method RecordEach(reclaimed: seq<Reclaimed>, ghost before: Db)
      requires Distinct(OrderIds(reclaimed)) && forall o | o in OrderIds(reclaimed) :: o in before.orders
      requires store.audit == before.audit && store.reviews == before.reviews
      requires forall r | r in reclaimed ::
                 var row := ReclaimedRow(settings, before.orders[r.orderId], before.clock);
                 r.newStatus == row.status && r.retryCount == row.retryCount
      modifies store
      ensures store.Contents() ==
              Recorded(old(store.Contents()), ReclaimEach(settings, before, OrderIds(reclaimed)))
    {
      hide ReclaimedRow, RecordReclaim;
      ghost var orderIds := OrderIds(reclaimed);
      var i := 0;
      while i < |reclaimed|
        invariant 0 <= i <= |reclaimed|
        invariant store.Contents() == Recorded(old(store.Contents()), ReclaimEach(settings, before, orderIds[..i]))
      {
        var r := reclaimed[i];
        assert r in reclaimed && orderIds[i] == r.orderId;
        Record(r);
        RecordedNext(settings, before, old(store.Contents()), orderIds, i);
        i := i + 1;
      }
      assert orderIds[..i] == orderIds;
    }

    /** The log row and, for a dead letter, the review row of one reclaim. */
    method Record(r: Reclaimed)
      modifies store
      ensures store.Contents() == RecordReclaim(old(store.Contents()), r.orderId, r.newStatus, r.retryCount)
    {
      var _ := store.InsertAudit(SweepEntry(r.orderId, r.newStatus, r.retryCount), None);
      if r.newStatus == DeadLetter {
        store.EnqueueReview(ReviewItem(Some(r.orderId), DeadLetterReview, None, None));
      }
    }
  }

  /** The rows of one store with the log and review queue of another. */
  ghost function Recorded(rows: Db, records: Db): Db {
    rows.(audit := records.audit, reviews := records.reviews)
  }

  /** Rows updated and records written, the sweep is complete. */
  lemma SweptRows(settings: Settings, before: Db, orderIds: seq<string>, db: Db)
    requires Distinct(orderIds) && forall o | o in orderIds :: o in before.orders
    requires db.orders.Keys == before.orders.Keys
    requires forall o | o in before.orders ::
               db.orders[o] == if o in orderIds then ReclaimedRow(settings, before.orders[o], before.clock)
                               else before.orders[o]
    requires db.views == before.views && db.claims == before.claims && db.clock == before.clock + 1
    requires db == Recorded(db, ReclaimEach(settings, before, orderIds))
    ensures db == StuckSweep(settings, before, orderIds)
  {
    ReclaimEachRows(settings, before, orderIds);
    hide ReclaimedRow, ReclaimEach;
    assert db.orders == ReclaimEach(settings, before, orderIds).orders;
  }

  lemma ListedInOrders(settings: Settings, db: Db, orderIds: seq<string>)
    requires ListsStuck(settings, db, orderIds)
    ensures Distinct(orderIds) && forall o | o in orderIds :: o in db.orders
  {
  }

  /** Records are the same whatever rows the tables hold meanwhile. */
  lemma RecordIgnoresRows(rows: Db, records: Db, o: string, status: ReconStatus, retryCount: nat)
    ensures RecordReclaim(Recorded(rows, records), o, status, retryCount) ==
            Recorded(rows, RecordReclaim(records, o, status, retryCount))
  {
  }

  lemma RecordedNext(settings: Settings, before: Db, rows: Db, orderIds: seq<string>, i: nat)
    requires i < |orderIds| && Distinct(orderIds)
    requires forall o | o in orderIds :: o in before.orders
    ensures var row := ReclaimedRow(settings, before.orders[orderIds[i]], before.clock);
            RecordReclaim(Recorded(rows, ReclaimEach(settings, before, orderIds[..i])), orderIds[i], row.status,
                          row.retryCount) ==
            Recorded(rows, ReclaimEach(settings, before, orderIds[..i + 1]))
  {
    ReclaimEachRows(settings, before, orderIds[..i]);
    assert orderIds[..i + 1][..i] == orderIds[..i];
    var db := ReclaimEach(settings, before, orderIds[..i]);
    var row := ReclaimedRow(settings, before.orders[orderIds[i]], before.clock);
    var moved := db.(orders := db.orders[orderIds[i] := row]);
    RecordIgnoresRows(rows, moved, orderIds[i], row.status, row.retryCount);
    hide RecordReclaim, ReclaimedRow;
    assert Recorded(rows, moved) == Recorded(rows, db);
  }

  class PendingRecheckSweep {
    const runner: RecheckRunner
    const limit: nat
    /** Asked before each order whether to stop: its answer the k-th time. */
    const shouldStop: Option<nat -> bool>

    constructor (runner: RecheckRunner, limit: nat, shouldStop: Option<nat -> bool>)
      ensures this.runner == runner && this.limit == limit && this.shouldStop == shouldStop
    {
      this.runner, this.limit, this.shouldStop := runner, limit, shouldStop;
    }

    predicate Stops(k: nat) {
      shouldStop.Some? && shouldStop.value(k)
    }

    /** Drive the orphans through the runner, in order, until told to stop. */
    method RunOnce(now: int, wall: string -> int) returns (handled: nat, ghost orphans: seq<string>)
      modifies runner.store, runner.queue
      ensures ListsOrphans(runner.settings, old(runner.store.Contents()), limit, orphans)
      ensures handled <= |orphans| && (forall k | 0 <= k < handled :: !Stops(k))
      ensures handled == |orphans| || Stops(handled)
      ensures (runner.store.Contents(), runner.queue.scores) ==
              DriveEach(runner.settings, old(runner.store.Contents()), old(runner.queue.scores), orphans[..handled],
                        now, wall)
    {
      hide DriveEach, ListsOrphans, Recheck.ResolveOrder, RearmedAt;
      var orderIds := runner.store.ListOrphanedPending(runner.settings, limit);
      orphans := orderIds;
      handled := 0;
      DriveNone(runner.settings, runner.store.Contents(), runner.queue.scores, now, wall);
      while handled < |orderIds| && !Stops(handled)
        invariant 0 <= handled <= |orderIds| && forall k | 0 <= k < handled :: !Stops(k)
        invariant (runner.store.Contents(), runner.queue.scores) ==
                  DriveEach(runner.settings, old(runner.store.Contents()), old(runner.queue.scores),
                            orderIds[..handled], now, wall)
      {
        DriveNext(runner.settings, old(runner.store.Contents()), old(runner.queue.scores), orderIds, handled, now,
                  wall);
        runner.ResolveOrder(orderIds[handled], now, wall(orderIds[handled]));
        handled := handled + 1;
      }
    }
  }

  class SweepService {
    const stuck: StuckProcessingSweep
    const pending: PendingRecheckSweep

    ghost predicate Valid() {
      stuck.store == pending.runner.store && stuck.settings == pending.runner.settings
    }

    constructor (store: PostgresStateStore, queue: InMemoryDelayQueue, settings: Settings, limit: nat,
                 shouldStop: Option<nat -> bool>)
      ensures Valid() && stuck.store == store && pending.runner.queue == queue
      ensures stuck.settings == settings && pending.limit == limit && pending.shouldStop == shouldStop
    {
      var runner := new RecheckRunner(store, queue, settings);
      stuck := new StuckProcessingSweep(store, settings);
      pending := new PendingRecheckSweep(runner, limit, shouldStop);
    }

    /** The orphans are listed after the reclaims, so they include what those put back;
        `stop` is the answer to whether to go on to them. */
    method RunOnce(now: int, wall: string -> int, stop: bool)
      returns (reclaimed: nat, resolved: nat, ghost stuckIds: seq<string>, ghost orphans: seq<string>)
      requires Valid()
      modifies stuck.store, pending.runner.queue
      ensures ListsStuck(stuck.settings, old(stuck.store.Contents()), stuckIds) && reclaimed == |stuckIds|
      ensures if stop then orphans == []
              else ListsOrphans(stuck.settings,
                                StuckSweep(stuck.settings, old(stuck.store.Contents()), stuckIds), pending.limit,
                                orphans)
      ensures resolved <= |orphans| && forall k | 0 <= k < resolved :: !pending.Stops(k)
      ensures resolved == |orphans| || pending.Stops(resolved)
      ensures stuck.store.Contents() ==
              SweepPass(stuck.settings, old(stuck.store.Contents()), stuckIds, orphans[..resolved], now, wall)
      ensures pending.runner.queue.scores ==
              DriveEach(stuck.settings, StuckSweep(stuck.settings, old(stuck.store.Contents()), stuckIds),
                        old(pending.runner.queue.scores), orphans[..resolved], now, wall).1
    {
      hide DriveEach, ListsOrphans, StuckSweep;
      ghost var scores := pending.runner.queue.scores;
      ghost var before := stuck.store.Contents();
      reclaimed, stuckIds := stuck.RunOnce();
      resolved, orphans := 0, [];
      DriveNone(stuck.settings, stuck.store.Contents(), scores, now, wall);
      if !stop {
        resolved, orphans := pending.RunOnce(now, wall);
      }
      DrivenQueue(stuck.settings, StuckSweep(stuck.settings, before, stuckIds), scores, orphans[..resolved], now, wall);
    }
  }
}
