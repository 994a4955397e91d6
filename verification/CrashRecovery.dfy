/** With every worker dead, repeated sweep passes bring every order to rest. */
module CrashRecovery {
  import opened Models
  import opened Tables
  import opened Recheck
  import opened Sweep
  import opened LogFacts
  import opened StoreInvariant
  import opened StoreSteps
  import opened ConsumerSteps
  import opened SweepSteps

  /** A row at rest stays as it is; any other comes to rest or spends a retry. */
  predicate Progress(row: Row, row': Row) {
    if IsTerminal(row.status) then row' == row
    else IsTerminal(row'.status) || row.retryCount < row'.retryCount
  }

  /** Claim, read and finish with nothing in between: a pending order makes progress, any
      other order is not touched. */
  lemma ResolveKeeps(settings: Settings, db: Db, o: string, now: int, wall: int)
    requires StoreOk(settings, db)
    ensures var db' := ResolveOrder(settings, db, o, now, wall);
            && StoreOk(settings, db')
            && db'.orders.Keys == db.orders.Keys
            && (forall p | p in db.orders && p != o :: db'.orders[p] == db.orders[p])
            && (o in db.orders && db.orders[o].status != PendingRecheck ==> db'.orders[o] == db.orders[o])
            && (o in db.orders && db.orders[o].status == PendingRecheck ==> Progress(db.orders[o], db'.orders[o]))
  {
    var (claimed, token) := ClaimRecheck(db, o);
    ClaimKeeps(settings, db, o);
    if token.Some? {
      var t := token.value;
      var decision := RecheckDecision(o, t, ViewOf(claimed, o), now, settings.recheckDelay);
      FreshDecision(settings, claimed, o, t, now);
      hide StoreOk, MadeAt, RecheckDecision, FinishClaim, FinishEffect, HoldsClaim, ViewOf, Granted;
      FinishKeeps(settings, claimed, o, t, decision, wall, |claimed.audit|, now);
      FinishProgress(settings, claimed, FinishClaim(settings, claimed, o, t, decision, wall).0, o, t,
                     decision.action);
    }
  }

  /** A decision made on the tables as they are is one made on the whole log. */
  lemma FreshDecision(settings: Settings, db: Db, o: string, token: nat, now: int)
    requires StoreOk(settings, db)
    requires Granted(db, o, token)
    ensures MadeAt(settings, db, o, token,
                   RecheckDecision(o, token, ViewOf(db, o), now, settings.recheckDelay), |db.audit|, now)
  {
    StoreOrder(settings, db, o);
    ReadsReplay(settings, db, o);
    assert db.audit[..|db.audit|] == db.audit;
    NoViewIsEmptyView(settings, db, o, token, now);
    hide OrderOk, RecheckDecision, ViewOf, ViewAt;
  }

  lemma FinishProgress(settings: Settings, db: Db, db': Db, o: string, token: nat, action: Action)
    requires FinishEffect(settings, db, db', o, token, action)
    ensures Progress(db.orders[o], db'.orders[o])
    ensures db'.orders.Keys == db.orders.Keys
    ensures forall p | p in db.orders && p != o :: db'.orders[p] == db.orders[p]
  {
  }

  lemma {:induction false} ResolveEachKeeps(settings: Settings, db: Db, orderIds: seq<string>, now: int,
                                            wall: string -> int)
    requires StoreOk(settings, db)
    requires Distinct(orderIds)
    ensures var db' := ResolveEach(settings, db, orderIds, now, wall);
            && StoreOk(settings, db')
            && db'.orders.Keys == db.orders.Keys
            && (forall p | p in db.orders ::
                  if p in orderIds && db.orders[p].status == PendingRecheck
                  then Progress(db.orders[p], db'.orders[p])
                  else db'.orders[p] == db.orders[p])
  {
    if orderIds != [] {
      var n := |orderIds| - 1;
      ResolveEachKeeps(settings, db, orderIds[..n], now, wall);
      ResolveKeeps(settings, ResolveEach(settings, db, orderIds[..n], now, wall), orderIds[n], now,
                   wall(orderIds[n]));
      assert orderIds == orderIds[..n] + [orderIds[n]];
    }
  }

  /** Enough time has passed: every held claim is past the watchdog, every deadline past
      the grace period. */
  predicate Ripe(settings: Settings, db: Db) {
    forall o | o in db.orders ::
      var row := db.orders[o];
      && (row.status == Processing ==> row.updatedAt < db.clock - settings.timeout)
      && (row.status in {PendingRecheck, Processing} ==>
            row.recheckAt.Some? && row.recheckAt.value < db.clock - settings.grace)
  }

  lemma {:induction false} DistinctSize(orderIds: seq<string>, keys: set<string>)
    requires Distinct(orderIds)
    requires forall o | o in orderIds :: o in keys
    ensures |orderIds| <= |keys|
    ensures (exists o :: o in keys && o !in orderIds) ==> |orderIds| < |keys|
  {
    if orderIds != [] {
      var n := |orderIds| - 1;
      DistinctSize(orderIds[..n], keys - {orderIds[n]});
      if o :| o in keys && o !in orderIds {
        assert o in keys - {orderIds[n]} && o !in orderIds[..n];
      }
    }
  }

  /** With room for every order, no orphan is left off the list. */
  lemma NoOrphanLeftOut(settings: Settings, db: Db, limit: nat, orphans: seq<string>, o: string)
    requires ListsOrphans(settings, db, limit, orphans)
    requires |db.orders.Keys| <= limit
    requires IsOrphan(settings, db, o)
    ensures o in orphans
  {
    DistinctSize(orphans, db.orders.Keys);
  }

  /** Every ripe claim is stuck, so the first half of the pass leaves none; a row it leaves
      pending is an orphan. */
  lemma RipeRowIsSwept(settings: Settings, db: Db, o: string)
    requires StoreOk(settings, db) && Ripe(settings, db) && o in db.orders
    ensures db.orders[o].status == Processing ==> IsStuck(settings, db, o)
    ensures var row := if IsStuck(settings, db, o) then ReclaimedRow(settings, db.orders[o], db.clock)
                       else db.orders[o];
            && row.status != Processing
            && (row.status == PendingRecheck ==>
                  row.recheckAt.Some? && row.recheckAt.value < db.clock - settings.grace)
            && (row.status != PendingRecheck ==> IsTerminal(row.status))
            && db.orders[o].retryCount <= row.retryCount
  {
    assert OrderOk(settings, db, o);
  }

  /** After the first half of a pass over ripe tables an order is at rest or an orphan. */
  lemma SweptIsReady(settings: Settings, db: Db, stuck: seq<string>, o: string)
    requires StoreOk(settings, db) && Ripe(settings, db) && o in db.orders
    requires ListsStuck(settings, db, stuck)
    ensures var swept := StuckSweep(settings, db, stuck);
            && o in swept.orders
            && (IsTerminal(db.orders[o].status) ==> swept.orders[o] == db.orders[o])
            && (!IsTerminal(swept.orders[o].status) ==> IsOrphan(settings, swept, o))
            && db.orders[o].retryCount <= swept.orders[o].retryCount
  {
    RipeRowIsSwept(settings, db, o);
    StuckSweepKeeps(settings, db, stuck);
    hide StoreOk, Ripe, ListsStuck, StuckSweep, ReclaimedRow;
  }

  lemma ResolvedAfterSweep(settings: Settings, swept: Db, limit: nat, orphans: seq<string>, now: int,
                           wall: string -> int, o: string)
    requires StoreOk(settings, swept) && o in swept.orders
    requires |swept.orders.Keys| <= limit
    requires ListsOrphans(settings, swept, limit, orphans)
    requires !IsTerminal(swept.orders[o].status) ==> IsOrphan(settings, swept, o)
    ensures var db' := ResolveEach(settings, swept, orphans, now, wall);
            o in db'.orders && Progress(swept.orders[o], db'.orders[o])
  {
    hide StoreOk;
    ResolveEachKeeps(settings, swept, orphans, now, wall);
    if !IsTerminal(swept.orders[o].status) {
      NoOrphanLeftOut(settings, swept, limit, orphans, o);
    }
  }

  /** One pass over ripe tables: every order is at rest afterwards, or has spent a retry. */
  lemma PassProgress(settings: Settings, db: Db, limit: nat, stuck: seq<string>, orphans: seq<string>, now: int,
                     wall: string -> int)
    requires StoreOk(settings, db)
    requires Ripe(settings, db)
    requires ListsStuck(settings, db, stuck)
    requires |db.orders.Keys| <= limit
    requires ListsOrphans(settings, StuckSweep(settings, db, stuck), limit, orphans)
    ensures var db' := SweepPass(settings, db, stuck, orphans, now, wall);
            && StoreOk(settings, db')
            && db'.orders.Keys == db.orders.Keys
            && (forall o | o in db.orders :: Progress(db.orders[o], db'.orders[o]))
  {
    var swept := StuckSweep(settings, db, stuck);
    assert swept.orders.Keys == db.orders.Keys && StoreOk(settings, swept) by {
      StuckSweepKeeps(settings, db, stuck);
    }
    hide StoreOk, Ripe, ListsOrphans, ListsStuck, ResolveEach, StuckSweep, IsOrphan;
    ResolveEachKeeps(settings, swept, orphans, now, wall);
    forall o | o in db.orders
      ensures Progress(db.orders[o], SweepPass(settings, db, stuck, orphans, now, wall).orders[o])
    {
      SweptIsReady(settings, db, stuck, o);
      ResolvedAfterSweep(settings, swept, limit, orphans, now, wall, o);
    }
  }

  /** One pass: what it found, and how long anyone waited before it. */
  datatype Pass = Pass(startsAt: int, stuck: seq<string>, orphans: seq<string>, now: int, wall: string -> int)

  predicate PassFits(settings: Settings, db: Db, limit: nat, pass: Pass) {
    var db := db.(clock := pass.startsAt);
    && Ripe(settings, db)
    && ListsStuck(settings, db, pass.stuck)
    && ListsOrphans(settings, StuckSweep(settings, db, pass.stuck), limit, pass.orphans)
  }

  /** The tables after the passes, each started once the tables are ripe. */
  predicate Recovers(settings: Settings, db: Db, limit: nat, passes: seq<Pass>, db': Db)
    decreases |passes|
  {
    if passes == [] then db' == db
    else
      && db.clock <= passes[0].startsAt
      && PassFits(settings, db, limit, passes[0])
      && Recovers(settings,
                  SweepPass(settings, db.(clock := passes[0].startsAt), passes[0].stuck, passes[0].orphans,
                            passes[0].now, passes[0].wall),
                  limit, passes[1..], db')
  }

  lemma {:induction false} RecoveryProgress(settings: Settings, db: Db, limit: nat, passes: seq<Pass>, db': Db,
                                            spent: nat)
    requires StoreOk(settings, db)
    requires |db.orders.Keys| <= limit
    requires Recovers(settings, db, limit, passes, db')
    requires forall o | o in db.orders :: IsTerminal(db.orders[o].status) || spent <= db.orders[o].retryCount
    ensures StoreOk(settings, db')
    ensures db'.orders.Keys == db.orders.Keys
    ensures forall o | o in db'.orders ::
              IsTerminal(db'.orders[o].status) || spent + |passes| <= db'.orders[o].retryCount
    ensures forall o | o in db.orders && IsTerminal(db.orders[o].status) :: db'.orders[o] == db.orders[o]
    decreases |passes|
  {
    hide StoreOk, SweepPass, Progress, ListsOrphans, Ripe;
    if passes != [] {
      var p := passes[0];
      var after := SweepPass(settings, db.(clock := p.startsAt), p.stuck, p.orphans, p.now, p.wall);
      PassSpends(settings, db, limit, p, spent);
      RecoveryProgress(settings, after, limit, passes[1..], db', spent + 1);
    }
  }

  lemma PassSpends(settings: Settings, db: Db, limit: nat, p: Pass, spent: nat)
    requires StoreOk(settings, db)
    requires |db.orders.Keys| <= limit
    requires db.clock <= p.startsAt && PassFits(settings, db, limit, p)
    requires forall o | o in db.orders :: IsTerminal(db.orders[o].status) || spent <= db.orders[o].retryCount
    ensures var after := SweepPass(settings, db.(clock := p.startsAt), p.stuck, p.orphans, p.now, p.wall);
            && StoreOk(settings, after)
            && after.orders.Keys == db.orders.Keys
            && (forall o | o in after.orders ::
                  IsTerminal(after.orders[o].status) || spent + 1 <= after.orders[o].retryCount)
            && (forall o | o in db.orders && IsTerminal(db.orders[o].status) :: after.orders[o] == db.orders[o])
  {
    var ripe := db.(clock := p.startsAt);
    TickKeeps(settings, db, p.startsAt);
    hide StoreOk, SweepPass, ListsOrphans, Ripe, Progress, IsTerminal;
    PassProgress(settings, ripe, limit, p.stuck, p.orphans, p.now, p.wall);
    var after := SweepPass(settings, ripe, p.stuck, p.orphans, p.now, p.wall);
    forall o | o in db.orders
      ensures IsTerminal(after.orders[o].status) || spent + 1 <= after.orders[o].retryCount
      ensures IsTerminal(db.orders[o].status) ==> after.orders[o] == db.orders[o]
    {
      ProgressSpends(db.orders[o], after.orders[o], spent);
    }
  }

  lemma ProgressSpends(row: Row, row': Row, spent: nat)
    requires Progress(row, row') && (IsTerminal(row.status) || spent <= row.retryCount)
    ensures IsTerminal(row'.status) || spent + 1 <= row'.retryCount
    ensures IsTerminal(row.status) ==> row' == row
  {
  }

  /** Crash recovery terminates: from any state the invariant allows, with all workers
      dead, `maxRetries` passes leave every order at rest, and none that was at rest has
      moved. */
  lemma RecoveryTerminates(settings: Settings, db: Db, limit: nat, passes: seq<Pass>, db': Db)
    requires StoreOk(settings, db)
    requires |db.orders.Keys| <= limit
    requires Recovers(settings, db, limit, passes, db')
    requires |passes| >= settings.maxRetries
    ensures db'.orders.Keys == db.orders.Keys
    ensures forall o | o in db'.orders :: IsTerminal(db'.orders[o].status)
    ensures forall o | o in db.orders && IsTerminal(db.orders[o].status) :: db'.orders[o] == db.orders[o]
  {
    hide StoreOk;
    RecoveryProgress(settings, db, limit, passes, db', 0);
    forall o | o in db'.orders ensures IsTerminal(db'.orders[o].status) {
      RetryBound(settings, db', o);
    }
  }

  lemma RetryBound(settings: Settings, db: Db, o: string)
    requires StoreOk(settings, db) && o in db.orders
    ensures IsTerminal(db.orders[o].status) || db.orders[o].retryCount < settings.maxRetries
  {
    assert OrderOk(settings, db, o);
  }

  /** Waiting long enough always makes the tables ripe. */
  lemma WaitingRipens(settings: Settings, db: Db) returns (later: int)
    requires StoreOk(settings, db)
    ensures db.clock <= later && Ripe(settings, db.(clock := later))
  {
    later := db.clock;
    var rest := db.orders.Keys;
    while rest != {}
      invariant rest <= db.orders.Keys
      invariant db.clock <= later
      invariant forall o | o in db.orders && o !in rest ::
                  && db.orders[o].updatedAt < later - settings.timeout
                  && (db.orders[o].recheckAt.Some? ==> db.orders[o].recheckAt.value < later - settings.grace)
    {
      var o :| o in rest;
      var row := db.orders[o];
      var stamp := if row.recheckAt.Some? && row.recheckAt.value + settings.grace > row.updatedAt + settings.timeout
                   then row.recheckAt.value + settings.grace else row.updatedAt + settings.timeout;
      later := if stamp >= later then stamp + 1 else later;
      rest := rest - {o};
    }
    forall o | o in db.orders ensures RowOk(settings, db.orders[o]) {
      assert OrderOk(settings, db, o);
    }
  }

  // ------------------------------------------------------------------
  // Recovery can always be carried out
  // ------------------------------------------------------------------

  lemma StuckAreListed(settings: Settings, db: Db) returns (orderIds: seq<string>)
    ensures ListsStuck(settings, db, orderIds)
  {
    orderIds := Listing(set o | o in db.orders && IsStuck(settings, db, o));
  }

  /** Some order in which to list a set. */
  lemma {:induction false} Listing(s: set<string>) returns (orderIds: seq<string>)
    ensures Distinct(orderIds) && forall o :: o in orderIds <==> o in s
    decreases s
  {
    orderIds := [];
    if o :| o in s {
      var rest := Listing(s - {o});
      orderIds := rest + [o];
    }
  }

  lemma {:induction false} EarliestDue(db: Db, s: set<string>) returns (first: string)
    requires s != {}
    requires forall o | o in s :: o in db.orders && db.orders[o].recheckAt.Some?
    ensures first in s && forall o | o in s :: Due(db, first, o)
    decreases s
  {
    first :| first in s;
    if s != {first} {
      var other := EarliestDue(db, s - {first});
      if Due(db, other, first) {
        first := other;
      } else {
        forall o | o in s ensures Due(db, first, o) {
          if o != first { assert Due(db, other, o); }
        }
      }
    }
  }

  lemma {:induction false} DueOrder(db: Db, s: set<string>) returns (orderIds: seq<string>)
    requires forall o | o in s :: o in db.orders && db.orders[o].recheckAt.Some?
    ensures Distinct(orderIds) && forall o :: o in orderIds <==> o in s
    ensures forall i, j | 0 <= i < j < |orderIds| :: Due(db, orderIds[i], orderIds[j])
    decreases s
  {
    orderIds := [];
    if s != {} {
      var first := EarliestDue(db, s);
      var rest := DueOrder(db, s - {first});
      hide Due;
      orderIds := [first] + rest;
      forall i, j | 0 <= i < j < |orderIds|
        ensures Due(db, orderIds[i], orderIds[j]) && orderIds[i] != orderIds[j]
      {
        assert orderIds[j] == rest[j - 1] && rest[j - 1] in rest;
      }
    }
  }

  lemma OrphansAreListed(settings: Settings, db: Db, limit: nat) returns (orderIds: seq<string>)
    requires |db.orders.Keys| <= limit
    ensures ListsOrphans(settings, db, limit, orderIds)
  {
    orderIds := DueOrder(db, set o | o in db.orders && IsOrphan(settings, db, o));
    DistinctSize(orderIds, db.orders.Keys);
  }

  /** Whatever the store, and whatever times the passes read, as many passes as wanted can
      follow one another: waiting ripens the tables, and the rows to sweep can be listed. */
  lemma {:induction false} PassesCanFollow(settings: Settings, db: Db, limit: nat, n: nat, now: int,
                                           wall: string -> int) returns (passes: seq<Pass>, db': Db)
    requires StoreOk(settings, db)
    requires |db.orders.Keys| <= limit
    ensures |passes| == n && Recovers(settings, db, limit, passes, db')
    ensures forall p | p in passes :: p.now == now && p.wall == wall
    decreases n
  {
    passes, db' := [], db;
    if n > 0 {
      var p, after := OnePassCanFollow(settings, db, limit, now, wall);
      hide StoreOk, PassFits, SweepPass;
      var rest, end := PassesCanFollow(settings, after, limit, n - 1, now, wall);
      passes, db' := [p] + rest, end;
      assert passes[1..] == rest;
    }
  }

  lemma OnePassCanFollow(settings: Settings, db: Db, limit: nat, now: int, wall: string -> int)
    returns (p: Pass, after: Db)
    requires StoreOk(settings, db)
    requires |db.orders.Keys| <= limit
    ensures db.clock <= p.startsAt && PassFits(settings, db, limit, p) && p.now == now && p.wall == wall
    ensures after == SweepPass(settings, db.(clock := p.startsAt), p.stuck, p.orphans, p.now, p.wall)
    ensures StoreOk(settings, after) && after.orders.Keys == db.orders.Keys
  {
    var later := WaitingRipens(settings, db);
    var ripe := db.(clock := later);
    TickKeeps(settings, db, later);
    var stuck := StuckAreListed(settings, ripe);
    assert StuckSweep(settings, ripe, stuck).orders.Keys == db.orders.Keys;
    var orphans := OrphansAreListed(settings, StuckSweep(settings, ripe, stuck), limit);
    p := Pass(later, stuck, orphans, now, wall);
    hide StoreOk, Ripe, ListsOrphans, StuckSweep, ResolveEach;
    PassProgress(settings, ripe, limit, stuck, orphans, now, wall);
    after := SweepPass(settings, ripe, stuck, orphans, now, wall);
  }

  /** Recovery, unconditionally: for any store the invariant allows there are `maxRetries`
      passes that settle every order and move none that was settled. */
  lemma RecoveryHappens(settings: Settings, db: Db, limit: nat, now: int, wall: string -> int)
    returns (passes: seq<Pass>, db': Db)
    requires StoreOk(settings, db)
    requires |db.orders.Keys| <= limit
    ensures |passes| == settings.maxRetries && Recovers(settings, db, limit, passes, db')
    ensures db'.orders.Keys == db.orders.Keys
    ensures forall o | o in db'.orders :: IsTerminal(db'.orders[o].status)
    ensures forall o | o in db.orders && IsTerminal(db.orders[o].status) :: db'.orders[o] == db.orders[o]
  {
    hide StoreOk, Recovers;
    passes, db' := PassesCanFollow(settings, db, limit, settings.maxRetries, now, wall);
    RecoveryTerminates(settings, db, limit, passes, db');
  }
}
