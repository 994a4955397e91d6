/** The dashboard's order counts, and why they add up. */
module Dashboard {
  import opened Models
  import opened Tables
  import opened Recheck
  import opened StoreInvariant
  import opened Protocol
  import opened ProtocolInvariant
  import RunTheorems

  const STATUSES: seq<ReconStatus> :=
    [ResolvedAutocorrected, ResolvedNaturally, PendingRecheck, Processing, Disputed, DeadLetter]

  /** The counts fetched: rows by status, orders with a view, pointers without one. */
  datatype Counts = Counts(byStatus: map<ReconStatus, nat>, ordersTracked: nat, orphanPointers: nat)

  datatype OrderSummary = OrderSummary(
    tracked: nat,
    withPointer: nat,
    noActionNeeded: nat,
    orphanPointers: nat,
    byStatus: map<ReconStatus, nat>,
    resolvedTotal: nat,
    inProgress: nat)

  /** A status with no rows is absent from the grouped counts. */
  function CountOf(byStatus: map<ReconStatus, nat>, status: ReconStatus): nat {
    if status in byStatus then byStatus[status] else 0
  }

  function SumOver(byStatus: map<ReconStatus, nat>, statuses: seq<ReconStatus>): nat {
    if statuses == [] then 0 else CountOf(byStatus, statuses[0]) + SumOver(byStatus, statuses[1..])
  }

  function AssembleSummary(c: Counts): OrderSummary {
    var byStatus := map s | s in STATUSES :: CountOf(c.byStatus, s);
    var pointerTotal := SumOver(byStatus, STATUSES);
    OrderSummary(c.ordersTracked, pointerTotal,
                 if c.ordersTracked - pointerTotal > 0 then c.ordersTracked - pointerTotal else 0,
                 c.orphanPointers, byStatus,
                 SumOver(byStatus, [ResolvedAutocorrected, ResolvedNaturally]),
                 SumOver(byStatus, [PendingRecheck, Processing]))
  }

  // ------------------------------------------------------------------
  // The queries, on one snapshot
  // ------------------------------------------------------------------

  function InStatus(db: Db, status: ReconStatus): set<string> {
    set o | o in db.orders && db.orders[o].status == status
  }

  /** SELECT status, count(*) ... GROUP BY status lists the statuses that occur. */
  function StatusCounts(db: Db): map<ReconStatus, nat> {
    map s | s in STATUSES && InStatus(db, s) != {} :: |InStatus(db, s)|
  }

  function Orphans(db: Db): set<string> {
    set o | o in db.orders && o !in db.views
  }

  function Snapshot(db: Db): Counts {
    Counts(StatusCounts(db), |db.views.Keys|, |Orphans(db)|)
  }

  lemma EmptyHasNone(s: set<string>)
    ensures |s| == 0 <==> s == {}
  {
  }

  lemma DisjointUnion(a: set<string>, b: set<string>)
    requires a !! b
    ensures |a + b| == |a| + |b|
  {
  }

  function Together(db: Db, statuses: seq<ReconStatus>): set<string> {
    set o | o in db.orders && db.orders[o].status in statuses
  }

  /** Orders in distinct statuses are counted once each. */
  lemma {:induction false} StatusesPartition(db: Db, statuses: seq<ReconStatus>)
    requires forall i, j | 0 <= i < j < |statuses| :: statuses[i] != statuses[j]
    requires forall s | s in statuses :: s in STATUSES
    ensures SumOver(StatusCounts(db), statuses) == |Together(db, statuses)|
  {
    if statuses == [] {
      assert Together(db, statuses) == {};
    } else {
      StatusesPartition(db, statuses[1..]);
      OneStatusMore(db, statuses);
      StatusIsCounted(db, statuses[0]);
      hide StatusCounts, CountOf, Together, InStatus;
    }
  }

  lemma StatusIsCounted(db: Db, s: ReconStatus)
    requires s in STATUSES
    ensures CountOf(StatusCounts(db), s) == |InStatus(db, s)|
  {
    EmptyHasNone(InStatus(db, s));
  }

  lemma OneStatusMore(db: Db, statuses: seq<ReconStatus>)
    requires statuses != [] && statuses[0] !in statuses[1..]
    ensures |Together(db, statuses)| == |InStatus(db, statuses[0])| + |Together(db, statuses[1..])|
  {
    var s, rest := statuses[0], statuses[1..];
    assert statuses == [s] + rest;
    assert Together(db, statuses) == InStatus(db, s) + Together(db, rest);
    DisjointUnion(InStatus(db, s), Together(db, rest));
  }

  lemma {:induction false} SameSum(a: map<ReconStatus, nat>, b: map<ReconStatus, nat>, statuses: seq<ReconStatus>)
    requires forall s | s in statuses :: CountOf(a, s) == CountOf(b, s)
    ensures SumOver(a, statuses) == SumOver(b, statuses)
  {
    if statuses != [] {
      SameSum(a, b, statuses[1..]);
    }
  }

  lemma EveryStatusListed(s: ReconStatus)
    ensures s in STATUSES
  {
  }

  /** On any one snapshot of a store the worker wrote: every pointer has a view, every order
      tracked either needs no action or is counted under exactly one status, and the clamp at
      zero never acts. */
  lemma CountsAddUp(settings: Settings, db: Db)
    requires StoreOk(settings, db)
    ensures var s := AssembleSummary(Snapshot(db));
            && s.orphanPointers == 0
            && s.withPointer == |db.orders.Keys|
            && s.withPointer <= s.tracked
            && s.noActionNeeded == |db.views.Keys - db.orders.Keys|
            && s.tracked == s.noActionNeeded + s.withPointer
            && (forall st | st in STATUSES :: CountOf(s.byStatus, st) == |InStatus(db, st)|)
            && s.resolvedTotal ==
                 |set o | o in db.orders && db.orders[o].status in {ResolvedAutocorrected, ResolvedNaturally}|
            && s.inProgress == |set o | o in db.orders && db.orders[o].status in {PendingRecheck, Processing}|
  {
    PointersHaveViews(settings, db);
    hide StoreOk, StatusCounts, SumOver, InStatus, Orphans, CountOf;
    PointerTotal(db);
    ViewsSplit(db);
    GroupTotals(db);
  }

  /** The two groups count the orders whose status is one of theirs. */
  lemma GroupTotals(db: Db)
    ensures var s := AssembleSummary(Snapshot(db));
            && s.resolvedTotal ==
                 |set o | o in db.orders && db.orders[o].status in {ResolvedAutocorrected, ResolvedNaturally}|
            && s.inProgress == |set o | o in db.orders && db.orders[o].status in {PendingRecheck, Processing}|
  {
    hide SumOver, InStatus, StatusCounts, Orphans;
    var byStatus := map s | s in STATUSES :: CountOf(StatusCounts(db), s);
    SameSum(byStatus, StatusCounts(db), [ResolvedAutocorrected, ResolvedNaturally]);
    SameSum(byStatus, StatusCounts(db), [PendingRecheck, Processing]);
    StatusesPartition(db, [ResolvedAutocorrected, ResolvedNaturally]);
    StatusesPartition(db, [PendingRecheck, Processing]);
    assert Together(db, [ResolvedAutocorrected, ResolvedNaturally]) ==
           set o | o in db.orders && db.orders[o].status in {ResolvedAutocorrected, ResolvedNaturally};
    assert Together(db, [PendingRecheck, Processing]) ==
           set o | o in db.orders && db.orders[o].status in {PendingRecheck, Processing};
  }

  /** Counts fetched while rows are being written may disagree; then the orders without action
      are clamped at none, and only then do the parts exceed the whole. */
  lemma TornCountsAreClamped(c: Counts)
    ensures var s := AssembleSummary(c);
            && s.tracked == c.ordersTracked && s.orphanPointers == c.orphanPointers
            && (s.noActionNeeded == 0 || s.tracked == s.noActionNeeded + s.withPointer)
            && s.tracked <= s.noActionNeeded + s.withPointer
            && (forall st | st in c.byStatus :: st in s.byStatus && s.byStatus[st] == c.byStatus[st])
  {
    forall st: ReconStatus ensures st in STATUSES { EveryStatusListed(st); }
    hide SumOver;
  }

  lemma ViewsSplit(db: Db)
    requires db.orders.Keys <= db.views.Keys
    ensures |Orphans(db)| == 0
    ensures |db.views.Keys| == |db.orders.Keys| + |db.views.Keys - db.orders.Keys|
  {
    assert Orphans(db) == {};
    SubsetSplit(db.orders.Keys, db.views.Keys);
  }

  lemma SubsetSplit(a: set<string>, b: set<string>)
    requires a <= b
    ensures |b| == |a| + |b - a|
  {
    DisjointUnion(a, b - a);
    assert a + (b - a) == b;
  }

  lemma PointerTotal(db: Db)
    ensures var byStatus := map s | s in STATUSES :: CountOf(StatusCounts(db), s);
            && SumOver(byStatus, STATUSES) == |db.orders.Keys|
            && forall st | st in STATUSES :: CountOf(byStatus, st) == |InStatus(db, st)|
  {
    var byStatus := map s | s in STATUSES :: CountOf(StatusCounts(db), s);
    forall st | st in STATUSES ensures CountOf(byStatus, st) == |InStatus(db, st)| {
      EmptyHasNone(InStatus(db, st));
    }
    hide SumOver, InStatus, StatusCounts;
    SameSum(byStatus, StatusCounts(db), STATUSES);
    StatusesPartition(db, STATUSES);
    assert Together(db, STATUSES) == db.orders.Keys by {
      forall o | o in db.orders ensures o in Together(db, STATUSES) { EveryStatusListed(db.orders[o].status); }
    }
  }

  lemma PointersHaveViews(settings: Settings, db: Db)
    requires StoreOk(settings, db)
    ensures db.orders.Keys <= db.views.Keys
  {
    forall o | o in db.orders ensures o in db.views {
      assert OrderOk(settings, db, o);
    }
  }

  /** So for the dashboard over any run of the worker. */
  lemma DashboardAddsUp(settings: Settings, steps: seq<Step>)
    requires settings.maxRetries >= 1
    ensures var s := AssembleSummary(Snapshot(RunTheorems.Reached(settings, steps)));
            s.orphanPointers == 0 && s.tracked == s.noActionNeeded + SumOver(s.byStatus, STATUSES)
  {
    RunTheorems.ReachedOk(settings, steps);
    hide StoreOk, Run, Snapshot;
    CountsAddUp(settings, RunTheorems.Reached(settings, steps));
  }
}
