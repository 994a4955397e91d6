/** What the reconcile engine promises about its inputs as a whole. */
module ReconcileLaws {
  import opened Models
  import opened Entries
  import opened ReconcileTool
  import opened Recheck
  import opened Refinement
  import opened Rows
  import opened StoreInvariant
  import opened Tables
  import opened Verdicts
  import Actions
  import Compare
  import Correlate
  import Engine
  import LogFacts
  import Text

  // ------------------------------------------------------------------
  // Orders do not influence each other
  // ------------------------------------------------------------------

  lemma {:induction false} GatewayOfOwn(g: seq<GatewayRow>, o: string)
    ensures forall r :: r in GatewayOf(g, o) <==> r in g && r.orderId == o
  {
    if g != [] {
      var n := |g| - 1;
      GatewayOfOwn(g[..n], o);
      assert g == g[..n] + [g[n]];
      GatewayAppend(g[..n], g[n], o);
    }
  }

  lemma {:induction false} GatewayOfSame(g: seq<GatewayRow>, o: string)
    requires forall r | r in g :: r.orderId == o
    ensures GatewayOf(g, o) == g
  {
    if g != [] {
      var n := |g| - 1;
      assert g == g[..n] + [g[n]];
      GatewayOfSame(g[..n], o);
    }
  }

  lemma {:induction false} MerchantOfOwn(m: seq<MerchantRow>, o: string)
    ensures forall r :: r in MerchantOf(m, o) <==> r in m && r.orderId == o
  {
    if m != [] {
      var n := |m| - 1;
      MerchantOfOwn(m[..n], o);
      assert m == m[..n] + [m[n]];
      MerchantAppend(m[..n], m[n], o);
    }
  }

  lemma {:induction false} MerchantOfSame(m: seq<MerchantRow>, o: string)
    requires forall r | r in m :: r.orderId == o
    ensures MerchantOf(m, o) == m
  {
    if m != [] {
      var n := |m| - 1;
      assert m == m[..n] + [m[n]];
      MerchantOfSame(m[..n], o);
    }
  }

  lemma {:induction false} OneOrderSeen(ids: seq<string>, o: string)
    requires ids != [] && forall i | 0 <= i < |ids| :: ids[i] == o
    ensures FirstSeen(ids) == [o]
  {
    var n := |ids| - 1;
    assert ids == ids[..n] + [ids[n]];
    if n > 0 {
      OneOrderSeen(ids[..n], o);
    }
  }

  /** Restricting both files to one order's rows leaves exactly that order's result. */
  lemma OrdersAreIndependent(g: seq<GatewayRow>, m: seq<MerchantRow>, k: nat, created: int, now: int)
    requires k < |FirstSeen(RowOrders(g, m))|
    ensures var o := FirstSeen(RowOrders(g, m))[k];
            Results(GatewayOf(g, o), MerchantOf(m, o), created, now) == [Results(g, m, created, now)[k]]
  {
    hide ResultFor, FirstSeen, RowOrders, GatewayOf, MerchantOf;
    var o := FirstSeen(RowOrders(g, m))[k];
    var g', m' := GatewayOf(g, o), MerchantOf(m, o);
    GatewayOfOwn(g, o);
    MerchantOfOwn(m, o);
    GatewayOfSame(g', o);
    MerchantOfSame(m', o);
    SeenHasRows(g, m, o);
    OwnRowsAreSeen(g', m', o);
  }

  lemma OwnRowsAreSeen(g: seq<GatewayRow>, m: seq<MerchantRow>, o: string)
    requires (forall r | r in g :: r.orderId == o) && (forall r | r in m :: r.orderId == o)
    requires g != [] || m != []
    ensures FirstSeen(RowOrders(g, m)) == [o]
  {
    var ids := RowOrders(g, m);
    forall i | 0 <= i < |ids| ensures ids[i] == o {
      if i < |g| { assert g[i] in g; } else { assert m[i - |g|] in m; }
    }
    OneOrderSeen(ids, o);
  }

  lemma SeenHasRows(g: seq<GatewayRow>, m: seq<MerchantRow>, o: string)
    ensures o in FirstSeen(RowOrders(g, m)) <==> GatewayOf(g, o) != [] || MerchantOf(m, o) != []
  {
    hide FirstSeen, GatewayOf, MerchantOf;
    GatewayOfOwn(g, o);
    MerchantOfOwn(m, o);
    var ids, g', m' := RowOrders(g, m), GatewayOf(g, o), MerchantOf(m, o);
    if g' != [] {
      assert g'[0] in g';
      var i :| 0 <= i < |g| && g[i] == g'[0];
      assert ids[i] == o;
    }
    if m' != [] {
      assert m'[0] in m';
      var i :| 0 <= i < |m| && m[i] == m'[0];
      assert ids[|g| + i] == o;
    }
    if o in ids {
      var i :| 0 <= i < |ids| && ids[i] == o;
      if i < |g| {
        assert g[i] in g';
      } else {
        assert m[i - |g|] in m';
      }
    }
  }

  // ------------------------------------------------------------------
  // No row is lost or counted twice
  // ------------------------------------------------------------------

  /** How many rows the listed orders have between them. */
  function RowCount(ids: seq<string>, g: seq<GatewayRow>, m: seq<MerchantRow>): nat {
    if ids == [] then 0
    else
      var n := |ids| - 1;
      RowCount(ids[..n], g, m) + |GatewayOf(g, ids[n])| + |MerchantOf(m, ids[n])|
  }

  lemma {:induction false} CountGateway(ids: seq<string>, g: seq<GatewayRow>, r: GatewayRow, m: seq<MerchantRow>)
    requires forall i, j | 0 <= i < j < |ids| :: ids[i] != ids[j]
    ensures RowCount(ids, g + [r], m) == RowCount(ids, g, m) + if r.orderId in ids then 1 else 0
  {
    hide GatewayOf, MerchantOf;
    if ids != [] {
      var n := |ids| - 1;
      CountGateway(ids[..n], g, r, m);
      GatewayAppend(g, r, ids[n]);
      assert ids == ids[..n] + [ids[n]];
    }
  }

  lemma {:induction false} CountMerchant(ids: seq<string>, g: seq<GatewayRow>, m: seq<MerchantRow>, r: MerchantRow)
    requires forall i, j | 0 <= i < j < |ids| :: ids[i] != ids[j]
    ensures RowCount(ids, g, m + [r]) == RowCount(ids, g, m) + if r.orderId in ids then 1 else 0
  {
    hide GatewayOf, MerchantOf;
    if ids != [] {
      var n := |ids| - 1;
      CountMerchant(ids[..n], g, m, r);
      MerchantAppend(m, r, ids[n]);
      assert ids == ids[..n] + [ids[n]];
    }
  }

  lemma {:induction false} CountAll(ids: seq<string>, g: seq<GatewayRow>, m: seq<MerchantRow>)
    requires forall i, j | 0 <= i < j < |ids| :: ids[i] != ids[j]
    requires (forall r | r in g :: r.orderId in ids) && (forall r | r in m :: r.orderId in ids)
    ensures RowCount(ids, g, m) == |g| + |m|
    decreases |g| + |m|
  {
    hide GatewayOf, MerchantOf, RowCount;
    if m != [] {
      var n := |m| - 1;
      CountAll(ids, g, m[..n]);
      CountMerchant(ids, g, m[..n], m[n]);
      assert m[..n] + [m[n]] == m;
    } else if g != [] {
      var n := |g| - 1;
      CountAll(ids, g[..n], m);
      CountGateway(ids, g[..n], g[n], m);
      assert g[..n] + [g[n]] == g;
    } else {
      CountNone(ids);
    }
  }

  lemma {:induction false} CountNone(ids: seq<string>)
    ensures RowCount(ids, [], []) == 0
  {
    if ids != [] {
      CountNone(ids[..|ids| - 1]);
    }
  }

  /** The orders that get a result account for every row of both files exactly once. */
  lemma RowsAreConserved(g: seq<GatewayRow>, m: seq<MerchantRow>)
    ensures RowCount(FirstSeen(RowOrders(g, m)), g, m) == |g| + |m|
  {
    hide RowCount, FirstSeen;
    var ids := RowOrders(g, m);
    forall r | r in g ensures r.orderId in ids {
      var i :| 0 <= i < |g| && g[i] == r;
      assert ids[i] == r.orderId;
    }
    forall r | r in m ensures r.orderId in ids {
      var i :| 0 <= i < |m| && m[i] == r;
      assert ids[|g| + i] == r.orderId;
    }
    CountAll(FirstSeen(ids), g, m);
  }

  lemma FileItemsInOrder(g: seq<GatewayRow>, m: seq<MerchantRow>, created: int)
    ensures InFileOrder(FileItems(g, m, created))
  {
    hide GatewayEvent, MerchantEvent;
  }

  /** An order's rows are replayed as a permutation sorted by the key chosen. */
  lemma RowsAreReplayedSorted(g: seq<GatewayRow>, m: seq<MerchantRow>, created: int)
    ensures var items := FileItems(g, m, created);
            && multiset(Arranged(items)) == multiset(items)
            && SortedByKey(Arranged(items), AllTimed(items))
  {
    FileItemsInOrder(g, m, created);
    hide FileItems;
    ByTimeSorts(FileItems(g, m, created));
  }

  /** Each row replayed leaves its own step in its order's trail; only the recheck adds one. */
  lemma TrailFollowsRows(o: string, g: seq<GatewayRow>, m: seq<MerchantRow>, created: int, now: int)
    ensures var trail, events := ResultFor(o, g, m, created, now).trail, EventsOfOrder(g, m, created);
            && |events| == |g| + |m|
            && |events| <= |trail| <= |events| + 1
            && (forall i | 0 <= i < |events| :: trail[i].eventId == Some(events[i].eventId))
            && (|trail| > |events| ==> trail[|events|].eventId.None?)
  {
    ReplayFollowsEvents(EventsOfOrder(g, m, created), now);
    RowsAreReplayedSorted(g, m, created);
    var items := FileItems(g, m, created);
    assert |Arranged(items)| == |multiset(Arranged(items))| == |items|;
    hide ReplayAll, EventsOfOrder, ToolRecheck, EvaluateRecheck, VerdictOf;
  }

  /** A recheck is simulated exactly for an order left pending, and its step tells what the
      view decides. */
  lemma RecheckTellsDecision(o: string, events: seq<Event>, now: int)
    requires !Text.Blank(o)
    ensures var trail, c := SimulateRecheck(o, ReplayAll(events, now), now).trail, ToolFold(events, now, DELAY);
            && |trail| == |events| + (if c.status == Some(PendingRecheck) then 1 else 0)
            && trail[..|events|] == ReplayAll(events, now).trail
            && (c.status == Some(PendingRecheck) ==>
                  var outcome := OutcomeOf(ViewIn(o, c));
                  && trail[|events|].action == ActionFor(outcome)
                  && trail[|events|].statusAfter == if outcome.Some? then outcome else Some(PendingRecheck))
  {
    var c := ToolFold(events, now, DELAY);
    ReplayFollowsEvents(events, now);
    if c.status == Some(PendingRecheck) {
      ToolRecheckOutcome(o, c, now, DELAY);
      RecheckOutcome(o, StatelessId(o), ViewIn(o, c), now + DELAY, DELAY);
      AbsentViewIsEmpty(o, c.view, now + DELAY, DELAY);
    }
    hide ReplayAll, ToolRecheck, EvaluateRecheck, ToolFold, OutcomeOf, Text.Blank;
  }

  /** The trail tells the decision on each row's event, taken on what the earlier ones left,
      and the status after it; then the recheck's. */
  lemma TrailTellsDecisions(o: string, g: seq<GatewayRow>, m: seq<MerchantRow>, created: int, now: int, i: nat)
    requires !Text.Blank(o)
    requires i < |ResultFor(o, g, m, created, now).trail|
    ensures var step, events := ResultFor(o, g, m, created, now).trail[i], EventsOfOrder(g, m, created);
            if i < |events| then
              var before := ToolFold(events[..i], now, DELAY);
              && step.action ==
                   Engine.EvaluateAgainst(events[i], before.view, before.status, now, DELAY).decision.action
              && step.statusAfter == ToolFold(events[..i + 1], now, DELAY).status
            else
              var c := ToolFold(events, now, DELAY);
              var outcome := OutcomeOf(ViewIn(o, c));
              && i == |events| && c.status == Some(PendingRecheck)
              && step.action == ActionFor(outcome)
              && step.statusAfter == if outcome.Some? then outcome else Some(PendingRecheck)
  {
    var events := EventsOfOrder(g, m, created);
    RecheckTellsDecision(o, events, now);
    if i < |events| {
      Verdicts.TrailTellsDecisions(events, now, i);
      var trail := SimulateRecheck(o, ReplayAll(events, now), now).trail;
      assert trail[..|events|][i] == trail[i];
    }
    hide ReplayAll, EventsOfOrder, SimulateRecheck, VerdictOf, ToolFold, Engine.EvaluateAgainst, OutcomeOf, Text.Blank;
  }

  lemma AbsentViewIsEmpty(o: string, view: Option<OrderView>, now: int, delay: int)
    ensures EvaluateRecheck(o, StatelessId(o), view, now, delay) ==
            EvaluateRecheck(o, StatelessId(o), Some(if view.Some? then view.value else EmptyView(o)), now, delay)
  {
    hide Engine.Evaluate;
    if view.None? { EngineDefaults(Synthetic(o, StatelessId(o), now), Some(Processing), now, delay); }
  }

  lemma EngineDefaults(e: Event, current: Option<ReconStatus>, now: int, delay: int)
    ensures Engine.Evaluate(e, None, current, now, delay, true) ==
            Engine.Evaluate(e, Some(EmptyView(e.orderId)), current, now, delay, true)
  {
    hide Correlate.Correlate, Compare.Assess, Actions.Decide;
  }

  // ------------------------------------------------------------------
  // summarize
  // ------------------------------------------------------------------

  datatype Bucket = Bucket(count: nat, amountPaise: int)

  const VERDICTS := {AutoCorrect, Consistent, FlaggedRisky, DisputedOrder, CorrelationFailed, Unresolved}

  function Paise(r: OrderResult): int {
    if r.amount.Some? then r.amount.value else 0
  }

  function Count(results: seq<OrderResult>, v: Verdict): nat {
    if results == [] then 0
    else Count(results[..|results| - 1], v) + if results[|results| - 1].verdict == v then 1 else 0
  }

  function Total(results: seq<OrderResult>, v: Verdict): int {
    if results == [] then 0
    else
      Total(results[..|results| - 1], v) +
      if results[|results| - 1].verdict == v then Paise(results[|results| - 1]) else 0
  }

  function GrandTotal(results: seq<OrderResult>): int {
    if results == [] then 0 else GrandTotal(results[..|results| - 1]) + Paise(results[|results| - 1])
  }

  /** Each result adds one to the count of its verdict, and its amount, if it has one, to the
      verdict's total and the grand total. */
  lemma OneMoreResult(results: seq<OrderResult>, r: OrderResult, v: Verdict)
    ensures var paise := match r.amount case Some(n) => n case None => 0;
            && Count(results + [r], v) == Count(results, v) + (if v == r.verdict then 1 else 0)
            && Total(results + [r], v) == Total(results, v) + (if v == r.verdict then paise else 0)
            && GrandTotal(results + [r]) == GrandTotal(results) + paise
    ensures Count([], v) == 0 && Total([], v) == 0 && GrandTotal([]) == 0
  {
    assert (results + [r])[..|results|] == results;
  }

  /** The buckets partition the results: counts and amounts add up. */
  lemma {:induction false} BucketsAddUp(results: seq<OrderResult>)
    ensures Count(results, AutoCorrect) + Count(results, Consistent) + Count(results, FlaggedRisky) +
            Count(results, DisputedOrder) + Count(results, CorrelationFailed) + Count(results, Unresolved) == |results|
    ensures Total(results, AutoCorrect) + Total(results, Consistent) + Total(results, FlaggedRisky) +
            Total(results, DisputedOrder) + Total(results, CorrelationFailed) + Total(results, Unresolved) ==
            GrandTotal(results)
  {
    if results != [] {
      BucketsAddUp(results[..|results| - 1]);
    }
  }

  lemma EveryVerdictListed(v: Verdict)
    ensures v in VERDICTS
  {
  }

  method Summarize(results: seq<OrderResult>) returns (orders: nat, amountPaise: int, byVerdict: map<Verdict, Bucket>)
    ensures orders == |results|
    ensures amountPaise == GrandTotal(results)
    ensures byVerdict.Keys == VERDICTS
    ensures forall v | v in VERDICTS :: byVerdict[v] == Bucket(Count(results, v), Total(results, v))
  {
    byVerdict := map v | v in VERDICTS :: Bucket(0, 0);
    var i := 0;
    while i < |results|
      invariant 0 <= i <= |results|
      invariant byVerdict.Keys == VERDICTS
      invariant forall v | v in VERDICTS :: byVerdict[v] == Bucket(Count(results[..i], v), Total(results[..i], v))
    {
      var v := results[i].verdict;
      EveryVerdictListed(v);
      var b := byVerdict[v];
      byVerdict := byVerdict[v := Bucket(b.count + 1, b.amountPaise + Paise(results[i]))];
      assert results[..i + 1][..i] == results[..i];
      i := i + 1;
    }
    assert results[..i] == results;
    orders := |results|;
    amountPaise := byVerdict[AutoCorrect].amountPaise + byVerdict[Consistent].amountPaise +
                   byVerdict[FlaggedRisky].amountPaise + byVerdict[DisputedOrder].amountPaise +
                   byVerdict[CorrelationFailed].amountPaise + byVerdict[Unresolved].amountPaise;
    BucketsAddUp(results);
  }

  // ------------------------------------------------------------------
  // The tool and the worker
  // ------------------------------------------------------------------

  predicate DistinctRows(g: seq<GatewayRow>, m: seq<MerchantRow>) {
    && (forall i, j | 0 <= i < j < |g| :: g[i].row != g[j].row)
    && (forall i, j | 0 <= i < j < |m| :: m[i].row != m[j].row)
  }

  lemma ItemEvents(g: seq<GatewayRow>, m: seq<MerchantRow>, created: int, o: string, i: nat, j: nat)
    requires (forall r | r in g :: GatewayRowOk(r) && r.orderId == o)
    requires (forall r | r in m :: MerchantRowOk(r) && r.orderId == o)
    requires DistinctRows(g, m)
    requires i < |g| + |m| && j < |g| + |m| && i != j
    ensures var items := FileItems(g, m, created);
            && LogFacts.EventOk(items[i].event) && items[i].event.orderId == o
            && items[i].event.eventId != items[j].event.eventId
  {
    var items := FileItems(g, m, created);
    ItemEvent(g, m, created, o, i);
    ItemEvent(g, m, created, o, j);
    RowIdsAreInjective(if i < |g| then g[i].row else m[i - |g|].row, if j < |g| then g[j].row else m[j - |g|].row);
    RowIdsAreInjective(if j < |g| then g[j].row else m[j - |g|].row, if i < |g| then g[i].row else m[i - |g|].row);
    hide GatewayEvent, MerchantEvent, GatewayId, MerchantId, LogFacts.EventOk, FileItems, GatewayRowOk, MerchantRowOk;
  }

  lemma GatewayItemEvent(g: seq<GatewayRow>, m: seq<MerchantRow>, created: int, i: nat)
    requires i < |g| && GatewayRowOk(g[i])
    ensures var e := FileItems(g, m, created)[i].event;
            LogFacts.EventOk(e) && e.orderId == g[i].orderId && e.eventId == GatewayId(g[i].row)
  {
    GatewayItem(g, m, created, i);
    GatewayRowBecomesEvent(g[i], created, 0);
    GatewayEventId(g[i], created);
    hide FileItems, GatewayEvent, GatewayId, LogFacts.EventOk;
  }

  lemma GatewayItem(g: seq<GatewayRow>, m: seq<MerchantRow>, created: int, i: nat)
    requires i < |g|
    ensures FileItems(g, m, created)[i].event == GatewayEvent(g[i], created)
  {
    hide GatewayEvent, MerchantEvent;
  }

  lemma GatewayEventId(r: GatewayRow, created: int)
    ensures GatewayEvent(r, created).eventId == GatewayId(r.row)
  {
    hide GatewayId;
  }

  lemma MerchantItemEvent(g: seq<GatewayRow>, m: seq<MerchantRow>, created: int, i: nat)
    requires i < |m| && MerchantRowOk(m[i])
    ensures var e := FileItems(g, m, created)[|g| + i].event;
            LogFacts.EventOk(e) && e.orderId == m[i].orderId && e.eventId == MerchantId(m[i].row)
  {
    MerchantItem(g, m, created, i);
    MerchantRowBecomesEvent(m[i], created, 0);
    MerchantEventId(m[i], created);
    hide FileItems, MerchantEvent, MerchantId, LogFacts.EventOk;
  }

  lemma MerchantItem(g: seq<GatewayRow>, m: seq<MerchantRow>, created: int, i: nat)
    requires i < |m|
    ensures FileItems(g, m, created)[|g| + i].event == MerchantEvent(m[i], created)
  {
    hide GatewayEvent, MerchantEvent;
  }

  lemma MerchantEventId(r: MerchantRow, created: int)
    ensures MerchantEvent(r, created).eventId == MerchantId(r.row)
  {
    hide MerchantId;
  }

  lemma ItemEvent(g: seq<GatewayRow>, m: seq<MerchantRow>, created: int, o: string, i: nat)
    requires (forall r | r in g :: GatewayRowOk(r) && r.orderId == o)
    requires (forall r | r in m :: MerchantRowOk(r) && r.orderId == o)
    requires i < |g| + |m|
    ensures var e := FileItems(g, m, created)[i].event;
            && LogFacts.EventOk(e) && e.orderId == o
            && e.eventId == if i < |g| then GatewayId(g[i].row) else MerchantId(m[i - |g|].row)
  {
    hide FileItems, GatewayRowOk, MerchantRowOk, LogFacts.EventOk, GatewayId, MerchantId;
    if i < |g| {
      GatewayItemEvent(g, m, created, i);
    } else {
      MerchantItemEvent(g, m, created, i - |g|);
    }
  }

  lemma ReplayedIds(items: seq<Item>)
    requires InFileOrder(items)
    requires forall i, j | 0 <= i < |items| && 0 <= j < |items| && i != j ::
               items[i].event.eventId != items[j].event.eventId
    ensures |Arranged(items)| == |items| && forall x | x in Arranged(items) :: x in items
    ensures forall i, j | 0 <= i < j < |items| ::
              Arranged(items)[i].event.eventId != Arranged(items)[j].event.eventId
  {
    ByTimeSorts(items);
    var arranged := Arranged(items);
    assert |arranged| == |multiset(arranged)| == |items|;
    hide Arranged, KeyBefore;
    forall x | x in arranged ensures x in items {
      assert x in multiset(items);
    }
    forall i, j | 0 <= i < j < |items|
      ensures arranged[i].event.eventId != arranged[j].event.eventId
    {
      assert arranged[i] in items && arranged[j] in items;
      var k :| 0 <= k < |items| && items[k] == arranged[i];
      var l :| 0 <= l < |items| && items[l] == arranged[j];
      assert KeyBefore(arranged[i], arranged[j], AllTimed(items));
      KeyIsStrictOrder(arranged[i], arranged[j], AllTimed(items));
    }
  }

  /** The events of one order's rows are fresh to a store that never saw them. */
  lemma RowEventsAreFresh(db: Db, o: string, g: seq<GatewayRow>, m: seq<MerchantRow>, created: int)
    requires (forall r | r in g :: GatewayRowOk(r) && r.orderId == o)
    requires (forall r | r in m :: MerchantRowOk(r) && r.orderId == o)
    requires DistinctRows(g, m)
    requires forall n: nat :: !Logged(db.audit, GatewayId(n)) && !Logged(db.audit, MerchantId(n))
    ensures FreshEvents(db, o, EventsOfOrder(g, m, created))
  {
    hide GatewayEvent, MerchantEvent, GatewayId, MerchantId, LogFacts.EventOk, Logged, GatewayRowOk, MerchantRowOk,
         Arranged, FileItems, InFileOrder;
    var items := FileItems(g, m, created);
    FileItemsInOrder(g, m, created);
    forall i: nat, j: nat | i < |items| && j < |items| && i != j
      ensures items[i].event.eventId != items[j].event.eventId
    {
      ItemEvents(g, m, created, o, i, j);
    }
    ReplayedIds(items);
    var events := EventsOfOrder(g, m, created);
    forall i | 0 <= i < |events|
      ensures LogFacts.EventOk(events[i]) && events[i].orderId == o && !Logged(db.audit, events[i].eventId)
    {
      var x := Arranged(items)[i];
      assert x in items;
      var k :| 0 <= k < |items| && items[k] == x;
      ItemEvent(g, m, created, o, k);
    }
  }

  /** Feed one order's rows to a worker that never saw the order, then recheck until it is
      no longer pending: the pointer rests where the reported verdict says. */
  lemma ReportMatchesWorker(settings: Settings, db: Db, o: string, g: seq<GatewayRow>, m: seq<MerchantRow>,
                            nows: seq<int>, times: seq<(int, int)>, created: int, now: int)
    requires (forall r | r in g :: GatewayRowOk(r) && r.orderId == o)
    requires (forall r | r in m :: MerchantRowOk(r) && r.orderId == o)
    requires DistinctRows(g, m)
    requires StoreOk(settings, db) && o !in db.views && !Text.Blank(o)
    requires forall n: nat :: !Logged(db.audit, GatewayId(n)) && !Logged(db.audit, MerchantId(n))
    requires |nows| == |EventsOfOrder(g, m, created)| && |times| >= settings.maxRetries
    ensures var events := EventsOfOrder(g, m, created);
            var rest := StatusOf(RowOf(DriveRechecks(settings, Consume(settings, db, events, nows), o, times), o));
            var verdict := ResultFor(o, g, m, created, now).verdict;
            && (verdict == DisputedOrder <==> rest == Some(Disputed))
            && (verdict == AutoCorrect ==> rest == Some(ResolvedAutocorrected))
            && (verdict == Consistent ==> rest in {None, Some(ResolvedNaturally)})
            && (rest == Some(ResolvedAutocorrected) ==> verdict in {AutoCorrect, FlaggedRisky, CorrelationFailed})
            && (rest == Some(ResolvedNaturally) ==> verdict in {Consistent, FlaggedRisky, CorrelationFailed})
            && (rest == Some(DeadLetter) ==> verdict in {Unresolved, FlaggedRisky, CorrelationFailed})
  {
    var events := EventsOfOrder(g, m, created);
    RowEventsAreFresh(db, o, g, m, created);
    hide StoreOk, EventsOfOrder, FreshEvents, Consume, DriveRechecks, ReplayAll, SimulateRecheck, VerdictOf,
         Text.Blank, Logged, GatewayRowOk, MerchantRowOk;
    VerdictMatchesWorker(settings, db, o, events, nows, times, now, g != [], m != []);
  }
}
