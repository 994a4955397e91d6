/** The stateless reconcile engine: gather both files' rows by order, replay each order,
and conclude. */
module ReconcileTool {
  import opened Models
  import opened Entries
  import opened Normalize
  import opened Recheck
  import opened Refinement
  import opened Rows
  import opened Text
  import opened Verdicts
  import Engine

  datatype OrderResult = OrderResult(
    orderId: string,
    verdict: Verdict,
    gatewayStatus: Option<string>,
    merchantStatus: Option<string>,
    amount: Option<int>,
    currency: Option<string>,
    check: Option<CorrelationFailure>,
    trail: seq<TrailStep>)

  // ------------------------------------------------------------------
  // One order, from its own rows alone
  // ------------------------------------------------------------------

  function GatewayOf(rows: seq<GatewayRow>, orderId: string): seq<GatewayRow> {
    if rows == [] then []
    else
      var n := |rows| - 1;
      GatewayOf(rows[..n], orderId) + if rows[n].orderId == orderId then [rows[n]] else []
  }

  function MerchantOf(rows: seq<MerchantRow>, orderId: string): seq<MerchantRow> {
    if rows == [] then []
    else
      var n := |rows| - 1;
      MerchantOf(rows[..n], orderId) + if rows[n].orderId == orderId then [rows[n]] else []
  }

  /** Gateway rows, then merchant rows, in file order. */
  function FileItems(g: seq<GatewayRow>, m: seq<MerchantRow>, created: int): (items: seq<Item>)
    ensures |items| == |g| + |m|
  {
    seq(|g| + |m|, k requires 0 <= k < |g| + |m| =>
      if k < |g| then Item(0, k, g[k].eventTime, GatewayEvent(g[k], created))
      else Item(1, k - |g|, m[k - |g|].eventTime, MerchantEvent(m[k - |g|], created)))
  }

  function EventsOfOrder(g: seq<GatewayRow>, m: seq<MerchantRow>, created: int): seq<Event> {
    Events(Arranged(FileItems(g, m, created)))
  }

  function FirstAmount(m: seq<MerchantRow>): Option<int> {
    if m == [] then None
    else
      var before := FirstAmount(m[..|m| - 1]);
      if before.Some? then before else m[|m| - 1].amount
  }

  function FirstCurrency(m: seq<MerchantRow>): Option<string> {
    if m == [] then None
    else
      var before := FirstCurrency(m[..|m| - 1]);
      if before.Some? then before
      else if Truthy(m[|m| - 1].currency) then m[|m| - 1].currency else None
  }

  function StatedAmount(g: seq<GatewayRow>, m: seq<MerchantRow>): Option<int> {
    if g != [] then Some(g[0].amount) else FirstAmount(m)
  }

  function StatedCurrency(g: seq<GatewayRow>, m: seq<MerchantRow>): Option<string> {
    if g != [] then Some(g[0].currency) else FirstCurrency(m)
  }

  function ViewAmount(view: Option<OrderView>): Option<int> {
    if view.Some? then view.value.razorpayAmount else None
  }

  function ResultFor(orderId: string, g: seq<GatewayRow>, m: seq<MerchantRow>, created: int, now: int): OrderResult {
    var r := SimulateRecheck(orderId, ReplayAll(EventsOfOrder(g, m, created), now), now);
    OrderResult(orderId,
                VerdictOf(r, g != [], m != []),
                if g != [] then Some(g[|g| - 1].status) else None,
                if m != [] then Some(m[|m| - 1].status) else None,
                if ViewAmount(r.carried.view).Some? then ViewAmount(r.carried.view) else StatedAmount(g, m),
                StatedCurrency(g, m),
                r.check,
                r.trail)
  }

  // ------------------------------------------------------------------
  // The orders, in the order first seen
  // ------------------------------------------------------------------

  function RowOrders(gateway: seq<GatewayRow>, merchant: seq<MerchantRow>): (ids: seq<string>)
    ensures |ids| == |gateway| + |merchant|
    ensures forall k | 0 <= k < |gateway| :: ids[k] == gateway[k].orderId
    ensures forall k | 0 <= k < |merchant| :: ids[|gateway| + k] == merchant[k].orderId
  {
    seq(|gateway| + |merchant|, k requires 0 <= k < |gateway| + |merchant| =>
      if k < |gateway| then gateway[k].orderId else merchant[k - |gateway|].orderId)
  }

  function FirstSeen(ids: seq<string>): (seen: seq<string>)
    ensures forall o :: o in seen <==> o in ids
    ensures forall i, j | 0 <= i < j < |seen| :: seen[i] != seen[j]
  {
    if ids == [] then []
    else
      var n := |ids| - 1;
      var before := FirstSeen(ids[..n]);
      assert ids == ids[..n] + [ids[n]];
      if ids[n] in before then before else before + [ids[n]]
  }

  /** One result per distinct order id, in the order first seen, each the function of that
      order's own rows alone. */
  function Results(gateway: seq<GatewayRow>, merchant: seq<MerchantRow>, created: int, now: int): seq<OrderResult> {
    var ids := FirstSeen(RowOrders(gateway, merchant));
    seq(|ids|, k requires 0 <= k < |ids| =>
      ResultFor(ids[k], GatewayOf(gateway, ids[k]), MerchantOf(merchant, ids[k]), created, now))
  }

  // ------------------------------------------------------------------
  // What the dictionaries hold after some rows of each file
  // ------------------------------------------------------------------

  function Lookup<T>(table: map<string, T>, orderId: string): Option<T> {
    if orderId in table then Some(table[orderId]) else None
  }

  predicate IndexedBelow(items: seq<Item>, gateway: nat, merchant: nat) {
    forall i | 0 <= i < |items| ::
      items[i].rank <= 1 && items[i].index < if items[i].rank == 0 then gateway else merchant
  }

  ghost predicate ItemsHold(items: map<string, seq<Item>>, g: seq<GatewayRow>, m: seq<MerchantRow>, created: int) {
    forall o: string ::
      && (o in items <==> GatewayOf(g, o) != [] || MerchantOf(m, o) != [])
      && (o in items ==>
            && InFileOrder(items[o]) && IndexedBelow(items[o], |g|, |m|)
            && SameRows(items[o], FileItems(GatewayOf(g, o), MerchantOf(m, o), created)))
  }

  ghost predicate GatewayHolds(status: map<string, string>, amount: map<string, int>, g: seq<GatewayRow>) {
    forall o: string ::
      var own := GatewayOf(g, o);
      && Lookup(status, o) == (if own != [] then Some(own[|own| - 1].status) else None)
      && Lookup(amount, o) == (if own != [] then Some(own[0].amount) else None)
  }

  ghost predicate MerchantHolds(status: map<string, string>, amount: map<string, int>, m: seq<MerchantRow>) {
    forall o: string ::
      var own := MerchantOf(m, o);
      && Lookup(status, o) == (if own != [] then Some(own[|own| - 1].status) else None)
      && Lookup(amount, o) == FirstAmount(own)
  }

  ghost predicate CurrencyHolds(currency: map<string, string>, g: seq<GatewayRow>, m: seq<MerchantRow>) {
    forall o: string :: Lookup(currency, o) == StatedCurrency(GatewayOf(g, o), MerchantOf(m, o))
  }

  lemma GatewayAppend(g: seq<GatewayRow>, r: GatewayRow, o: string)
    ensures GatewayOf(g + [r], o) == GatewayOf(g, o) + if r.orderId == o then [r] else []
  {
    assert (g + [r])[..|g|] == g;
  }

  lemma MerchantAppend(m: seq<MerchantRow>, r: MerchantRow, o: string)
    ensures MerchantOf(m + [r], o) == MerchantOf(m, o) + if r.orderId == o then [r] else []
  {
    assert (m + [r])[..|m|] == m;
  }

  lemma FirstsAppend(m: seq<MerchantRow>, r: MerchantRow)
    ensures FirstAmount(m + [r]) == if FirstAmount(m).Some? then FirstAmount(m) else r.amount
    ensures FirstCurrency(m + [r]) == if FirstCurrency(m).Some? then FirstCurrency(m)
                                      else if Truthy(r.currency) then r.currency else None
  {
    assert (m + [r])[..|m|] == m;
  }

  /** `items.setdefault(order_id, []).append(item)` */
  function Filed(items: map<string, seq<Item>>, orderId: string, item: Item): map<string, seq<Item>> {
    items[orderId := (if orderId in items then items[orderId] else []) + [item]]
  }

  lemma AppendItem(items: seq<Item>, item: Item, gateway: nat, merchant: nat)
    requires InFileOrder(items) && IndexedBelow(items, gateway, merchant)
    requires if item.rank == 0 then item.index == gateway && merchant == 0 else item.rank == 1 && item.index == merchant
    ensures InFileOrder(items + [item])
    ensures IndexedBelow(items + [item], if item.rank == 0 then gateway + 1 else gateway,
                         if item.rank == 0 then merchant else merchant + 1)
  {
  }

  lemma SameRowsAppend(a: seq<Item>, b: seq<Item>, x: Item, y: Item)
    requires SameRows(a, b) && SameRow(x, y)
    ensures SameRows(a + [x], b + [y])
  {
  }

  lemma GatewayItemsAppend(g: seq<GatewayRow>, r: GatewayRow, created: int)
    ensures FileItems(g + [r], [], created) ==
            FileItems(g, [], created) + [Item(0, |g|, r.eventTime, GatewayEvent(r, created))]
  {
    hide GatewayEvent, MerchantEvent;
  }

  lemma MerchantItemsAppend(g: seq<GatewayRow>, m: seq<MerchantRow>, r: MerchantRow, created: int)
    ensures FileItems(g, m + [r], created) ==
            FileItems(g, m, created) + [Item(1, |m|, r.eventTime, MerchantEvent(r, created))]
  {
    hide GatewayEvent, MerchantEvent;
  }

  lemma FileGateway(items: map<string, seq<Item>>, g: seq<GatewayRow>, r: GatewayRow, created: int)
    requires ItemsHold(items, g, [], created)
    ensures ItemsHold(Filed(items, r.orderId, Item(0, |g|, r.eventTime, GatewayEvent(r, created))), g + [r], [],
                      created)
  {
    hide GatewayEvent, MerchantEvent, FileItems, InFileOrder, SameRows;
    var item := Item(0, |g|, r.eventTime, GatewayEvent(r, created));
    var items' := Filed(items, r.orderId, item);
    forall o: string
      ensures o in items' <==> GatewayOf(g + [r], o) != [] || MerchantOf([], o) != []
      ensures o in items' ==>
                && InFileOrder(items'[o]) && IndexedBelow(items'[o], |g| + 1, 0)
                && SameRows(items'[o], FileItems(GatewayOf(g + [r], o), MerchantOf([], o), created))
    {
      GatewayAppend(g, r, o);
      assert GatewayOf(g, o) + [] == GatewayOf(g, o);
      if o == r.orderId {
        NoItems(created);
        var before := if o in items then items[o] else [];
        AppendItem(before, item, |g|, 0);
        GatewayItemsAppend(GatewayOf(g, o), r, created);
        SameRowsAppend(before, FileItems(GatewayOf(g, o), [], created), item,
                       item.(index := |GatewayOf(g, o)|));
      }
    }
  }

  lemma NoItems(created: int)
    ensures InFileOrder([]) && SameRows([], FileItems([], [], created))
  {
  }

  lemma FileMerchant(items: map<string, seq<Item>>, g: seq<GatewayRow>, m: seq<MerchantRow>, r: MerchantRow,
                     created: int)
    requires ItemsHold(items, g, m, created)
    ensures ItemsHold(Filed(items, r.orderId, Item(1, |m|, r.eventTime, MerchantEvent(r, created))), g, m + [r],
                      created)
  {
    hide GatewayEvent, MerchantEvent, FileItems, InFileOrder, SameRows;
    var item := Item(1, |m|, r.eventTime, MerchantEvent(r, created));
    var items' := Filed(items, r.orderId, item);
    forall o: string
      ensures o in items' <==> GatewayOf(g, o) != [] || MerchantOf(m + [r], o) != []
      ensures o in items' ==>
                && InFileOrder(items'[o]) && IndexedBelow(items'[o], |g|, |m| + 1)
                && SameRows(items'[o], FileItems(GatewayOf(g, o), MerchantOf(m + [r], o), created))
    {
      MerchantAppend(m, r, o);
      assert MerchantOf(m, o) + [] == MerchantOf(m, o);
      if o == r.orderId {
        NoItems(created);
        var before := if o in items then items[o] else [];
        AppendItem(before, item, |g|, |m|);
        MerchantItemsAppend(GatewayOf(g, o), MerchantOf(m, o), r, created);
        SameRowsAppend(before, FileItems(GatewayOf(g, o), MerchantOf(m, o), created), item,
                       item.(index := |MerchantOf(m, o)|));
      }
    }
  }

  lemma SeenSnoc(ids: seq<string>, o: string)
    ensures FirstSeen(ids + [o]) == if o in FirstSeen(ids) then FirstSeen(ids) else FirstSeen(ids) + [o]
  {
    assert (ids + [o])[..|ids|] == ids;
  }

  lemma GatewaySeen(g: seq<GatewayRow>, r: GatewayRow)
    ensures FirstSeen(RowOrders(g + [r], [])) ==
            var seen := FirstSeen(RowOrders(g, [])); if r.orderId in seen then seen else seen + [r.orderId]
  {
    SeenSnoc(RowOrders(g, []), r.orderId);
    assert RowOrders(g + [r], []) == RowOrders(g, []) + [r.orderId];
  }

  lemma MerchantSeen(g: seq<GatewayRow>, m: seq<MerchantRow>, r: MerchantRow)
    ensures FirstSeen(RowOrders(g, m + [r])) ==
            var seen := FirstSeen(RowOrders(g, m)); if r.orderId in seen then seen else seen + [r.orderId]
  {
    SeenSnoc(RowOrders(g, m), r.orderId);
    assert RowOrders(g, m + [r]) == RowOrders(g, m) + [r.orderId];
  }

  lemma GatewayRecorded(status: map<string, string>, amount: map<string, int>, currency: map<string, string>,
                        g: seq<GatewayRow>, r: GatewayRow)
    requires GatewayHolds(status, amount, g) && CurrencyHolds(currency, g, [])
    ensures GatewayHolds(status[r.orderId := r.status], SetDefault(amount, r.orderId, r.amount), g + [r])
    ensures CurrencyHolds(SetDefault(currency, r.orderId, r.currency), g + [r], [])
  {
    forall o: string
      ensures var own := GatewayOf(g + [r], o);
              && Lookup(status[r.orderId := r.status], o) ==
                   (if own != [] then Some(own[|own| - 1].status) else None)
              && Lookup(SetDefault(amount, r.orderId, r.amount), o) ==
                   (if own != [] then Some(own[0].amount) else None)
              && Lookup(SetDefault(currency, r.orderId, r.currency), o) == StatedCurrency(own, MerchantOf([], o))
    {
      GatewayAppend(g, r, o);
      assert Lookup(status, o) == Lookup(status, o) && Lookup(currency, o) == Lookup(currency, o);
      assert GatewayOf(g, o) + [] == GatewayOf(g, o);
    }
  }

  /** `table.setdefault(key, value)` */
  function SetDefault<T>(table: map<string, T>, key: string, value: T): map<string, T> {
    if key in table then table else table[key := value]
  }

  lemma MerchantRecorded(status: map<string, string>, amount: map<string, int>, currency: map<string, string>,
                         g: seq<GatewayRow>, m: seq<MerchantRow>, r: MerchantRow)
    requires MerchantHolds(status, amount, m) && CurrencyHolds(currency, g, m)
    ensures MerchantHolds(status[r.orderId := r.status],
                          if r.amount.Some? then SetDefault(amount, r.orderId, r.amount.value) else amount, m + [r])
    ensures CurrencyHolds(if Truthy(r.currency) then SetDefault(currency, r.orderId, r.currency.value) else currency,
                          g, m + [r])
  {
    hide StatedCurrency, FirstAmount, FirstCurrency, Truthy, MerchantOf, GatewayOf;
    var amount' := if r.amount.Some? then SetDefault(amount, r.orderId, r.amount.value) else amount;
    forall o: string
      ensures var own := MerchantOf(m + [r], o);
              && Lookup(status[r.orderId := r.status], o) ==
                   (if own != [] then Some(own[|own| - 1].status) else None)
              && Lookup(amount', o) == FirstAmount(own)
    {
      MerchantAppend(m, r, o);
      FirstsAppend(MerchantOf(m, o), r);
      assert Lookup(status, o) == Lookup(status, o);
      assert MerchantOf(m, o) + [] == MerchantOf(m, o);
    }
    MerchantCurrencyRecorded(currency, g, m, r);
  }

  lemma MerchantCurrencyRecorded(currency: map<string, string>, g: seq<GatewayRow>, m: seq<MerchantRow>,
                                 r: MerchantRow)
    requires CurrencyHolds(currency, g, m)
    ensures CurrencyHolds(if Truthy(r.currency) then SetDefault(currency, r.orderId, r.currency.value) else currency,
                          g, m + [r])
  {
    hide FirstAmount, FirstCurrency, MerchantOf, GatewayOf;
    forall o: string
      ensures Lookup(if Truthy(r.currency) then SetDefault(currency, r.orderId, r.currency.value) else currency, o) ==
              StatedCurrency(GatewayOf(g, o), MerchantOf(m + [r], o))
    {
      MerchantAppend(m, r, o);
      FirstsAppend(MerchantOf(m, o), r);
      assert Lookup(currency, o) == Lookup(currency, o);
      assert MerchantOf(m, o) + [] == MerchantOf(m, o);
    }
  }

  // ------------------------------------------------------------------
  // reconcile
  // ------------------------------------------------------------------

  /** The inner loop: evaluate each event against what the earlier ones left. */
  method ReplayEntries(entries: seq<Item>, now: int) returns (r: Replay)
    ensures r == ReplayAll(Events(entries), now)
  {
    hide Engine.EvaluateAgainst;
    var view: Option<OrderView>, status: Option<ReconStatus> := None, None;
    var trail: seq<TrailStep> := [];
    var check: Option<CorrelationFailure> := None;
    var risky := false;
    var j := 0;
    while j < |entries|
      invariant 0 <= j <= |entries|
      invariant Replay(Carried(view, status), check, risky, trail) == ReplayAll(Events(entries[..j]), now)
    {
      var event := entries[j].event;
      var res := Engine.EvaluateAgainst(event, view, status, now, DELAY);
      var d := res.decision;
      view := Some(res.view);
      if d.newStatus.Some? {
        status := d.newStatus;
      }
      if d.action == FlagForReview && d.review.Some? {
        if IsCheck(d.review.value.reason) && check.None? {
          check := Some(d.review.value.reason.failure);
        }
        if d.review.value.reason == UnsafeDriftReview {
          risky := true;
        }
      }
      trail := trail + [TrailStep(Some(event.eventId), d.action, status)];
      EventsPrefix(entries, j);
      j := j + 1;
    }
    assert entries[..j] == entries;
    r := Replay(Carried(view, status), check, risky, trail);
  }

  lemma EventsPrefix(entries: seq<Item>, j: nat)
    requires j < |entries|
    ensures Events(entries[..j + 1])[..j] == Events(entries[..j])
    ensures |Events(entries[..j + 1])| == j + 1 && Events(entries[..j + 1])[j] == entries[j].event
  {
  }

  /** The results, provided every row is one the parser lets through. */
  method Reconcile(gateway: seq<GatewayRow>, merchant: seq<MerchantRow>, created: int, now: int)
    returns (results: seq<OrderResult>)
    requires forall r | r in gateway :: GatewayRowOk(r)
    requires forall r | r in merchant :: MerchantRowOk(r)
    ensures results == Results(gateway, merchant, created, now)
  {
    hide GatewayEvent, MerchantEvent, EnvelopeToEvent, GatewayEnvelope, MerchantEnvelope, ReplayAll, FirstSeen,
         SimulateRecheck, ItemsHold, GatewayHolds, MerchantHolds, CurrencyHolds, VerdictOf, GatewayRowOk,
         MerchantRowOk, StatedAmount, StatedCurrency, FirstAmount, GatewayOf, MerchantOf, ResultFor, SetDefault,
         RowOrders;
    var items: map<string, seq<Item>> := map[];
    var orderSeen: seq<string> := [];
    var gwStatus, mcStatus, currency: map<string, string> := map[], map[], map[];
    var gwAmount, mcAmount: map<string, int> := map[], map[];
    NothingGathered(created);
    var i := 0;
    while i < |gateway|
      invariant 0 <= i <= |gateway|
      invariant ItemsHold(items, gateway[..i], [], created)
      invariant forall o :: o in orderSeen <==> o in items
      invariant orderSeen == FirstSeen(RowOrders(gateway[..i], []))
      invariant GatewayHolds(gwStatus, gwAmount, gateway[..i])
      invariant CurrencyHolds(currency, gateway[..i], [])
    {
      var r := gateway[i];
      GatewayRowBecomesEvent(r, created, now);
      var event := EnvelopeToEvent(GatewayEnvelope(r, created), now).value;
      assert gateway[..i + 1] == gateway[..i] + [r];
      FileGateway(items, gateway[..i], r, created);
      GatewaySeen(gateway[..i], r);
      GatewayRecorded(gwStatus, gwAmount, currency, gateway[..i], r);
      if r.orderId !in items {
        orderSeen := orderSeen + [r.orderId];
      }
      items := Filed(items, r.orderId, Item(0, i, r.eventTime, event));
      gwStatus := gwStatus[r.orderId := r.status];
      gwAmount := SetDefault(gwAmount, r.orderId, r.amount);
      currency := SetDefault(currency, r.orderId, r.currency);
      i := i + 1;
    }
    assert gateway[..i] == gateway;
    i := 0;
    while i < |merchant|
      invariant 0 <= i <= |merchant|
      invariant ItemsHold(items, gateway, merchant[..i], created)
      invariant forall o :: o in orderSeen <==> o in items
      invariant orderSeen == FirstSeen(RowOrders(gateway, merchant[..i]))
      invariant MerchantHolds(mcStatus, mcAmount, merchant[..i])
      invariant CurrencyHolds(currency, gateway, merchant[..i])
    {
      var r := merchant[i];
      MerchantRowBecomesEvent(r, created, now);
      var event := EnvelopeToEvent(MerchantEnvelope(r, created), now).value;
      assert merchant[..i + 1] == merchant[..i] + [r];
      FileMerchant(items, gateway, merchant[..i], r, created);
      MerchantSeen(gateway, merchant[..i], r);
      MerchantRecorded(mcStatus, mcAmount, currency, gateway, merchant[..i], r);
      if r.orderId !in items {
        orderSeen := orderSeen + [r.orderId];
      }
      items := Filed(items, r.orderId, Item(1, i, r.eventTime, event));
      mcStatus := mcStatus[r.orderId := r.status];
      if r.amount.Some? {
        mcAmount := SetDefault(mcAmount, r.orderId, r.amount.value);
      }
      if Truthy(r.currency) {
        currency := SetDefault(currency, r.orderId, r.currency.value);
      }
      i := i + 1;
    }
    assert merchant[..i] == merchant;
    results := ReconcileEach(orderSeen, items, gwStatus, mcStatus, gwAmount, mcAmount, currency, now, gateway,
                             merchant, created);
  }

  /** The outer loop, one turn per order. */
  method ReconcileEach(orderSeen: seq<string>, items: map<string, seq<Item>>, gwStatus: map<string, string>,
                       mcStatus: map<string, string>, gwAmount: map<string, int>, mcAmount: map<string, int>,
                       currency: map<string, string>, now: int, ghost gateway: seq<GatewayRow>,
                       ghost merchant: seq<MerchantRow>, ghost created: int)
    returns (results: seq<OrderResult>)
    requires forall o | o in orderSeen :: o in items
    requires ItemsHold(items, gateway, merchant, created)
    requires GatewayHolds(gwStatus, gwAmount, gateway) && MerchantHolds(mcStatus, mcAmount, merchant)
    requires CurrencyHolds(currency, gateway, merchant)
    ensures |results| == |orderSeen|
    ensures forall k | 0 <= k < |orderSeen| ::
              results[k] == ResultFor(orderSeen[k], GatewayOf(gateway, orderSeen[k]),
                                      MerchantOf(merchant, orderSeen[k]), created, now)
  {
    hide ItemsHold, GatewayHolds, MerchantHolds, CurrencyHolds, GatewayOf, MerchantOf, ResultFor;
    results := [];
    var i := 0;
    while i < |orderSeen|
      invariant 0 <= i <= |orderSeen| && |results| == i
      invariant forall k | 0 <= k < i ::
                  results[k] == ResultFor(orderSeen[k], GatewayOf(gateway, orderSeen[k]),
                                          MerchantOf(merchant, orderSeen[k]), created, now)
    {
      var result := ReconcileOrder(orderSeen[i], items, gwStatus, mcStatus, gwAmount, mcAmount, currency, now,
                                   gateway, merchant, created);
      results := results + [result];
      i := i + 1;
    }
  }

  lemma NothingGathered(created: int)
    ensures ItemsHold(map[], [], [], created)
    ensures GatewayHolds(map[], map[], []) && MerchantHolds(map[], map[], []) && CurrencyHolds(map[], [], [])
    ensures FirstSeen(RowOrders([], [])) == []
  {
  }

  /** One turn of the outer loop: sort the order's entries, replay them, recheck, conclude. */
  method ReconcileOrder(orderId: string, items: map<string, seq<Item>>, gwStatus: map<string, string>,
                        mcStatus: map<string, string>, gwAmount: map<string, int>, mcAmount: map<string, int>,
                        currency: map<string, string>, now: int, ghost gateway: seq<GatewayRow>,
                        ghost merchant: seq<MerchantRow>, ghost created: int)
    returns (result: OrderResult)
    requires orderId in items
    requires ItemsHold(items, gateway, merchant, created)
    requires GatewayHolds(gwStatus, gwAmount, gateway) && MerchantHolds(mcStatus, mcAmount, merchant)
    requires CurrencyHolds(currency, gateway, merchant)
    ensures result == ResultFor(orderId, GatewayOf(gateway, orderId), MerchantOf(merchant, orderId), created, now)
  {
    hide ReplayAll, SimulateRecheck, FileItems, VerdictOf, FirstAmount, FirstCurrency, GatewayOf, MerchantOf,
         InFileOrder, Arranged;
    var entries := items[orderId];
    entries := SortByKey(entries, AllTimed(entries));
    ArrangedIsTheSort(items[orderId], entries);
    ArrangedSameRows(items[orderId],
                     FileItems(GatewayOf(gateway, orderId), MerchantOf(merchant, orderId), created));
    var r := ReplayEntries(entries, now);
    r := SimulateRecheck(orderId, r, now);
    var verdict := VerdictOf(r, orderId in gwStatus, orderId in mcStatus);
    var amount := ViewAmount(r.carried.view);
    if amount.None? {
      amount := if orderId in gwAmount then Some(gwAmount[orderId]) else Lookup(mcAmount, orderId);
    }
    assert Lookup(gwStatus, orderId).Some? <==> orderId in gwStatus;
    assert Lookup(mcStatus, orderId).Some? <==> orderId in mcStatus;
    assert Lookup(gwAmount, orderId).Some? <==> orderId in gwAmount;
    result := OrderResult(orderId, verdict, Lookup(gwStatus, orderId), Lookup(mcStatus, orderId), amount,
                          Lookup(currency, orderId), r.check, r.trail);
  }
}
