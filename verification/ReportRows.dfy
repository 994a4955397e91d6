/** What a report says of an order, read off the rows of the two files. */
module ReportRows {
  import opened Models
  import opened Entries
  import opened FinalRecords
  import opened ReconcileTool
  import opened Recheck
  import opened Refinement
  import opened Rows
  import opened Text
  import opened Verdicts
  import opened ViewFold
  import Correlate
  import Engine
  import LogFacts
  import ReconcileLaws
  import VerdictCases

  // ------------------------------------------------------------------
  // The rows of one order
  // ------------------------------------------------------------------

  predicate Increasing(places: seq<nat>) {
    forall i, j | 0 <= i < j < |places| :: places[i] < places[j]
  }

  /** An order's rows are all the rows of the file that carry its id, in file order. */
  lemma {:induction false} GatewayPlaces(g: seq<GatewayRow>, o: string) returns (places: seq<nat>)
    ensures Increasing(places) && |places| == |GatewayOf(g, o)|
    ensures forall k | 0 <= k < |places| ::
              places[k] < |g| && g[places[k]].orderId == o && GatewayOf(g, o)[k] == g[places[k]]
    ensures forall i | 0 <= i < |g| && g[i].orderId == o :: i in places
  {
    places := [];
    if g != [] {
      var n := |g| - 1;
      places := GatewayPlaces(g[..n], o);
      if g[n].orderId == o { places := places + [n]; }
    }
  }

  lemma {:induction false} MerchantPlaces(m: seq<MerchantRow>, o: string) returns (places: seq<nat>)
    ensures Increasing(places) && |places| == |MerchantOf(m, o)|
    ensures forall k | 0 <= k < |places| ::
              places[k] < |m| && m[places[k]].orderId == o && MerchantOf(m, o)[k] == m[places[k]]
    ensures forall i | 0 <= i < |m| && m[i].orderId == o :: i in places
  {
    places := [];
    if m != [] {
      var n := |m| - 1;
      places := MerchantPlaces(m[..n], o);
      if m[n].orderId == o { places := places + [n]; }
    }
  }

  // ------------------------------------------------------------------
  // Statuses
  // ------------------------------------------------------------------

  /** `status` is the one in the gateway row of the order that no later one follows. */
  predicate LastGatewayStatus(g: seq<GatewayRow>, o: string, status: Option<string>) {
    match status
    case None => forall r | r in g :: r.orderId != o
    case Some(text) =>
      exists i | 0 <= i < |g| ::
        g[i].orderId == o && g[i].status == text && forall j | i < j < |g| :: g[j].orderId != o
  }

  predicate LastMerchantStatus(m: seq<MerchantRow>, o: string, status: Option<string>) {
    match status
    case None => forall r | r in m :: r.orderId != o
    case Some(text) =>
      exists i | 0 <= i < |m| ::
        m[i].orderId == o && m[i].status == text && forall j | i < j < |m| :: m[j].orderId != o
  }

  lemma LastGatewayRow(g: seq<GatewayRow>, o: string)
    ensures var own := GatewayOf(g, o);
            LastGatewayStatus(g, o, if own != [] then Some(own[|own| - 1].status) else None)
  {
    var own := GatewayOf(g, o);
    var places := GatewayPlaces(g, o);
    hide GatewayOf;
    if own != [] {
      var i := places[|own| - 1];
      forall j | i < j < |g| ensures g[j].orderId != o { }
      assert g[i].status == own[|own| - 1].status;
    } else {
      forall r | r in g ensures r.orderId != o {
        var i :| 0 <= i < |g| && g[i] == r;
        assert i !in places;
      }
    }
  }

  lemma LastMerchantRow(m: seq<MerchantRow>, o: string)
    ensures var own := MerchantOf(m, o);
            LastMerchantStatus(m, o, if own != [] then Some(own[|own| - 1].status) else None)
  {
    var own := MerchantOf(m, o);
    var places := MerchantPlaces(m, o);
    hide MerchantOf;
    if own != [] {
      var i := places[|own| - 1];
      forall j | i < j < |m| ensures m[j].orderId != o { }
      assert m[i].status == own[|own| - 1].status;
    } else {
      forall r | r in m ensures r.orderId != o {
        var i :| 0 <= i < |m| && m[i] == r;
        assert i !in places;
      }
    }
  }

  /** A result carries the last status each file gives its order. */
  lemma ReportedStatuses(g: seq<GatewayRow>, m: seq<MerchantRow>, created: int, now: int, r: OrderResult)
    requires r in Results(g, m, created, now)
    ensures LastGatewayStatus(g, r.orderId, r.gatewayStatus) && LastMerchantStatus(m, r.orderId, r.merchantStatus)
  {
    var o := r.orderId;
    LastGatewayRow(g, o);
    LastMerchantRow(m, o);
    hide LastGatewayStatus, LastMerchantStatus, GatewayOf, MerchantOf, ReplayAll, SimulateRecheck, VerdictOf,
         FirstSeen, StatedAmount, StatedCurrency, EventsOfOrder;
  }

  // ------------------------------------------------------------------
  // Amount and currency
  // ------------------------------------------------------------------

  /** `amount` is the one in the first gateway row of the order. */
  predicate FirstGatewayAmount(g: seq<GatewayRow>, o: string, amount: Option<int>) {
    match amount
    case None => forall r | r in g :: r.orderId != o
    case Some(n) =>
      exists i | 0 <= i < |g| ::
        g[i].orderId == o && g[i].amount == n && forall j | 0 <= j < i :: g[j].orderId != o
  }

  /** `amount` is the first a merchant row of the order gives. */
  predicate FirstMerchantAmount(m: seq<MerchantRow>, o: string, amount: Option<int>) {
    match amount
    case None => forall r | r in m && r.orderId == o :: r.amount.None?
    case Some(_) =>
      exists i | 0 <= i < |m| ::
        && m[i].orderId == o && m[i].amount == amount
        && forall j | 0 <= j < i && m[j].orderId == o :: m[j].amount.None?
  }

  predicate FirstGatewayCurrency(g: seq<GatewayRow>, o: string, currency: Option<string>) {
    match currency
    case None => forall r | r in g :: r.orderId != o
    case Some(code) =>
      exists i | 0 <= i < |g| ::
        g[i].orderId == o && g[i].currency == code && forall j | 0 <= j < i :: g[j].orderId != o
  }

  predicate FirstMerchantCurrency(m: seq<MerchantRow>, o: string, currency: Option<string>) {
    match currency
    case None => forall r | r in m && r.orderId == o :: !Truthy(r.currency)
    case Some(_) =>
      exists i | 0 <= i < |m| ::
        && m[i].orderId == o && m[i].currency == currency && Truthy(currency)
        && forall j | 0 <= j < i && m[j].orderId == o :: !Truthy(m[j].currency)
  }

  lemma FirstGatewayRow(g: seq<GatewayRow>, o: string)
    ensures var own := GatewayOf(g, o);
            && FirstGatewayAmount(g, o, if own != [] then Some(own[0].amount) else None)
            && FirstGatewayCurrency(g, o, if own != [] then Some(own[0].currency) else None)
  {
    var own := GatewayOf(g, o);
    var places := GatewayPlaces(g, o);
    hide GatewayOf;
    if own != [] {
      var i := places[0];
      forall j | 0 <= j < i ensures g[j].orderId != o { }
      assert g[i].amount == own[0].amount && g[i].currency == own[0].currency;
    } else {
      forall r | r in g ensures r.orderId != o {
        var i :| 0 <= i < |g| && g[i] == r;
        assert i !in places;
      }
    }
  }

  lemma {:induction false} FirstMerchantRow(m: seq<MerchantRow>, o: string)
    ensures FirstMerchantAmount(m, o, FirstAmount(MerchantOf(m, o)))
    ensures FirstMerchantCurrency(m, o, FirstCurrency(MerchantOf(m, o)))
  {
    if m != [] {
      var n := |m| - 1;
      FirstMerchantRow(m[..n], o);
      FirstsAppend(MerchantOf(m[..n], o), m[n]);
      assert m == m[..n] + [m[n]];
      assert MerchantOf(m[..n], o) + [] == MerchantOf(m[..n], o);
      hide FirstAmount, FirstCurrency, Truthy;
      AmountOneMore(m, o, FirstAmount(MerchantOf(m[..n], o)));
      CurrencyOneMore(m, o, FirstCurrency(MerchantOf(m[..n], o)));
    }
  }

  lemma AmountOneMore(m: seq<MerchantRow>, o: string, before: Option<int>)
    requires m != [] && FirstMerchantAmount(m[..|m| - 1], o, before)
    ensures var last := m[|m| - 1];
            FirstMerchantAmount(m, o, if before.Some? || last.orderId != o then before else last.amount)
  {
    var n := |m| - 1;
    if before.Some? {
      var i :| 0 <= i < n && m[..n][i].orderId == o && m[..n][i].amount == before &&
               forall j | 0 <= j < i && m[..n][j].orderId == o :: m[..n][j].amount.None?;
      assert m[i].orderId == o && m[i].amount == before;
      forall j | 0 <= j < i && m[j].orderId == o ensures m[j].amount.None? { assert m[..n][j] == m[j]; }
    } else {
      forall j | 0 <= j < n && m[j].orderId == o ensures m[j].amount.None? { assert m[..n][j] in m[..n]; }
    }
  }

  lemma CurrencyOneMore(m: seq<MerchantRow>, o: string, before: Option<string>)
    requires m != [] && FirstMerchantCurrency(m[..|m| - 1], o, before)
    ensures var last := m[|m| - 1];
            FirstMerchantCurrency(m, o, if before.Some? || last.orderId != o then before
                                        else if Truthy(last.currency) then last.currency else None)
  {
    hide Truthy;
    var n := |m| - 1;
    if before.Some? {
      var i :| 0 <= i < n && m[..n][i].orderId == o && m[..n][i].currency == before && Truthy(before) &&
               forall j | 0 <= j < i && m[..n][j].orderId == o :: !Truthy(m[..n][j].currency);
      assert m[i].orderId == o && m[i].currency == before;
      forall j | 0 <= j < i && m[j].orderId == o ensures !Truthy(m[j].currency) { assert m[..n][j] == m[j]; }
    } else {
      forall j | 0 <= j < n && m[j].orderId == o ensures !Truthy(m[j].currency) { assert m[..n][j] in m[..n]; }
      assert Truthy(m[n].currency) ==> m[n].currency.Some? by { TruthyIsSome(m[n].currency); }
    }
  }

  lemma TruthyIsSome(text: Option<string>)
    ensures Truthy(text) ==> text.Some?
  {
  }

  /** A result carries the first currency stated, in the gateway file before the merchant's. */
  lemma ReportedCurrency(g: seq<GatewayRow>, m: seq<MerchantRow>, created: int, now: int, r: OrderResult)
    requires r in Results(g, m, created, now)
    ensures if exists x :: x in g && x.orderId == r.orderId then FirstGatewayCurrency(g, r.orderId, r.currency)
            else FirstMerchantCurrency(m, r.orderId, r.currency)
  {
    var o := r.orderId;
    FirstGatewayRow(g, o);
    FirstMerchantRow(m, o);
    ReconcileLaws.GatewayOfOwn(g, o);
    hide FirstGatewayAmount, FirstMerchantAmount, FirstGatewayCurrency, FirstMerchantCurrency, GatewayOf, MerchantOf,
         ReplayAll, SimulateRecheck, VerdictOf, FirstSeen, FirstAmount, FirstCurrency, EventsOfOrder;
  }

  /** `e` is a charge and states its amount. */
  predicate StatesCharge(e: Event) {
    e.source == Razorpay && !e.IsReversal() && e.amount.Some?
  }

  /** `amount` is the one the first of the charges states. */
  predicate FirstCharge(events: seq<Event>, amount: Option<int>) {
    exists i | 0 <= i < |events| ::
      StatesCharge(events[i]) && events[i].amount == amount && forall j | 0 <= j < i :: !StatesCharge(events[j])
  }

  lemma {:induction false} FirstChargeIsFirst(events: seq<Event>)
    ensures FirstSome(ChargeAmount, events).None? <==> forall e | e in events :: !StatesCharge(e)
    ensures FirstSome(ChargeAmount, events).Some? ==> FirstCharge(events, FirstSome(ChargeAmount, events))
  {
    if events != [] && !StatesCharge(events[0]) {
      var rest := events[1..];
      FirstChargeIsFirst(rest);
      assert events == [events[0]] + rest;
      var amount := FirstSome(ChargeAmount, rest);
      hide StatesCharge;
      if amount.Some? {
        var i :| 0 <= i < |rest| && StatesCharge(rest[i]) && rest[i].amount == amount &&
                 forall j | 0 <= j < i :: !StatesCharge(rest[j]);
        assert events[i + 1] == rest[i];
        forall j | 0 <= j < i + 1 ensures !StatesCharge(events[j]) { if j > 0 { assert events[j] == rest[j - 1]; } }
      }
    }
  }

  lemma RecheckKeepsAmount(o: string, r: Replay, now: int)
    ensures ViewAmount(SimulateRecheck(o, r, now).carried.view) ==
            if r.carried.view.Some? then r.carried.view.value.razorpayAmount else None
  {
  }

  lemma ReplayedAmount(o: string, events: seq<Event>, now: int)
    requires !Blank(o) && forall e | e in events :: e.orderId == o
    ensures ViewAmount(SimulateRecheck(o, ReplayAll(events, now), now).carried.view) ==
            FirstSome(ChargeAmount, Fitting(events))
  {
    var r := ReplayAll(events, now);
    RecheckKeepsAmount(o, r, now);
    ReplayMeaning(o, events, now);
    FoldIsSummary(o, events);
    FittingAreAccepted(o, events);
    hide ReplayAll, SimulateRecheck, Fold, Accepted, Clean, EverSafe, Agreed;
    if events == [] { assert Fitting(events) == []; }
  }

  /** A result carries the amount of the first charge that fits its order, in replay order;
      without one, of the order's first gateway row; without one, the first the merchant
      gives. */
  lemma ReportedAmount(g: seq<GatewayRow>, m: seq<MerchantRow>, created: int, now: int, r: OrderResult)
    requires forall x | x in g :: GatewayRowOk(x)
    requires forall x | x in m :: MerchantRowOk(x)
    requires r in Results(g, m, created, now)
    ensures var o := r.orderId;
            var counted := Fitting(EventsOfOrder(GatewayOf(g, o), MerchantOf(m, o), created));
            if exists e :: e in counted && StatesCharge(e) then FirstCharge(counted, r.amount)
            else if exists x :: x in g && x.orderId == o then FirstGatewayAmount(g, o, r.amount)
            else FirstMerchantAmount(m, o, r.amount)
  {
    var o := r.orderId;
    var own, theirs := GatewayOf(g, o), MerchantOf(m, o);
    var events := EventsOfOrder(own, theirs, created);
    FirstGatewayRow(g, o);
    FirstMerchantRow(m, o);
    ReconcileLaws.GatewayOfOwn(g, o);
    ReconcileLaws.MerchantOfOwn(m, o);
    OrdersHaveIds(g, m, created, now, r);
    RowEventsAreTheOrders(o, own, theirs, created);
    ReplayedAmount(o, events, now);
    FirstChargeIsFirst(Fitting(events));
    hide FirstGatewayAmount, FirstMerchantAmount, FirstGatewayCurrency, FirstMerchantCurrency, GatewayOf, MerchantOf,
         ReplayAll, SimulateRecheck, VerdictOf, FirstSeen, FirstAmount, FirstCurrency, EventsOfOrder, Fitting,
         FirstSome, StatesCharge, FirstCharge, Blank;
  }

  lemma OrdersHaveIds(g: seq<GatewayRow>, m: seq<MerchantRow>, created: int, now: int, r: OrderResult)
    requires forall x | x in g :: GatewayRowOk(x)
    requires forall x | x in m :: MerchantRowOk(x)
    requires r in Results(g, m, created, now)
    ensures !Blank(r.orderId)
  {
    hide FirstSeen, GatewayOf, MerchantOf, ReplayAll, SimulateRecheck, VerdictOf, EventsOfOrder, Blank;
    var ids := FirstSeen(RowOrders(g, m));
    var k :| 0 <= k < |ids| && Results(g, m, created, now)[k] == r;
    assert ids[k] in RowOrders(g, m);
    var i :| 0 <= i < |RowOrders(g, m)| && RowOrders(g, m)[i] == ids[k];
    if i < |g| { assert g[i] in g; } else { assert m[i - |g|] in m; }
  }

  lemma CheckOfReplay(o: string, events: seq<Event>, now: int)
    requires !Blank(o) && forall e | e in events :: e.orderId == o
    ensures var check := SimulateRecheck(o, ReplayAll(events, now), now).check;
            && VerdictCases.NamesFirst(o, events, check)
            && (check.Some? <==> VerdictCases.Contradicted(o, events))
  {
    VerdictCases.ReplayRecords(o, events, now);
    VerdictCases.RecheckNeverDisputes(o, events, now);
    VerdictCases.CheckNamesFirst(o, events, now);
    hide ReplayAll, SimulateRecheck, Blank, VerdictCases.Contradicted, VerdictCases.NamesFirst, VerdictCases.Open,
         EverSafe, VerdictCases.Reversed, VerdictCases.AtOdds;
  }

  /** A reported check is the one failed by the first of the order's events, in replay order,
      to contradict it while it was open. */
  lemma ReportedCheck(g: seq<GatewayRow>, m: seq<MerchantRow>, created: int, now: int, r: OrderResult)
    requires forall x | x in g :: GatewayRowOk(x)
    requires forall x | x in m :: MerchantRowOk(x)
    requires r in Results(g, m, created, now)
    ensures var events := EventsOfOrder(GatewayOf(g, r.orderId), MerchantOf(m, r.orderId), created);
            && VerdictCases.NamesFirst(r.orderId, events, r.check)
            && (r.check.Some? <==> VerdictCases.Contradicted(r.orderId, events))
  {
    var o := r.orderId;
    ReconcileLaws.GatewayOfOwn(g, o);
    ReconcileLaws.MerchantOfOwn(m, o);
    OrdersHaveIds(g, m, created, now, r);
    RowEventsAreTheOrders(o, GatewayOf(g, o), MerchantOf(m, o), created);
    CheckOfReplay(o, EventsOfOrder(GatewayOf(g, o), MerchantOf(m, o), created), now);
    hide GatewayOf, MerchantOf, ReplayAll, SimulateRecheck, VerdictOf, FirstSeen, EventsOfOrder, Blank,
         VerdictCases.Contradicted, VerdictCases.NamesFirst, StatedAmount, StatedCurrency;
  }

  // ------------------------------------------------------------------
  // The order of the report
  // ------------------------------------------------------------------

  predicate FirstAt(ids: seq<string>, o: string, p: nat) {
    p < |ids| && ids[p] == o && o !in ids[..p]
  }

  lemma FirstInPrefix(ids: seq<string>, n: nat, o: string, p: nat)
    requires n <= |ids| && o in ids[..n] && FirstAt(ids, o, p)
    ensures p < n && FirstAt(ids[..n], o, p)
  {
    forall k | 0 <= k < p ensures ids[k] != o { assert ids[..p][k] == ids[k]; }
    assert ids[..n][..p] == ids[..p];
  }

  lemma NotInPrefix(ids: seq<string>, n: nat, o: string)
    requires n <= |ids| && o !in ids[..n]
    ensures forall k | 0 <= k < n :: ids[k] != o
  {
    forall k | 0 <= k < n ensures ids[k] != o { assert ids[..n][k] == ids[k]; }
  }

  /** Orders are listed as they first occur. */
  lemma {:induction false} ListedAsSeen(ids: seq<string>, i: nat, j: nat, p: nat, q: nat)
    requires i < j < |FirstSeen(ids)|
    requires FirstAt(ids, FirstSeen(ids)[i], p) && FirstAt(ids, FirstSeen(ids)[j], q)
    ensures p < q
  {
    var n := |ids| - 1;
    var seen, before := FirstSeen(ids), FirstSeen(ids[..n]);
    assert before[i] == seen[i] && seen[i] in before;
    FirstInPrefix(ids, n, seen[i], p);
    if j < |before| {
      assert before[j] == seen[j] && seen[j] in before;
      FirstInPrefix(ids, n, seen[j], q);
      ListedAsSeen(ids[..n], i, j, p, q);
    } else {
      NotInPrefix(ids, n, seen[j]);
    }
  }

  /** Every order of the report is first seen somewhere in the two files, in that order. */
  lemma ReportedInOrder(g: seq<GatewayRow>, m: seq<MerchantRow>, created: int, now: int, i: nat, j: nat)
      returns (p: nat, q: nat)
    requires i < j < |Results(g, m, created, now)|
    ensures p < q && FirstAt(RowOrders(g, m), Results(g, m, created, now)[i].orderId, p)
    ensures FirstAt(RowOrders(g, m), Results(g, m, created, now)[j].orderId, q)
  {
    hide FirstSeen, RowOrders, FirstAt, GatewayOf, MerchantOf, ReplayAll, SimulateRecheck, VerdictOf, EventsOfOrder;
    var ids := RowOrders(g, m);
    var seen := FirstSeen(ids);
    assert seen[i] in seen && seen[j] in seen;
    p := FirstPlace(ids, seen[i]);
    q := FirstPlace(ids, seen[j]);
    ListedAsSeen(ids, i, j, p, q);
  }

  lemma {:induction false} FirstPlace(ids: seq<string>, o: string) returns (p: nat)
    requires o in ids
    ensures FirstAt(ids, o, p)
  {
    var n := |ids| - 1;
    assert ids == ids[..n] + [ids[n]];
    if o in ids[..n] {
      p := FirstPlace(ids[..n], o);
      assert ids[..n][..p] == ids[..p];
    } else {
      p := n;
    }
  }

  // ------------------------------------------------------------------
  // The order of the replay
  // ------------------------------------------------------------------

  /** A row of either file by file and place. */
  datatype Place = Place(file: nat, index: nat)

  predicate IsPlace(p: Place, g: seq<GatewayRow>, m: seq<MerchantRow>) {
    if p.file == 0 then p.index < |g| else p.file == 1 && p.index < |m|
  }

  function TimeAt(p: Place, g: seq<GatewayRow>, m: seq<MerchantRow>): Option<int>
    requires IsPlace(p, g, m)
  {
    if p.file == 0 then g[p.index].eventTime else m[p.index].eventTime
  }

  function EventAt(p: Place, g: seq<GatewayRow>, m: seq<MerchantRow>, created: int): Event
    requires IsPlace(p, g, m)
  {
    if p.file == 0 then GatewayEvent(g[p.index], created) else MerchantEvent(m[p.index], created)
  }

  predicate SomeTimeMissing(g: seq<GatewayRow>, m: seq<MerchantRow>) {
    (exists r :: r in g && r.eventTime.None?) || (exists r :: r in m && r.eventTime.None?)
  }

  /** Earlier in time, then gateway before merchant, then as in the file; in the last two
      alone when any row has no time. */
  predicate Precedes(a: Place, b: Place, g: seq<GatewayRow>, m: seq<MerchantRow>)
    requires IsPlace(a, g, m) && IsPlace(b, g, m)
  {
    if !SomeTimeMissing(g, m) && TimeAt(a, g, m) != TimeAt(b, g, m) then
      match (TimeAt(a, g, m), TimeAt(b, g, m))
      case (Some(s), Some(t)) => s < t
      case _ => false
    else a.file < b.file || (a.file == b.file && a.index < b.index)
  }

  lemma TimedIff(g: seq<GatewayRow>, m: seq<MerchantRow>, created: int)
    ensures AllTimed(FileItems(g, m, created)) <==> !SomeTimeMissing(g, m)
  {
    hide GatewayEvent, MerchantEvent;
    var items := FileItems(g, m, created);
    if AllTimed(items) {
      forall r | r in g ensures r.eventTime.Some? {
        var i :| 0 <= i < |g| && g[i] == r;
        assert items[i].time.Some?;
      }
      forall r | r in m ensures r.eventTime.Some? {
        var i :| 0 <= i < |m| && m[i] == r;
        assert items[|g| + i].time.Some?;
      }
    } else {
      var i :| 0 <= i < |items| && items[i].time.None?;
      if i < |g| { assert g[i] in g; } else { assert m[i - |g|] in m; }
    }
  }

  predicate ItemOf(x: Item, g: seq<GatewayRow>, m: seq<MerchantRow>, created: int) {
    var p := Place(x.rank, x.index);
    IsPlace(p, g, m) && x.time == TimeAt(p, g, m) && x.event == EventAt(p, g, m, created)
  }

  lemma ItemsAreRows(g: seq<GatewayRow>, m: seq<MerchantRow>, created: int)
    ensures forall x | x in Arranged(FileItems(g, m, created)) :: ItemOf(x, g, m, created)
  {
    hide GatewayEvent, MerchantEvent;
    var items := FileItems(g, m, created);
    ReconcileLaws.RowsAreReplayedSorted(g, m, created);
    hide Arranged, ItemOf;
    forall x | x in Arranged(items) ensures ItemOf(x, g, m, created) {
      assert x in multiset(items) by { assert x in multiset(Arranged(items)); }
      var i :| 0 <= i < |items| && items[i] == x;
      ItemIsRow(g, m, created, i);
    }
  }

  lemma ItemIsRow(g: seq<GatewayRow>, m: seq<MerchantRow>, created: int, i: nat)
    requires i < |g| + |m|
    ensures ItemOf(FileItems(g, m, created)[i], g, m, created)
  {
    hide GatewayEvent, MerchantEvent;
  }

  lemma KeyMeansPrecedes(a: Item, b: Item, g: seq<GatewayRow>, m: seq<MerchantRow>, created: int)
    requires ItemOf(a, g, m, created) && ItemOf(b, g, m, created)
    requires KeyBefore(a, b, !SomeTimeMissing(g, m))
    ensures Precedes(Place(a.rank, a.index), Place(b.rank, b.index), g, m)
  {
    hide EventAt;
    if !SomeTimeMissing(g, m) {
      TimesAreGiven(Place(a.rank, a.index), g, m);
      TimesAreGiven(Place(b.rank, b.index), g, m);
    }
  }

  lemma TimesAreGiven(p: Place, g: seq<GatewayRow>, m: seq<MerchantRow>)
    requires IsPlace(p, g, m) && !SomeTimeMissing(g, m)
    ensures TimeAt(p, g, m).Some?
  {
    if p.file == 0 { assert g[p.index] in g; } else { assert m[p.index] in m; }
  }

  /** The replay takes every row once, each before those it precedes; one missing time
      anywhere puts the gateway file before the merchant's, both as they stand. */
  lemma ReplayOrder(g: seq<GatewayRow>, m: seq<MerchantRow>, created: int) returns (places: seq<Place>)
    ensures var events := EventsOfOrder(g, m, created);
            && |places| == |events| == |g| + |m|
            && forall k | 0 <= k < |places| ::
                 IsPlace(places[k], g, m) && events[k] == EventAt(places[k], g, m, created)
    ensures forall i, j | 0 <= i < j < |places| :: Precedes(places[i], places[j], g, m)
    ensures SomeTimeMissing(g, m) ==>
              forall k | 0 <= k < |places| ::
                places[k] == if k < |g| then Place(0, k) else Place(1, k - |g|)
  {
    var items := FileItems(g, m, created);
    var arranged := Arranged(items);
    ReconcileLaws.RowsAreReplayedSorted(g, m, created);
    ItemsAreRows(g, m, created);
    TimedIff(g, m, created);
    assert |arranged| == |multiset(arranged)| == |items|;
    places := seq(|arranged|, k requires 0 <= k < |arranged| => Place(arranged[k].rank, arranged[k].index));
    if SomeTimeMissing(g, m) {
      assert arranged == items;
    }
    hide Arranged, GatewayEvent, MerchantEvent, SomeTimeMissing, AllTimed, FileItems, EventAt, KeyBefore, Precedes,
         TimeAt;
    forall k | 0 <= k < |places| ensures IsPlace(places[k], g, m) {
      assert arranged[k] in arranged;
    }
    forall k | 0 <= k < |places| ensures EventsOfOrder(g, m, created)[k] == EventAt(places[k], g, m, created) {
      assert arranged[k] in arranged;
    }
    forall i, j | 0 <= i < j < |places| ensures Precedes(places[i], places[j], g, m) {
      assert arranged[i] in arranged && arranged[j] in arranged;
      KeyMeansPrecedes(arranged[i], arranged[j], g, m, created);
    }
    if SomeTimeMissing(g, m) {
      forall k | 0 <= k < |places| ensures places[k] == if k < |g| then Place(0, k) else Place(1, k - |g|) {
        FileItemPlace(g, m, created, k);
      }
    }
  }

  lemma FileItemPlace(g: seq<GatewayRow>, m: seq<MerchantRow>, created: int, k: nat)
    requires k < |g| + |m|
    ensures var x := FileItems(g, m, created)[k];
            Place(x.rank, x.index) == if k < |g| then Place(0, k) else Place(1, k - |g|)
  {
    hide GatewayEvent, MerchantEvent;
  }
}
