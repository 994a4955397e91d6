/** When a CONSISTENT verdict describes the records an order ends with.

Once an order has resolved naturally the engine's terminal lock lets nothing but a reversal
through, so later records are not looked at: the verdict is about the moment the sides
agreed. Here is exactly when it is also about the end.
 */
module FinalRecords {
  import opened Models
  import opened Entries
  import opened ReconcileTool
  import opened Rows
  import opened Text
  import opened Verdicts
  import opened ViewFold
  import Compare
  import Correlate
  import Drift
  import LogFacts
  import ReconcileLaws
  import ViewCodec

  // ------------------------------------------------------------------
  // The records that count
  // ------------------------------------------------------------------

  /** The event states the charge its order is known by from the events before it that did:
      same currency, and the same amount unless it is a reversal. */
  predicate FitsAfter(fitting: seq<Event>, e: Event) {
    var currency, amount := FirstSome(GatewayCurrency, fitting), FirstSome(ChargeAmount, fitting);
    && (Truthy(e.currency) && Truthy(currency) ==> Upper(e.currency.value) == Upper(currency.value))
    && (e.amount.Some? && amount.Some? && !e.IsReversal() ==> e.amount == amount)
  }

  /** The events that state their order's charge, told from what they say alone. */
  function Fitting(events: seq<Event>): seq<Event> {
    if events == [] then []
    else
      var n := |events| - 1;
      var before := Fitting(events[..n]);
      if FitsAfter(before, events[n]) then before + [events[n]] else before
  }

  /** These are the events that pass correlation. */
  lemma {:induction false} FittingAreAccepted(orderId: string, events: seq<Event>)
    requires !Blank(orderId) && forall e | e in events :: e.orderId == orderId
    ensures Accepted(EmptyView(orderId), events) == Fitting(events)
  {
    hide Fold, FitsAfter, Accepts;
    if events != [] {
      var n := |events| - 1;
      assert events[n] in events;
      FittingAreAccepted(orderId, events[..n]);
      FoldIsSummary(orderId, events[..n]);
      AcceptsIffFits(ViewAfter(orderId, events[..n]), Fitting(events[..n]), events[n]);
    }
  }

  lemma AcceptsIffFits(view: OrderView, fitting: seq<Event>, e: Event)
    requires !Blank(e.orderId)
    requires view.razorpayAmount == FirstSome(ChargeAmount, fitting)
    requires view.razorpayCurrency == FirstSome(GatewayCurrency, fitting)
    ensures Accepts(view, e) <==> FitsAfter(fitting, e)
  {
    hide FirstSome, Correlate.Project;
  }

  /** The gateway's last word among the events that count, and the merchant's. */
  function FinalGateway(events: seq<Event>): Option<PaymentStatus> {
    LastSome(GatewayStatus, Fitting(events))
  }

  function FinalMerchant(events: seq<Event>): Option<MerchantOrderStatus> {
    LastSome(MerchantRecord, Fitting(events))
  }

  /** Both sides show success, or neither does. */
  predicate RecordsAgree(gateway: Option<PaymentStatus>, merchant: Option<MerchantOrderStatus>) {
    || (gateway == Some(PayCaptured) && merchant == Some(OrderPaid))
    || (gateway == Some(PayFailed) && merchant.Some? && merchant != Some(OrderPaid))
  }

  lemma FinalStatuses(orderId: string, events: seq<Event>)
    requires !Blank(orderId) && forall e | e in events :: e.orderId == orderId
    ensures ViewAfter(orderId, events).razorpayStatus == FinalGateway(events)
    ensures ViewAfter(orderId, events).merchantStatus == FinalMerchant(events)
  {
    FoldIsSummary(orderId, events);
    FittingAreAccepted(orderId, events);
    hide Fold, Accepted, Fitting;
  }

  // ------------------------------------------------------------------
  // No reversal behind an agreement
  // ------------------------------------------------------------------

  lemma OneMore(orderId: string, events: seq<Event>)
    requires events != []
    ensures var v, w := ViewAfter(orderId, events[..|events| - 1]), ViewAfter(orderId, events);
            var e := events[|events| - 1];
            if Accepts(v, e) then
              && w.razorpayStatus == Else(GatewayStatus(e), v.razorpayStatus)
              && w.settled == (v.settled || Settles(e))
              && w.reversalIds == v.reversalIds + ReversalIds([e])
            else
              w.razorpayStatus == v.razorpayStatus && w.settled == v.settled && w.reversalIds == v.reversalIds
  {
    var v, e := ViewAfter(orderId, events[..|events| - 1]), events[|events| - 1];
    AbsorbCases(v, e);
    ProjectFields(v, e);
    hide Absorb, Accepts, Correlate.Project, GatewayStatus, Settles, ReversalIds;
  }

  /** A capture or a refund, once the gateway's word, stays known as settled money. */
  lemma {:induction false} StatusMeansSettled(orderId: string, events: seq<Event>)
    ensures var view := ViewAfter(orderId, events);
            view.razorpayStatus in {Some(PayCaptured), Some(PayRefunded)} ==> view.settled
  {
    hide Fold, Accepts;
    if events != [] {
      StatusMeansSettled(orderId, events[..|events| - 1]);
      OneMore(orderId, events);
    } else {
      assert ViewAfter(orderId, events) == EmptyView(orderId) by { FoldNone(orderId); }
    }
  }

  lemma FoldNone(orderId: string)
    ensures ViewAfter(orderId, []) == EmptyView(orderId)
  {
  }

  lemma {:induction false} EverSafeIsSettled(orderId: string, events: seq<Event>)
    ensures EverSafe(orderId, events) ==> ViewAfter(orderId, events).settled
  {
    hide Fold, Accepts;
    if events != [] {
      EverSafeIsSettled(orderId, events[..|events| - 1]);
      OneMore(orderId, events);
      StatusMeansSettled(orderId, events);
      Drift.SafeIff(ViewAfter(orderId, events));
      hide Compare.Assess, ViewAfter;
    }
  }

  /** Where the sides came to agree after a drift, nothing had been reversed. */
  lemma AgreesAtUnreversed(orderId: string, events: seq<Event>)
    requires AgreesAt(orderId, events)
    ensures ViewAfter(orderId, events).reversalIds == {}
  {
    EverSafeIsSettled(orderId, events[..|events| - 1]);
    OneMore(orderId, events);
    Drift.NoDriftIff(ViewAfter(orderId, events));
    hide ViewAfter, Accepts, Clean, EverSafe, Compare.Assess;
  }

  lemma NoReversalNoId(e: Event)
    requires !e.IsReversal()
    ensures ReversalIds([e]) == {}
  {
  }

  lemma {:induction false} AgreedIsUnreversed(orderId: string, events: seq<Event>)
    requires Agreed(orderId, events)
    ensures ViewAfter(orderId, events).reversalIds == {}
  {
    var n := |events| - 1;
    if AgreesAt(orderId, events) {
      AgreesAtUnreversed(orderId, events);
    } else {
      AgreedIsUnreversed(orderId, events[..n]);
      OneMore(orderId, events);
      NoReversalNoId(events[n]);
      hide ViewAfter, Accepts, Agreed;
    }
  }

  /** Nothing reversed, the drift is decided by the two last words. */
  lemma UnreversedDrift(view: OrderView)
    requires view.reversalIds == {} && (view.razorpayStatus == Some(PayRefunded) ==> view.settled)
    ensures Compare.Assess(view) == NoDrift <==> RecordsAgree(view.razorpayStatus, view.merchantStatus)
  {
    Drift.NoDriftIff(view);
    hide Compare.Assess;
  }

  // ------------------------------------------------------------------
  // CONSISTENT and the end
  // ------------------------------------------------------------------

  /** A CONSISTENT verdict describes the final records if and only if the last words of the
      two sides, among the events that state the order's charge, agree. */
  lemma ConsistentAtTheEndIff(orderId: string, events: seq<Event>, now: int, hasGateway: bool, hasMerchant: bool)
    requires !Blank(orderId) && forall e | e in events :: e.orderId == orderId
    requires Conclude(orderId, events, now, hasGateway, hasMerchant) == Consistent
    ensures DriftAfter(orderId, events) == NoDrift <==> RecordsAgree(FinalGateway(events), FinalMerchant(events))
  {
    ConsistentIff(orderId, events, now, hasGateway, hasMerchant);
    FinalStatuses(orderId, events);
    StatusMeansSettled(orderId, events);
    if Agreed(orderId, events) {
      AgreedIsUnreversed(orderId, events);
      UnreversedDrift(ViewAfter(orderId, events));
    } else {
      Drift.NoDriftIff(ViewAfter(orderId, events));
    }
    hide Conclude, Agreed, Clean, EverSafe, ViewAfter, Compare.Assess, FinalGateway, FinalMerchant, Blank;
  }

  /** Unless the order was already agreed, and so locked, when its last event came, the
      verdict does describe the end. */
  lemma UnlockedConsistentIsFinal(orderId: string, events: seq<Event>, now: int, hasGateway: bool, hasMerchant: bool)
    requires !Blank(orderId) && forall e | e in events :: e.orderId == orderId
    requires Conclude(orderId, events, now, hasGateway, hasMerchant) == Consistent
    requires events != [] ==> !Agreed(orderId, events[..|events| - 1])
    ensures DriftAfter(orderId, events) == NoDrift
  {
    ConsistentIff(orderId, events, now, hasGateway, hasMerchant);
    hide Conclude, Clean, EverSafe, DriftAfter, Blank;
  }

  /** The moment of agreement of an agreed order: no reversal has come since. */
  lemma {:induction false} AgreedOnce(orderId: string, events: seq<Event>) returns (k: nat)
    requires Agreed(orderId, events)
    ensures 0 < k <= |events| && AgreesAt(orderId, events[..k])
    ensures forall i | k <= i < |events| :: !events[i].IsReversal()
  {
    hide AgreesAt;
    var n := |events| - 1;
    if AgreesAt(orderId, events) {
      k := |events|;
      assert events[..k] == events;
    } else {
      k := AgreedOnce(orderId, events[..n]);
      assert events[..n][..k] == events[..k];
      forall i | k <= i < |events| ensures !events[i].IsReversal() {
        if i < n { assert events[i] == events[..n][i]; }
      }
    }
  }

  /** The events after the first `k` that state the order's charge. */
  function FittingSince(events: seq<Event>, k: nat): seq<Event>
    requires k <= |events|
  {
    if |Fitting(events[..k])| <= |Fitting(events)| then Fitting(events)[|Fitting(events[..k])|..] else []
  }

  lemma FittingSplit(orderId: string, events: seq<Event>, k: nat)
    requires !Blank(orderId) && forall e | e in events :: e.orderId == orderId
    requires k <= |events|
    ensures Fitting(events) == Fitting(events[..k]) + FittingSince(events, k)
    ensures forall e | e in FittingSince(events, k) :: e in events[k..]
  {
    hide Fitting, Fold, Accepts;
    assert events == events[..k] + events[k..];
    FittingAreAccepted(orderId, events);
    FittingAreAccepted(orderId, events[..k]);
    FoldSplit(EmptyView(orderId), events[..k], events[k..]);
    AcceptedAreEvents(ViewAfter(orderId, events[..k]), events[k..]);
    assert FittingSince(events, k) == Accepted(ViewAfter(orderId, events[..k]), events[k..]);
  }

  lemma {:induction false} AcceptedAreEvents(view: OrderView, events: seq<Event>)
    ensures forall e | e in Accepted(view, events) :: e in events
  {
    hide Fold, Accepts;
    if events != [] {
      AcceptedAreEvents(view, events[..|events| - 1]);
      assert events == events[..|events| - 1] + [events[|events| - 1]];
    }
  }

  /** For an order agreed at `k` and locked since: the sides agree at the end if and only if
      the last words after the agreement, or where a side said nothing more its word at the
      agreement, still match. */
  lemma LockedAgreementHoldsIff(orderId: string, events: seq<Event>, k: nat)
    requires !Blank(orderId) && forall e | e in events :: e.orderId == orderId
    requires 0 < k <= |events| && AgreesAt(orderId, events[..k])
    requires forall i | k <= i < |events| :: !events[i].IsReversal()
    ensures var since := FittingSince(events, k);
            DriftAfter(orderId, events) == NoDrift <==>
            RecordsAgree(Else(LastSome(GatewayStatus, since), FinalGateway(events[..k])),
                         Else(LastSome(MerchantRecord, since), FinalMerchant(events[..k])))
  {
    StaysAgreed(orderId, events, k);
    AgreedIsUnreversed(orderId, events);
    StatusMeansSettled(orderId, events);
    UnreversedDrift(ViewAfter(orderId, events));
    FinalStatuses(orderId, events);
    FittingSplit(orderId, events, k);
    LastSomeSplit(GatewayStatus, Fitting(events[..k]), FittingSince(events, k));
    LastSomeSplit(MerchantRecord, Fitting(events[..k]), FittingSince(events, k));
    hide Agreed, AgreesAt, ViewAfter, Compare.Assess, Fitting, FittingSince, LastSome, Blank, RecordsAgree;
  }

  lemma {:induction false} StaysAgreed(orderId: string, events: seq<Event>, k: nat)
    requires 0 < k <= |events| && AgreesAt(orderId, events[..k])
    requires forall i | k <= i < |events| :: !events[i].IsReversal()
    ensures Agreed(orderId, events)
  {
    hide AgreesAt;
    if k == |events| {
      assert events[..k] == events;
    } else {
      var n := |events| - 1;
      assert events[..n][..k] == events[..k];
      StaysAgreed(orderId, events[..n], k);
    }
  }

  /** So an agreement after which neither side said anything more holds at the end. */
  lemma SilenceKeepsAgreement(orderId: string, events: seq<Event>, k: nat)
    requires !Blank(orderId) && forall e | e in events :: e.orderId == orderId
    requires 0 < k <= |events| && AgreesAt(orderId, events[..k])
    requires forall i | k <= i < |events| ::
               !events[i].IsReversal() && GatewayStatus(events[i]).None? && MerchantRecord(events[i]).None?
    ensures DriftAfter(orderId, events) == NoDrift
  {
    var since := FittingSince(events, k);
    FittingSplit(orderId, events, k);
    forall e | e in since ensures GatewayStatus(e).None? && MerchantRecord(e).None? {
      var i :| 0 <= i < |events[k..]| && events[k..][i] == e;
      assert events[k + i] == e;
    }
    NothingSaid(GatewayStatus, since);
    NothingSaid(MerchantRecord, since);
    LockedAgreementHoldsIff(orderId, events, k);
    assert events[..k][..k] == events[..k] && forall e | e in events[..k] :: e in events;
    FinalStatuses(orderId, events[..k]);
    AgreesAtUnreversed(orderId, events[..k]);
    StatusMeansSettled(orderId, events[..k]);
    UnreversedDrift(ViewAfter(orderId, events[..k]));
  }

  lemma {:induction false} NothingSaid<T>(f: Event -> Option<T>, events: seq<Event>)
    requires forall e | e in events :: f(e).None?
    ensures LastSome(f, events).None?
  {
    if events != [] {
      NothingSaid(f, events[..|events| - 1]);
    }
  }

  // ------------------------------------------------------------------
  // On the rows of a report
  // ------------------------------------------------------------------

  lemma RowEventsAreTheOrders(o: string, g: seq<GatewayRow>, m: seq<MerchantRow>, created: int)
    requires (forall r | r in g :: GatewayRowOk(r) && r.orderId == o)
    requires (forall r | r in m :: MerchantRowOk(r) && r.orderId == o)
    ensures forall e | e in EventsOfOrder(g, m, created) :: e.orderId == o
  {
    hide FileItems, Arranged, LogFacts.EventOk, GatewayId, MerchantId;
    var items := FileItems(g, m, created);
    var arranged := Arranged(items);
    ReconcileLaws.RowsAreReplayedSorted(g, m, created);
    forall e | e in EventsOfOrder(g, m, created) ensures e.orderId == o {
      var k :| 0 <= k < |arranged| && arranged[k].event == e;
      assert arranged[k] in multiset(items) by { assert arranged[k] in multiset(arranged); }
      var i :| 0 <= i < |items| && items[i] == arranged[k];
      ReconcileLaws.ItemEvent(g, m, created, o, i);
    }
  }

  /** A reported CONSISTENT describes the rows the order ends with if and only if the last
      gateway row and the last merchant row that state the order's charge agree. It always
      does unless the order was agreed before its last row. */
  lemma ConsistentReportIff(o: string, g: seq<GatewayRow>, m: seq<MerchantRow>, created: int, now: int)
    requires !Blank(o)
    requires (forall r | r in g :: GatewayRowOk(r) && r.orderId == o)
    requires (forall r | r in m :: MerchantRowOk(r) && r.orderId == o)
    requires ResultFor(o, g, m, created, now).verdict == Consistent
    ensures var events := EventsOfOrder(g, m, created);
            && (DriftAfter(o, events) == NoDrift <==> RecordsAgree(FinalGateway(events), FinalMerchant(events)))
            && (events != [] && !Agreed(o, events[..|events| - 1]) ==> DriftAfter(o, events) == NoDrift)
  {
    var events := EventsOfOrder(g, m, created);
    RowEventsAreTheOrders(o, g, m, created);
    hide EventsOfOrder, Agreed, DriftAfter, FinalGateway, FinalMerchant, RecordsAgree, Blank, ReplayAll,
         SimulateRecheck, VerdictOf;
    assert Conclude(o, events, now, g != [], m != []) == Consistent;
    ConsistentAtTheEndIff(o, events, now, g != [], m != []);
    if events != [] && !Agreed(o, events[..|events| - 1]) {
      UnlockedConsistentIsFinal(o, events, now, g != [], m != []);
    }
  }

  function CapturedRow(o: string, amount: nat, currency: string): GatewayRow {
    GatewayRow(2, o, "captured", amount, currency, None, None, None, None)
  }

  function MerchantSays(row: nat, o: string, status: string, amount: nat, currency: string): MerchantRow {
    MerchantRow(row, o, status, Some(amount), Some(currency), None)
  }

  /** A payment captured, an order paid and then cancelled, all stating one charge. */
  predicate PaidThenCancelled(a: Event, b: Event, c: Event) {
    && GatewayStatus(a) == Some(PayCaptured) && GatewayStatus(b).None? && GatewayStatus(c).None?
    && MerchantRecord(a).None? && MerchantRecord(b) == Some(OrderPaid) && MerchantRecord(c) == Some(OrderCancelled)
    && !a.IsReversal() && !b.IsReversal() && !c.IsReversal()
    && a.amount == b.amount == c.amount && a.currency == b.currency == c.currency
  }

  lemma {:induction false} NothingReversed(orderId: string, events: seq<Event>)
    requires forall e | e in events :: !e.IsReversal()
    ensures ViewAfter(orderId, events).reversalIds == {}
  {
    hide Fold, Accepts;
    if events == [] {
      FoldNone(orderId);
    } else {
      var n := |events| - 1;
      assert events[n] in events;
      NothingReversed(orderId, events[..n]);
      OneMore(orderId, events);
      NoReversalNoId(events[n]);
    }
  }

  lemma FittingAppend(events: seq<Event>, e: Event)
    requires FitsAfter(Fitting(events), e)
    ensures Fitting(events + [e]) == Fitting(events) + [e]
  {
    hide FitsAfter;
    assert (events + [e])[..|events|] == events;
  }

  /** An event stating the charge the first one stated fits behind it. */
  lemma SameChargeFits(a: Event, rest: seq<Event>, e: Event)
    requires a.source == Razorpay && !a.IsReversal() && e.amount == a.amount && e.currency == a.currency
    requires forall x | x in rest :: x.source == Merchant
    ensures FitsAfter([a] + rest, e)
  {
    FirstIsKept(GatewayCurrency, a, rest);
    FirstIsKept(ChargeAmount, a, rest);
    hide FirstSome;
  }

  lemma {:induction false} FirstIsKept<T>(f: Event -> Option<T>, a: Event, rest: seq<Event>)
    requires forall x | x in rest :: f(x).None?
    ensures FirstSome(f, [a] + rest) == f(a)
  {
    if rest == [] {
      assert [a] + rest == [a] && [a][1..] == [];
    } else {
      var n := |rest| - 1;
      FirstIsKept(f, a, rest[..n]);
      assert [a] + rest == ([a] + rest[..n]) + [rest[n]];
      FirstSomeAppend(f, [a] + rest[..n], rest[n]);
    }
  }

  /** The events all state one charge, so all count. */
  lemma AllThreeFit(a: Event, b: Event, c: Event)
    requires PaidThenCancelled(a, b, c)
    ensures FitsAfter([], a) && FitsAfter([a], b) && FitsAfter([a, b], c)
    ensures Fitting([]) == [] && Fitting([a]) == [a] && Fitting([a, b]) == [a, b] && Fitting([a, b, c]) == [a, b, c]
  {
    assert [] + [a] == [a] && [a] + [] == [a] && [a] + [b] == [a, b] && [a, b] + [c] == [a, b, c];
    SameChargeFits(a, [], b);
    SameChargeFits(a, [b], c);
    FittingAppend([], a);
    hide FitsAfter, Fitting;
    FittingAppend([a], b);
    FittingAppend([a, b], c);
  }

  lemma ThreeWords(a: Event, b: Event, c: Event)
    requires PaidThenCancelled(a, b, c)
    ensures FinalGateway([a]) == FinalGateway([a, b]) == FinalGateway([a, b, c]) == Some(PayCaptured)
    ensures FinalMerchant([a]).None? && FinalMerchant([a, b]) == Some(OrderPaid)
    ensures FinalMerchant([a, b, c]) == Some(OrderCancelled)
  {
    AllThreeFit(a, b, c);
    hide Fitting, FitsAfter;
    assert [] + [a] == [a] && [a] + [b] == [a, b] && [a, b] + [c] == [a, b, c];
    LastSomeAppend(GatewayStatus, [], a);
    LastSomeAppend(GatewayStatus, [a], b);
    LastSomeAppend(GatewayStatus, [a, b], c);
    LastSomeAppend(MerchantRecord, [], a);
    LastSomeAppend(MerchantRecord, [a], b);
    LastSomeAppend(MerchantRecord, [a, b], c);
  }

  lemma DriftOfPrefix(orderId: string, events: seq<Event>)
    requires !Blank(orderId) && forall e | e in events :: e.orderId == orderId && !e.IsReversal()
    requires FinalGateway(events) == Some(PayCaptured)
    ensures FinalMerchant(events).None? ==> DriftAfter(orderId, events) == SafeDrift
    ensures FinalMerchant(events) == Some(OrderPaid) ==> DriftAfter(orderId, events) == NoDrift
    ensures FinalMerchant(events) == Some(OrderCancelled) ==> DriftAfter(orderId, events) == UnsafeDrift
  {
    FinalStatuses(orderId, events);
    NothingReversed(orderId, events);
    hide ViewAfter, FinalGateway, FinalMerchant, Blank;
  }

  lemma PaidThenCancelledIsConsistent(orderId: string, a: Event, b: Event, c: Event, now: int, hasGateway: bool,
                                      hasMerchant: bool)
    requires !Blank(orderId) && a.orderId == b.orderId == c.orderId == orderId
    requires PaidThenCancelled(a, b, c)
    ensures Conclude(orderId, [a, b, c], now, hasGateway, hasMerchant) == Consistent
    ensures DriftAfter(orderId, [a, b, c]) == UnsafeDrift
  {
    ThreeWords(a, b, c);
    DriftOfPrefix(orderId, [a]);
    DriftOfPrefix(orderId, [a, b]);
    DriftOfPrefix(orderId, [a, b, c]);
    AllThreeFit(a, b, c);
    FirstTwoAccepted(orderId, a, b);
    hide DriftAfter, ViewAfter, Accepts, FinalGateway, FinalMerchant, Fitting, FitsAfter, Conclude;
    assert [a][..0] == [] && [a, b][..1] == [a] && [a, b, c][..2] == [a, b];
    assert Clean(orderId, []) && Clean(orderId, [a]) && EverSafe(orderId, [a]);
    assert AgreesAt(orderId, [a, b]) && Agreed(orderId, [a, b]);
    ConsistentIff(orderId, [a, b, c], now, hasGateway, hasMerchant);
  }

  lemma FirstTwoAccepted(orderId: string, a: Event, b: Event)
    requires !Blank(orderId) && a.orderId == b.orderId == orderId
    requires FitsAfter([], a) && FitsAfter([a], b) && Fitting([]) == [] && Fitting([a]) == [a]
    ensures Accepts(ViewAfter(orderId, []), a) && Accepts(ViewAfter(orderId, [a]), b)
  {
    FittingAreAccepted(orderId, []);
    FittingAreAccepted(orderId, [a]);
    FoldIsSummary(orderId, []);
    FoldIsSummary(orderId, [a]);
    hide Fold, Accepted, FitsAfter, Fitting, Accepts;
    AcceptsIffFits(ViewAfter(orderId, []), [], a);
    AcceptsIffFits(ViewAfter(orderId, [a]), [a], b);
  }

  /** The report that shows it: captured at the gateway, paid and later cancelled at the
      merchant, for whatever charge, is reported CONSISTENT although the sides end at odds. */
  lemma ConsistentMayEndAtOdds(o: string, amount: nat, currency: string, created: int, now: int)
    requires !Blank(o) && !Blank(currency)
    ensures var g := [CapturedRow(o, amount, currency)];
            var m := [MerchantSays(2, o, "paid", amount, currency), MerchantSays(3, o, "cancelled", amount, currency)];
            && (forall r | r in g :: GatewayRowOk(r)) && (forall r | r in m :: MerchantRowOk(r))
            && ResultFor(o, g, m, created, now).verdict == Consistent
            && DriftAfter(o, EventsOfOrder(g, m, created)) == UnsafeDrift
  {
    var r, p, c := CapturedRow(o, amount, currency), MerchantSays(2, o, "paid", amount, currency),
                   MerchantSays(3, o, "cancelled", amount, currency);
    var a, b, d := GatewayEvent(r, created), MerchantEvent(p, created), MerchantEvent(c, created);
    ThreeRowEvents(r, p, c, created);
    OddsEvents(r, p, c, created);
    PaidThenCancelledIsConsistent(o, a, b, d, now, true, true);
    hide EventsOfOrder, ReplayAll, SimulateRecheck, VerdictOf, DriftAfter, GatewayEvent, MerchantEvent, Blank;
  }

  lemma ThreeRowEvents(r: GatewayRow, p: MerchantRow, c: MerchantRow, created: int)
    requires r.eventTime.None?
    ensures EventsOfOrder([r], [p, c], created) ==
            [GatewayEvent(r, created), MerchantEvent(p, created), MerchantEvent(c, created)]
  {
    hide GatewayEvent, MerchantEvent;
    var items := FileItems([r], [p, c], created);
    assert items[0].time.None?;
  }

  lemma OddsEvents(r: GatewayRow, p: MerchantRow, c: MerchantRow, created: int)
    requires ReversalOf(r).None? && r.status == "captured" && p.status == "paid" && c.status == "cancelled"
    requires p.amount == c.amount == Some(r.amount) && p.currency == c.currency == Some(r.currency)
    ensures PaidThenCancelled(GatewayEvent(r, created), MerchantEvent(p, created), MerchantEvent(c, created))
  {
    ViewCodec.StatusTextsParse(PayCaptured, OrderPaid);
    ViewCodec.StatusTextsParse(PayCaptured, OrderCancelled);
    assert "payment." + "captured" == "payment.captured";
  }
}
