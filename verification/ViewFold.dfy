/** What a stored view means: a fold of the engine's persisted view over an event
sequence, and an independent account of that fold in terms of the events that passed
correlation.
 */
module ViewFold {
  import opened Models
  import opened Text
  import Actions
  import Correlate
  import Compare
  import Drift
  import Engine

  predicate Accepts(view: OrderView, event: Event) {
    Correlate.Correlate(view, event, false).Ok()
  }

  /** The view the engine persists for one event. */
  function Absorb(view: OrderView, event: Event): OrderView {
    Engine.EvaluateAgainst(event, Some(view), None, 0, 0).view
  }

  function Fold(view: OrderView, events: seq<Event>): OrderView {
    if events == [] then view
    else Absorb(Fold(view, events[..|events| - 1]), events[|events| - 1])
  }

  /** The subsequence of `events` that passed correlation. */
  function Accepted(view: OrderView, events: seq<Event>): seq<Event> {
    if events == [] then []
    else
      var n := |events| - 1;
      var before := Accepted(view, events[..n]);
      if Accepts(Fold(view, events[..n]), events[n]) then before + [events[n]] else before
  }

  /** The drift assessed at each event that passed correlation. */
  function AcceptedDrifts(view: OrderView, events: seq<Event>): seq<DriftKind> {
    if events == [] then []
    else
      var n := |events| - 1;
      var before := AcceptedDrifts(view, events[..n]);
      var at := Fold(view, events[..n]);
      if Accepts(at, events[n]) then before + [Compare.Assess(Correlate.Project(at, events[n]))] else before
  }

  /** An accepted event is projected; a rejected one leaves only its id. */
  lemma AbsorbCases(view: OrderView, event: Event)
    ensures Absorb(view, event) ==
            if Accepts(view, event) then Correlate.Project(view, event)
            else view.(seenEventIds := view.seenEventIds + {event.eventId})
  {
    hide Actions.Decide, Correlate.Project, Compare.Assess;
  }

  /** The persisted view does not depend on the pointer, the time, or the delay. */
  lemma PersistedViewIsAbsorb(event: Event, view: Option<OrderView>, status: Option<ReconStatus>, now: int,
                              recheckDelay: int)
    ensures Engine.EvaluateAgainst(event, view, status, now, recheckDelay).view ==
            Absorb(if view.Some? then view.value else EmptyView(event.orderId), event)
  {
    hide Actions.Decide, Correlate.Project, Compare.Assess;
  }

  lemma FoldAppend(view: OrderView, events: seq<Event>, event: Event)
    ensures Fold(view, events + [event]) == Absorb(Fold(view, events), event)
    ensures Accepted(view, events + [event]) ==
            Accepted(view, events) + (if Accepts(Fold(view, events), event) then [event] else [])
  {
    hide Absorb, Accepts;
    assert (events + [event])[..|events|] == events;
  }

  lemma {:induction false} FoldKeepsOrderId(view: OrderView, events: seq<Event>)
    ensures Fold(view, events).orderId == view.orderId
  {
    hide Absorb;
    if events != [] {
      FoldKeepsOrderId(view, events[..|events| - 1]);
      AbsorbCases(Fold(view, events[..|events| - 1]), events[|events| - 1]);
    }
  }

  // ------------------------------------------------------------------
  // Rejected events do not interfere
  // ------------------------------------------------------------------

  predicate SameButSeen(v: OrderView, w: OrderView) {
    v.(seenEventIds := {}) == w.(seenEventIds := {})
  }

  function Selected(events: seq<Event>, keep: seq<bool>): seq<Event>
    requires |keep| == |events|
  {
    if events == [] then []
    else
      var n := |events| - 1;
      Selected(events[..n], keep[..n]) + (if keep[n] then [events[n]] else [])
  }

  lemma AbsorbIgnoresSeen(v: OrderView, w: OrderView, event: Event)
    requires SameButSeen(v, w)
    ensures Accepts(v, event) == Accepts(w, event)
    ensures SameButSeen(Absorb(v, event), Absorb(w, event))
    ensures Compare.Assess(Correlate.Project(v, event)) == Compare.Assess(Correlate.Project(w, event))
  {
    var seen := w.seenEventIds;
    assert w == v.(seenEventIds := seen);
    ProjectIgnoresSeen(v, event, seen);
    AcceptsIgnoresSeen(v, event, seen);
    AssessIgnoresSeen(Correlate.Project(v, event), seen + {event.eventId});
    AbsorbCases(v, event);
    AbsorbCases(w, event);
    hide Absorb, Accepts, Correlate.Project, Compare.Assess;
  }

  lemma ProjectIgnoresSeen(v: OrderView, event: Event, seen: set<string>)
    ensures Correlate.Project(v.(seenEventIds := seen), event) ==
            Correlate.Project(v, event).(seenEventIds := seen + {event.eventId})
  {
  }

  lemma AcceptsIgnoresSeen(v: OrderView, event: Event, seen: set<string>)
    ensures Accepts(v.(seenEventIds := seen), event) == Accepts(v, event)
  {
    hide Correlate.Project;
  }

  lemma AssessIgnoresSeen(v: OrderView, seen: set<string>)
    ensures Compare.Assess(v.(seenEventIds := seen)) == Compare.Assess(v)
  {
  }

  /** Two-run property: delete any of the events that failed correlation. The remaining
      events are still accepted with the same drift, and the final view differs at most in
      the ids it has seen. */
  lemma {:induction false} RejectedEventsDoNotInterfere(view: OrderView, events: seq<Event>, keep: seq<bool>)
    requires |keep| == |events|
    requires forall i | 0 <= i < |events| :: !keep[i] ==> !Accepts(Fold(view, events[..i]), events[i])
    ensures SameButSeen(Fold(view, Selected(events, keep)), Fold(view, events))
    ensures Accepted(view, Selected(events, keep)) == Accepted(view, events)
    ensures AcceptedDrifts(view, Selected(events, keep)) == AcceptedDrifts(view, events)
  {
    hide Absorb, Accepts;
    if events != [] {
      var n := |events| - 1;
      var prefix, last := events[..n], events[n];
      forall i | 0 <= i < n
        ensures !keep[..n][i] ==> !Accepts(Fold(view, prefix[..i]), prefix[i])
      {
        assert prefix[..i] == events[..i];
      }
      RejectedEventsDoNotInterfere(view, prefix, keep[..n]);
      var kept := Selected(prefix, keep[..n]);
      AbsorbIgnoresSeen(Fold(view, kept), Fold(view, prefix), last);
      AbsorbCases(Fold(view, prefix), last);
      assert events[..n] == prefix;
      if keep[n] {
        assert (kept + [last])[..|kept|] == kept;
      } else {
        assert kept + [] == kept;
      }
    }
  }

  // ------------------------------------------------------------------
  // The view as a summary of the accepted events
  // ------------------------------------------------------------------

  function LastSome<T>(f: Event -> Option<T>, events: seq<Event>): Option<T> {
    if events == [] then None
    else
      var last := f(events[|events| - 1]);
      if last.Some? then last else LastSome(f, events[..|events| - 1])
  }

  function FirstSome<T>(f: Event -> Option<T>, events: seq<Event>): Option<T> {
    if events == [] then None
    else if f(events[0]).Some? then f(events[0])
    else FirstSome(f, events[1..])
  }

  /** The payment status a gateway event establishes. */
  function GatewayStatus(event: Event): Option<PaymentStatus> {
    if event.source != Razorpay then None
    else if Correlate.IsCapture(event) then Some(PayCaptured)
    else event.paymentStatus
  }

  /** The order amount a gateway event states; a reversal's amount is its own. */
  function ChargeAmount(event: Event): Option<int> {
    if event.source == Razorpay && !event.IsReversal() then event.amount else None
  }

  function GatewayCurrency(event: Event): Option<string> {
    if event.source == Razorpay then event.currency else None
  }

  function GatewayTime(event: Event): Option<int> {
    if event.source == Razorpay then Some(event.occurredAt) else None
  }

  function MerchantRecord(event: Event): Option<MerchantOrderStatus> {
    if event.source == Merchant then event.merchantStatus else None
  }

  function MerchantTime(event: Event): Option<int> {
    if event.source == Merchant then Some(event.occurredAt) else None
  }

  predicate Settles(event: Event) {
    event.source == Razorpay &&
    (Correlate.IsCapture(event) || event.paymentStatus in {Some(PayCaptured), Some(PayRefunded)})
  }

  function ReversalId(event: Event): Option<string> {
    if event.HasReversalEntity() && Truthy(event.subEntityId) then event.subEntityId else None
  }

  function ReversalIds(events: seq<Event>): set<string> {
    set e | e in events && ReversalId(e).Some? :: ReversalId(e).value
  }

  function Summary(orderId: string, accepted: seq<Event>, all: seq<Event>): OrderView {
    OrderView(orderId,
              LastSome(GatewayStatus, accepted),
              FirstSome(ChargeAmount, accepted),
              FirstSome(GatewayCurrency, accepted),
              LastSome(GatewayTime, accepted),
              LastSome(MerchantRecord, accepted),
              LastSome(MerchantTime, accepted),
              exists e :: e in accepted && Settles(e),
              ReversalIds(accepted),
              set e | e in all :: e.eventId)
  }

  lemma LastSomeAppend<T>(f: Event -> Option<T>, events: seq<Event>, e: Event)
    ensures LastSome(f, events + [e]) == if f(e).Some? then f(e) else LastSome(f, events)
  {
    assert (events + [e])[..|events|] == events;
  }

  /** A later word replaces an earlier one. */
  lemma {:induction false} LastSomeSplit<T>(f: Event -> Option<T>, first: seq<Event>, second: seq<Event>)
    ensures LastSome(f, first + second) == Else(LastSome(f, second), LastSome(f, first))
  {
    if second == [] {
      assert first + second == first;
    } else {
      var n := |second| - 1;
      assert first + second == (first + second[..n]) + [second[n]];
      LastSomeAppend(f, first + second[..n], second[n]);
      LastSomeSplit(f, first, second[..n]);
    }
  }

  /** Folding in two parts is folding the whole. */
  lemma {:induction false} FoldSplit(view: OrderView, first: seq<Event>, second: seq<Event>)
    ensures Fold(view, first + second) == Fold(Fold(view, first), second)
    ensures Accepted(view, first + second) == Accepted(view, first) + Accepted(Fold(view, first), second)
  {
    hide Absorb, Accepts;
    if second == [] {
      assert first + second == first;
    } else {
      var n := |second| - 1;
      assert first + second == (first + second[..n]) + [second[n]];
      assert second == second[..n] + [second[n]];
      FoldSplit(view, first, second[..n]);
      FoldAppend(view, first + second[..n], second[n]);
      FoldAppend(Fold(view, first), second[..n], second[n]);
    }
  }

  lemma {:induction false} FirstSomeAppend<T>(f: Event -> Option<T>, events: seq<Event>, e: Event)
    ensures FirstSome(f, events + [e]) == if FirstSome(f, events).Some? then FirstSome(f, events) else f(e)
  {
    if events == [] {
      assert events + [e] == [e];
      assert [e][1..] == [];
    } else {
      assert (events + [e])[1..] == events[1..] + [e];
      FirstSomeAppend(f, events[1..], e);
    }
  }

  function Else<T>(first: Option<T>, second: Option<T>): Option<T> {
    if first.Some? then first else second
  }

  /** Projection, field by field, in terms of what the event says. */
  lemma ProjectFields(v: OrderView, e: Event)
    ensures var w := Correlate.Project(v, e);
            && w.orderId == v.orderId
            && w.razorpayStatus == Else(GatewayStatus(e), v.razorpayStatus)
            && w.razorpayAmount == Else(v.razorpayAmount, ChargeAmount(e))
            && w.razorpayCurrency == Else(v.razorpayCurrency, GatewayCurrency(e))
            && w.razorpayLastEventAt == Else(GatewayTime(e), v.razorpayLastEventAt)
            && w.merchantStatus == Else(MerchantRecord(e), v.merchantStatus)
            && w.merchantLastEventAt == Else(MerchantTime(e), v.merchantLastEventAt)
            && w.settled == (v.settled || Settles(e))
            && w.reversalIds == v.reversalIds + ReversalIds([e])
            && w.seenEventIds == v.seenEventIds + {e.eventId}
  {
    assert ReversalIds([e]) == if ReversalId(e).Some? then {ReversalId(e).value} else {} by {
      assert e in [e];
    }
  }

  lemma SummaryAppend(orderId: string, accepted: seq<Event>, all: seq<Event>, e: Event)
    ensures Summary(orderId, accepted + [e], all + [e]) == Correlate.Project(Summary(orderId, accepted, all), e)
  {
    hide Correlate.Project;
    var before, after := Summary(orderId, accepted, all), Summary(orderId, accepted + [e], all + [e]);
    ProjectFields(before, e);
    LastSomeAppend(GatewayStatus, accepted, e);
    FirstSomeAppend(ChargeAmount, accepted, e);
    FirstSomeAppend(GatewayCurrency, accepted, e);
    LastSomeAppend(GatewayTime, accepted, e);
    LastSomeAppend(MerchantRecord, accepted, e);
    LastSomeAppend(MerchantTime, accepted, e);
    assert after.settled == (before.settled || Settles(e)) by {
      assert e in accepted + [e];
    }
    assert after.reversalIds == before.reversalIds + ReversalIds([e]) by {
      assert forall x :: x in accepted + [e] <==> x in accepted || x in [e];
    }
    assert after.seenEventIds == before.seenEventIds + {e.eventId} by {
      assert forall x :: x in all + [e] <==> x in all || x == e;
    }
  }

  /** The fold is exactly the summary: last status of each side, first amount and currency,
      every reversal id, over the accepted events only; plus every id ever seen. */
  lemma {:induction false} FoldIsSummary(orderId: string, events: seq<Event>)
    ensures Fold(EmptyView(orderId), events) ==
            Summary(orderId, Accepted(EmptyView(orderId), events), events)
  {
    hide Absorb, Accepts, Correlate.Project;
    var v := EmptyView(orderId);
    if events != [] {
      var n := |events| - 1;
      var prefix, e := events[..n], events[n];
      FoldIsSummary(orderId, prefix);
      var accepted := Accepted(v, prefix);
      assert events == prefix + [e];
      FoldAppend(v, prefix, e);
      SummaryAppend(orderId, accepted, prefix, e);
      AbsorbCases(Fold(v, prefix), e);
      if !Accepts(Fold(v, prefix), e) {
        assert Summary(orderId, accepted, events) ==
               Fold(v, prefix).(seenEventIds := Fold(v, prefix).seenEventIds + {e.eventId}) by {
          assert forall x :: x in events <==> x in prefix || x == e;
          assert (set x | x in events :: x.eventId) == (set x | x in prefix :: x.eventId) + {e.eventId};
        }
        assert accepted + [] == accepted;
      }
    }
  }

  /** Every accepted gateway charge states the one amount on the view, and every accepted
      gateway currency is the one on the view up to letter case, provided no event carries
      an empty currency text. */
  lemma {:induction false} AcceptedChargesAgree(orderId: string, events: seq<Event>)
    requires forall e | e in events :: e.currency != Some("")
    ensures var view := Fold(EmptyView(orderId), events);
            forall e | e in Accepted(EmptyView(orderId), events) ::
              && (ChargeAmount(e).Some? ==> view.razorpayAmount == ChargeAmount(e))
              && (GatewayCurrency(e).Some? ==>
                    view.razorpayCurrency.Some? && view.razorpayCurrency != Some("") &&
                    Upper(GatewayCurrency(e).value) == Upper(view.razorpayCurrency.value))
    ensures Fold(EmptyView(orderId), events).razorpayCurrency != Some("")
  {
    hide Absorb, Correlate.Project;
    var v := EmptyView(orderId);
    if events != [] {
      var n := |events| - 1;
      AcceptedChargesAgree(orderId, events[..n]);
      AbsorbCases(Fold(v, events[..n]), events[n]);
      ProjectFields(Fold(v, events[..n]), events[n]);
      var before, after := Fold(v, events[..n]), Fold(v, events);
      assert events[n] in events;
      assert before.razorpayAmount.Some? ==> after.razorpayAmount == before.razorpayAmount;
      assert before.razorpayCurrency.Some? ==> after.razorpayCurrency == before.razorpayCurrency;
      forall e | e in Accepted(v, events)
        ensures ChargeAmount(e).Some? ==> after.razorpayAmount == ChargeAmount(e)
        ensures GatewayCurrency(e).Some? ==>
                  after.razorpayCurrency.Some? && after.razorpayCurrency != Some("") &&
                  Upper(GatewayCurrency(e).value) == Upper(after.razorpayCurrency.value)
      {
        if e !in Accepted(v, events[..n]) {
          assert e == events[n] && Accepts(before, e);
          assert !Correlate.AmountConflict(before, e) && !Correlate.CurrencyConflict(before, e);
        }
      }
    }
  }

  /** Along any extension of the sequence: amount and currency are write-once, `settled`
      never resets, reversal ids and seen ids only grow. */
  lemma {:induction false} ViewOnlyGrows(view: OrderView, events: seq<Event>, i: nat)
    requires i <= |events|
    ensures var v, w := Fold(view, events[..i]), Fold(view, events);
            && (v.razorpayAmount.Some? ==> w.razorpayAmount == v.razorpayAmount)
            && (v.razorpayCurrency.Some? ==> w.razorpayCurrency == v.razorpayCurrency)
            && (v.settled ==> w.settled)
            && v.reversalIds <= w.reversalIds
            && v.seenEventIds <= w.seenEventIds
  {
    hide Absorb, Accepts, Correlate.Project;
    if i == |events| {
      assert events[..i] == events;
    } else {
      var n := |events| - 1;
      assert events[..n][..i] == events[..i];
      ViewOnlyGrows(view, events[..n], i);
      AbsorbCases(Fold(view, events[..n]), events[n]);
      ProjectFields(Fold(view, events[..n]), events[n]);
    }
  }

  /** The evidence an automatic correction rests on, read off the accepted events. */
  predicate SafeEvidence(accepted: seq<Event>) {
    && LastSome(GatewayStatus, accepted) == Some(PayCaptured)
    && (forall e | e in accepted :: ReversalId(e).None?)
    && LastSome(MerchantRecord, accepted) in {Some(OrderPending), Some(OrderFailed)}
  }

  /** Safe drift with the merchant heard from, which is what a recheck corrects on, is safe
      evidence and nothing else. */
  lemma SafeRecheckIff(orderId: string, events: seq<Event>)
    ensures var view := Fold(EmptyView(orderId), events);
            (Compare.Assess(view) == SafeDrift && view.merchantStatus.Some?) <==>
            SafeEvidence(Accepted(EmptyView(orderId), events))
  {
    hide Absorb, Accepts, Compare.Assess;
    var view, accepted := Fold(EmptyView(orderId), events), Accepted(EmptyView(orderId), events);
    FoldIsSummary(orderId, events);
    Drift.SafeIff(view);
    assert view.reversalIds == {} <==> forall e | e in accepted :: ReversalId(e).None? by {
      forall e | e in accepted && ReversalId(e).Some? ensures ReversalId(e).value in view.reversalIds {
      }
    }
  }
}
