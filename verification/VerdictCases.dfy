/** The other four verdicts, read off the events as AUTO_CORRECT and CONSISTENT are. */
module VerdictCases {
  import opened Models
  import opened Refinement
  import opened Verdicts
  import Compare
  import Correlate
  import Text
  import ViewFold

  // ------------------------------------------------------------------
  // How a replay can go
  // ------------------------------------------------------------------

  predicate LastAccepted(orderId: string, events: seq<Event>)
    requires events != []
  {
    ViewFold.Accepts(ViewAfter(orderId, events[..|events| - 1]), events[|events| - 1])
  }

  /** Nothing has settled the order: no accepted event reversed the payment, and none brought
      the sides to agree after a drift. */
  predicate Open(orderId: string, events: seq<Event>) {
    events == [] ||
    (var before := events[..|events| - 1];
     && Open(orderId, before)
     && (LastAccepted(orderId, events) ==>
           && DriftAfter(orderId, events) != ReversalDrift
           && (DriftAfter(orderId, events) == NoDrift ==> !EverSafe(orderId, before))))
  }

  /** While the order was open an accepted event reversed the payment, or a reversal of any
      kind came after the order had been settled. */
  predicate Reversed(orderId: string, events: seq<Event>) {
    events != [] &&
    (var before := events[..|events| - 1];
     || Reversed(orderId, before)
     || (if Open(orderId, before) then LastAccepted(orderId, events) && DriftAfter(orderId, events) == ReversalDrift
         else events[|events| - 1].IsReversal()))
  }

  /** While the order was open an event contradicted what was known of it. */
  predicate Contradicted(orderId: string, events: seq<Event>) {
    events != [] &&
    (var before := events[..|events| - 1];
     Contradicted(orderId, before) || (Open(orderId, before) && !LastAccepted(orderId, events)))
  }

  /** While the order was open an accepted event put the two sides at odds. */
  predicate AtOdds(orderId: string, events: seq<Event>) {
    events != [] &&
    (var before := events[..|events| - 1];
     || AtOdds(orderId, before)
     || (Open(orderId, before) && LastAccepted(orderId, events) && DriftAfter(orderId, events) == UnsafeDrift))
  }

  // ------------------------------------------------------------------
  // The replay records exactly that
  // ------------------------------------------------------------------

  predicate IsOpen(r: Replay) {
    r.carried.status in {None, Some(PendingRecheck)}
  }

  lemma StepCases(r: Replay, d: Decision, r': Replay, reversal: bool, accepted: bool, drift: DriftKind)
    requires Judged(d, r.carried.status, reversal, accepted, drift)
    requires r.carried.status in {None, Some(PendingRecheck), Some(ResolvedNaturally), Some(Disputed)}
    requires r'.check == NextCheck(r.check, d) && r'.risky == NextRisky(r.risky, d)
    requires r'.carried.status == After(r.carried.status, d)
    ensures IsOpen(r') <==>
            && IsOpen(r)
            && (accepted ==> drift != ReversalDrift &&
                             (drift == NoDrift ==> r.carried.status != Some(PendingRecheck)))
    ensures IsOpen(r') ==>
              (r'.carried.status == Some(PendingRecheck) <==>
                 r.carried.status == Some(PendingRecheck) || (accepted && drift == SafeDrift))
    ensures r'.carried.status == Some(Disputed) <==>
            || r.carried.status == Some(Disputed)
            || (if IsOpen(r) then accepted && drift == ReversalDrift else reversal)
    ensures r'.check.Some? <==> r.check.Some? || (IsOpen(r) && !accepted)
    ensures r'.risky <==> r.risky || (IsOpen(r) && accepted && drift == UnsafeDrift)
  {
  }

  /** A rejected event changes no drift. */
  lemma RejectedKeepsDrift(orderId: string, events: seq<Event>)
    requires events != [] && !LastAccepted(orderId, events)
    ensures DriftAfter(orderId, events) == DriftAfter(orderId, events[..|events| - 1])
    ensures EverSafe(orderId, events) <==> EverSafe(orderId, events[..|events| - 1])
  {
    var before, e := events[..|events| - 1], events[|events| - 1];
    ViewFold.AbsorbCases(ViewAfter(orderId, before), e);
    hide ViewFold.Absorb, ViewFold.Accepts;
    var v := ViewAfter(orderId, before);
    assert ViewAfter(orderId, events) == v.(seenEventIds := v.seenEventIds + {e.eventId});
    ViewFold.AssessIgnoresSeen(v, v.seenEventIds + {e.eventId});
    if before == [] {
      assert v == EmptyView(orderId);
    }
  }

  predicate Records(r: Replay, orderId: string, events: seq<Event>) {
    && (IsOpen(r) <==> Open(orderId, events))
    && (IsOpen(r) ==> (r.carried.status == Some(PendingRecheck) <==> EverSafe(orderId, events)))
    && (r.carried.status == Some(Disputed) <==> Reversed(orderId, events))
    && (r.check.Some? <==> Contradicted(orderId, events))
    && (r.risky <==> AtOdds(orderId, events))
  }

  lemma RecordsNext(r: Replay, d: Decision, r': Replay, orderId: string, events: seq<Event>)
    requires events != [] && Records(r, orderId, events[..|events| - 1])
    requires Judged(d, r.carried.status, events[|events| - 1].IsReversal(), LastAccepted(orderId, events),
                    if LastAccepted(orderId, events) then DriftAfter(orderId, events) else NoDrift)
    requires r.carried.status in {None, Some(PendingRecheck), Some(ResolvedNaturally), Some(Disputed)}
    requires r'.check == NextCheck(r.check, d) && r'.risky == NextRisky(r.risky, d)
    requires r'.carried.status == After(r.carried.status, d)
    ensures Records(r', orderId, events)
  {
    var accepted := LastAccepted(orderId, events);
    if !accepted { RejectedKeepsDrift(orderId, events); }
    StepCases(r, d, r', events[|events| - 1].IsReversal(), accepted,
              if accepted then DriftAfter(orderId, events) else NoDrift);
    hide Judged, DriftAfter, LastAccepted, NextCheck, NextRisky, IsOpen;
  }

  lemma {:induction false} ReplayRecords(orderId: string, events: seq<Event>, now: int)
    requires forall e | e in events :: e.orderId == orderId
    ensures Records(ReplayAll(events, now), orderId, events)
  {
    if events != [] {
      var n := |events| - 1;
      var r, e := ReplayAll(events[..n], now), events[n];
      ReplayRecords(orderId, events[..n], now);
      ReplayMeaning(orderId, events[..n], now);
      ReplayFollowsEvents(events, now);
      ReplayFollowsEvents(events[..n], now);
      assert e in events;
      JudgeCases(r.carried, e, now);
      DriftIsAssessed(orderId, events);
      hide Records, DriftAfter, Judge, ToolFold;
      RecordsNext(r, Judge(r.carried, e, now), ReplayAll(events, now), orderId, events);
    }
  }

  // ------------------------------------------------------------------
  // The simulated recheck
  // ------------------------------------------------------------------

  /** An open order that ever drifted has not come to agree, nor been reversed. */
  lemma {:induction false} OpenDrift(orderId: string, events: seq<Event>)
    requires Open(orderId, events) && EverSafe(orderId, events)
    ensures DriftAfter(orderId, events) !in {NoDrift, ReversalDrift}
  {
    hide DriftAfter, LastAccepted;
    if !LastAccepted(orderId, events) {
      RejectedKeepsDrift(orderId, events);
      OpenDrift(orderId, events[..|events| - 1]);
    }
  }

  /** So the simulated recheck settles an order only as a correction. */
  lemma RecheckNeverDisputes(orderId: string, events: seq<Event>, now: int)
    requires !Text.Blank(orderId) && forall e | e in events :: e.orderId == orderId
    ensures var before, after := ReplayAll(events, now), SimulateRecheck(orderId, ReplayAll(events, now), now);
            && after.check == before.check && after.risky == before.risky
            && (before.carried.status != Some(PendingRecheck) ==> after == before)
            && (before.carried.status == Some(PendingRecheck) ==>
                  after.carried.status in {Some(PendingRecheck), Some(ResolvedAutocorrected)})
  {
    var r := ReplayAll(events, now);
    ReplayRecords(orderId, events, now);
    ReplayMeaning(orderId, events, now);
    if r.carried.status == Some(PendingRecheck) {
      OpenDrift(orderId, events);
      ToolRecheckOutcome(orderId, r.carried, now, DELAY);
    }
    hide ReplayAll, ToolRecheck, Open, EverSafe, Reversed, Contradicted, AtOdds, Compare.Assess, Text.Blank;
  }

  // ------------------------------------------------------------------
  // Verdicts
  // ------------------------------------------------------------------

  /** DISPUTED exactly when an accepted event reversed the payment of an open order, or any
      reversal came after the order was settled. */
  lemma DisputedIff(orderId: string, events: seq<Event>, now: int, hasGateway: bool, hasMerchant: bool)
    requires !Text.Blank(orderId) && forall e | e in events :: e.orderId == orderId
    ensures Conclude(orderId, events, now, hasGateway, hasMerchant) == DisputedOrder <==> Reversed(orderId, events)
  {
    ReplayRecords(orderId, events, now);
    RecheckNeverDisputes(orderId, events, now);
    hide ReplayAll, SimulateRecheck, Open, EverSafe, Reversed, Contradicted, AtOdds, Text.Blank;
  }

  /** CORRELATION_FAILED exactly when, no reversal having settled it otherwise, an event
      contradicted the order while it was open. */
  lemma CorrelationFailedIff(orderId: string, events: seq<Event>, now: int, hasGateway: bool, hasMerchant: bool)
    requires !Text.Blank(orderId) && forall e | e in events :: e.orderId == orderId
    ensures Conclude(orderId, events, now, hasGateway, hasMerchant) == CorrelationFailed <==>
            !Reversed(orderId, events) && Contradicted(orderId, events)
  {
    ReplayRecords(orderId, events, now);
    RecheckNeverDisputes(orderId, events, now);
    hide ReplayAll, SimulateRecheck, Open, EverSafe, Reversed, Contradicted, AtOdds, Text.Blank;
  }

  /** FLAGGED_RISKY exactly when, nothing having reversed or contradicted the order, an event
      put its sides at odds while it was open. */
  lemma FlaggedRiskyIff(orderId: string, events: seq<Event>, now: int, hasGateway: bool, hasMerchant: bool)
    requires !Text.Blank(orderId) && forall e | e in events :: e.orderId == orderId
    ensures Conclude(orderId, events, now, hasGateway, hasMerchant) == FlaggedRisky <==>
            !Reversed(orderId, events) && !Contradicted(orderId, events) && AtOdds(orderId, events)
  {
    ReplayRecords(orderId, events, now);
    RecheckNeverDisputes(orderId, events, now);
    hide ReplayAll, SimulateRecheck, Open, EverSafe, Reversed, Contradicted, AtOdds, Text.Blank;
  }

  /** UNRESOLVED exactly when the events are clean and either drifted without the evidence
      for a correction, or never drifted and do not end in agreement of two sides present. */
  lemma UnresolvedIff(orderId: string, events: seq<Event>, now: int, hasGateway: bool, hasMerchant: bool)
    requires !Text.Blank(orderId) && forall e | e in events :: e.orderId == orderId
    ensures Conclude(orderId, events, now, hasGateway, hasMerchant) == Unresolved <==>
            && Clean(orderId, events)
            && if EverSafe(orderId, events) then
                 !ViewFold.SafeEvidence(ViewFold.Accepted(EmptyView(orderId), events))
               else
                 !(DriftAfter(orderId, events) == NoDrift && hasGateway && hasMerchant)
  {
    var r := ReplayAll(events, now);
    ReplayMeaning(orderId, events, now);
    RecheckNeverDisputes(orderId, events, now);
    if Clean(orderId, events) {
      CleanRecheck(orderId, events, now);
      assert Compare.Assess(EmptyView(orderId)) != NoDrift;
    }
    hide ReplayAll, ToolRecheck, Clean, EverSafe, Agreed, Compare.Assess, ViewFold.SafeEvidence, ViewFold.Accepted;
  }

  // ------------------------------------------------------------------
  // The check reported
  // ------------------------------------------------------------------

  /** The first event to contradict the order while it was open is at `i`, and it failed this
      check. */
  predicate FirstFailure(orderId: string, events: seq<Event>, i: nat, failure: CorrelationFailure) {
    && i < |events|
    && Open(orderId, events[..i]) && !Contradicted(orderId, events[..i])
    && Correlate.Correlate(ViewAfter(orderId, events[..i]), events[i], false).failure == Some(failure)
  }

  lemma FlagNamesFailure(c: Carried, event: Event, now: int)
    requires c.status in {None, Some(PendingRecheck), Some(ResolvedNaturally), Some(Disputed)}
    ensures var d := Judge(c, event, now);
            d.action == FlagForReview && d.review.Some? && IsCheck(d.review.value.reason) ==>
              && c.status in {None, Some(PendingRecheck)}
              && Correlate.Correlate(ViewIn(event.orderId, c), event, false).failure ==
                 Some(d.review.value.reason.failure)
  {
    hide Compare.Assess, Correlate.Correlate;
  }

  /** The check, if any, is the one the first contradicting event failed. */
  ghost predicate NamesFirst(orderId: string, events: seq<Event>, check: Option<CorrelationFailure>) {
    check.Some? ==> exists i: nat :: FirstFailure(orderId, events, i, check.value)
  }

  lemma StillNamed(orderId: string, events: seq<Event>, check: Option<CorrelationFailure>)
    requires events != [] && NamesFirst(orderId, events[..|events| - 1], check)
    ensures NamesFirst(orderId, events, check)
  {
    hide Open, Contradicted, Correlate.Correlate, ViewAfter;
    if check.Some? {
      var n := |events| - 1;
      var i: nat :| FirstFailure(orderId, events[..n], i, check.value);
      assert events[..n][..i] == events[..i];
      assert FirstFailure(orderId, events, i, check.value);
    }
  }

  lemma NewlyNamed(orderId: string, events: seq<Event>, r: Replay, now: int)
    requires events != [] && events[|events| - 1].orderId == orderId
    requires Records(r, orderId, events[..|events| - 1]) && r.check.None?
    requires ViewIn(orderId, r.carried) == ViewAfter(orderId, events[..|events| - 1])
    requires r.carried.status in {None, Some(PendingRecheck), Some(ResolvedNaturally), Some(Disputed)}
    ensures NamesFirst(orderId, events, NextCheck(None, Judge(r.carried, events[|events| - 1], now)))
  {
    var n := |events| - 1;
    FlagNamesFailure(r.carried, events[n], now);
    hide Open, Contradicted, Correlate.Correlate, ViewAfter, ViewIn, Judge, EverSafe, Reversed, AtOdds;
    var check := NextCheck(None, Judge(r.carried, events[n], now));
    if check.Some? {
      assert FirstFailure(orderId, events, n, check.value);
    }
  }

  /** The check a replay ends with is the one the first contradicting event failed. */
  lemma {:induction false} CheckNamesFirst(orderId: string, events: seq<Event>, now: int)
    requires forall e | e in events :: e.orderId == orderId
    ensures NamesFirst(orderId, events, ReplayAll(events, now).check)
  {
    if events != [] {
      var n := |events| - 1;
      var r := ReplayAll(events[..n], now);
      CheckNamesFirst(orderId, events[..n], now);
      ReplayRecords(orderId, events[..n], now);
      ReplayMeaning(orderId, events[..n], now);
      assert events[n] in events;
      hide Records, NamesFirst, ViewAfter, ViewIn, Judge, ToolStep, Clean, Agreed, EverSafe, RunsClean, RunsAgreed;
      if r.check.Some? {
        StillNamed(orderId, events, r.check);
      } else {
        NewlyNamed(orderId, events, r, now);
      }
    }
  }
}
