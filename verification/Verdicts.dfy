/** The stateless tool's verdict on one order: replay its events, simulate one recheck,
and read the verdict off what the engine said. */
module Verdicts {
  import opened Models
  import opened Recheck
  import opened Refinement
  import opened Normalize
  import opened StoreInvariant
  import opened Tables
  import Compare
  import Correlate
  import Engine
  import Text
  import ViewFold

  /** DEFAULT_RECHECK_DELAY: ten minutes. */
  const DELAY := 600 * SECOND

  datatype Verdict = AutoCorrect | Consistent | FlaggedRisky | DisputedOrder | CorrelationFailed | Unresolved

  datatype TrailStep = TrailStep(eventId: Option<string>, action: Action, statusAfter: Option<ReconStatus>)

  datatype Replay = Replay(carried: Carried, check: Option<CorrelationFailure>, risky: bool, trail: seq<TrailStep>)

  const BLANK := Replay(START, None, false, [])

  function Judge(c: Carried, event: Event, now: int): Decision {
    Engine.EvaluateAgainst(event, c.view, c.status, now, DELAY).decision
  }

  /** A missing merchant record is reported as UNRESOLVED, not as a failed check. */
  predicate IsCheck(reason: ReviewReason) {
    reason.CorrelationReview? && reason.failure != NoMerchantRecord
  }

  function NextCheck(check: Option<CorrelationFailure>, d: Decision): Option<CorrelationFailure> {
    if d.action == FlagForReview && d.review.Some? && IsCheck(d.review.value.reason) && check.None?
    then Some(d.review.value.reason.failure) else check
  }

  function NextRisky(risky: bool, d: Decision): bool {
    risky || (d.action == FlagForReview && d.review.Some? && d.review.value.reason == UnsafeDriftReview)
  }

  function ReplayStep(r: Replay, event: Event, now: int): Replay {
    var d, next := Judge(r.carried, event, now), ToolStep(r.carried, event, now, DELAY);
    Replay(next, NextCheck(r.check, d), NextRisky(r.risky, d),
           r.trail + [TrailStep(Some(event.eventId), d.action, next.status)])
  }

  function ReplayAll(events: seq<Event>, now: int): Replay {
    if events == [] then BLANK
    else ReplayStep(ReplayAll(events[..|events| - 1], now), events[|events| - 1], now)
  }

  /** Every event leaves one step in the trail, and the state carried is the fold's. */
  lemma {:induction false} ReplayFollowsEvents(events: seq<Event>, now: int)
    ensures var r := ReplayAll(events, now);
            && r.carried == ToolFold(events, now, DELAY)
            && |r.trail| == |events|
            && forall i | 0 <= i < |events| :: r.trail[i].eventId == Some(events[i].eventId)
  {
    hide ToolStep, Judge;
    if events != [] {
      ReplayFollowsEvents(events[..|events| - 1], now);
    }
  }

  /** Each step of the trail records the action decided on its event against what the events
      before it left, and the status after it. */
  lemma {:induction false} TrailTellsDecisions(events: seq<Event>, now: int, i: nat)
    requires i < |events|
    ensures var r, before := ReplayAll(events, now), ToolFold(events[..i], now, DELAY);
            && |r.trail| == |events|
            && r.trail[i].eventId == Some(events[i].eventId)
            && r.trail[i].action ==
                 Engine.EvaluateAgainst(events[i], before.view, before.status, now, DELAY).decision.action
            && r.trail[i].statusAfter == ToolFold(events[..i + 1], now, DELAY).status
  {
    hide ToolStep, Engine.EvaluateAgainst;
    var n := |events| - 1;
    ReplayFollowsEvents(events[..n], now);
    if i < n {
      TrailTellsDecisions(events[..n], now, i);
      assert events[..n][..i] == events[..i] && events[..n][..i + 1] == events[..i + 1];
    } else {
      assert events[..i + 1] == events;
    }
  }

  function SimulateRecheck(orderId: string, r: Replay, now: int): Replay {
    if r.carried.status != Some(PendingRecheck) then r
    else
      var next := ToolRecheck(orderId, r.carried, now, DELAY);
      var d := EvaluateRecheck(orderId, StatelessId(orderId), r.carried.view, now + DELAY, DELAY).decision;
      r.(carried := next, trail := r.trail + [TrailStep(None, d.action, next.status)])
  }

  function VerdictOf(r: Replay, hasGateway: bool, hasMerchant: bool): Verdict {
    var status := r.carried.status;
    if status == Some(Disputed) then DisputedOrder
    else if r.check.Some? then CorrelationFailed
    else if r.risky then FlaggedRisky
    else if status == Some(ResolvedAutocorrected) then AutoCorrect
    else if status == Some(ResolvedNaturally) then Consistent
    else if status.None? && r.carried.view.Some? && hasGateway && hasMerchant &&
            Compare.Assess(r.carried.view.value) == NoDrift then Consistent
    else Unresolved
  }

  function Conclude(orderId: string, events: seq<Event>, now: int, hasGateway: bool, hasMerchant: bool): Verdict {
    VerdictOf(SimulateRecheck(orderId, ReplayAll(events, now), now), hasGateway, hasMerchant)
  }

  // ------------------------------------------------------------------
  // What a verdict means, in terms of the events alone
  // ------------------------------------------------------------------

  function ViewAfter(orderId: string, events: seq<Event>): OrderView {
    ViewFold.Fold(EmptyView(orderId), events)
  }

  function DriftAfter(orderId: string, events: seq<Event>): DriftKind {
    Compare.Assess(ViewAfter(orderId, events))
  }

  /** At some point of the replay the gateway had the money and the merchant had not. */
  predicate EverSafe(orderId: string, events: seq<Event>) {
    events != [] && (DriftAfter(orderId, events) == SafeDrift || EverSafe(orderId, events[..|events| - 1]))
  }

  /** Every event was accepted, none put the two sides at odds or reversed the payment, and
      the sides did not come to agree after a drift. */
  predicate Clean(orderId: string, events: seq<Event>) {
    events == [] ||
    (var n := |events| - 1;
     && Clean(orderId, events[..n])
     && ViewFold.Accepts(ViewAfter(orderId, events[..n]), events[n])
     && DriftAfter(orderId, events) !in {UnsafeDrift, ReversalDrift}
     && (DriftAfter(orderId, events) == NoDrift ==> !EverSafe(orderId, events[..n])))
  }

  /** The last event is the one that, after a clean start with a drift, brought the sides to
      agree. */
  predicate AgreesAt(orderId: string, events: seq<Event>) {
    events != [] &&
    (var n := |events| - 1;
     && Clean(orderId, events[..n]) && EverSafe(orderId, events[..n])
     && ViewFold.Accepts(ViewAfter(orderId, events[..n]), events[n])
     && DriftAfter(orderId, events) == NoDrift)
  }

  /** After a clean start with a drift the sides came to agree, and no reversal followed. */
  predicate Agreed(orderId: string, events: seq<Event>) {
    events != [] &&
    (var n := |events| - 1;
     (Agreed(orderId, events[..n]) && !events[n].IsReversal()) || AgreesAt(orderId, events))
  }

  // ------------------------------------------------------------------
  // One event
  // ------------------------------------------------------------------

  /** The engine's decision on one event, for the pointer states the tool can be in. */
  predicate Judged(d: Decision, status: Option<ReconStatus>, reversal: bool, accepted: bool, drift: DriftKind) {
    var flagged := d.action == FlagForReview && d.review.Some?;
    if status.Some? && IsTerminal(status.value) then
      !flagged && d.newStatus == if reversal && status != Some(Disputed) then Some(Disputed) else None
    else if !accepted then
      flagged && IsCheck(d.review.value.reason) && d.newStatus.None?
    else if drift == UnsafeDrift then
      flagged && d.review.value.reason == UnsafeDriftReview && d.newStatus.None?
    else
      !flagged &&
      d.newStatus == (match drift
                      case SafeDrift => Some(PendingRecheck)
                      case ReversalDrift => Some(Disputed)
                      case NoDrift => if status == Some(PendingRecheck) then Some(ResolvedNaturally) else None
                      case _ => None)
  }

  lemma JudgeCases(c: Carried, event: Event, now: int)
    requires c.status != Some(Processing)
    ensures var view := ViewIn(event.orderId, c);
            Judged(Judge(c, event, now), c.status, event.IsReversal(), ViewFold.Accepts(view, event),
                   Compare.Assess(Correlate.Project(view, event)))
  {
    var view := ViewIn(event.orderId, c);
    assert Correlate.Correlate(view, event, false).view == Correlate.Project(view, event);
    hide Compare.Assess, Correlate.Project, Correlate.AmountConflict, Correlate.CurrencyConflict, Text.Blank;
  }

  predicate RunsClean(r: Replay) {
    r.check.None? && !r.risky && r.carried.status in {None, Some(PendingRecheck)}
  }

  predicate RunsAgreed(r: Replay) {
    r.check.None? && !r.risky && r.carried.status == Some(ResolvedNaturally)
  }

  /** The state of a replay, read off the decision on its last event. */
  lemma StepOutcome(r: Replay, d: Decision, r': Replay, reversal: bool, accepted: bool, drift: DriftKind)
    requires Judged(d, r.carried.status, reversal, accepted, drift)
    requires r.carried.status in {None, Some(PendingRecheck), Some(ResolvedNaturally), Some(Disputed)}
    requires r'.check == NextCheck(r.check, d) && r'.risky == NextRisky(r.risky, d)
    requires r'.carried.status == After(r.carried.status, d)
    ensures r'.carried.status in {None, Some(PendingRecheck), Some(ResolvedNaturally), Some(Disputed)}
    ensures RunsClean(r') <==>
            && RunsClean(r) && accepted && drift !in {UnsafeDrift, ReversalDrift}
            && (drift == NoDrift ==> r.carried.status.None?)
    ensures RunsClean(r') ==>
            (r'.carried.status == Some(PendingRecheck) <==>
               drift == SafeDrift || r.carried.status == Some(PendingRecheck))
    ensures RunsAgreed(r') <==>
            || (RunsAgreed(r) && !reversal)
            || (RunsClean(r) && r.carried.status == Some(PendingRecheck) && accepted && drift == NoDrift)
  {
  }

  lemma ReplayStepOutcome(orderId: string, events: seq<Event>, now: int)
    requires events != [] && forall e | e in events :: e.orderId == orderId
    ensures var n := |events| - 1;
            var view := ViewAfter(orderId, events[..n]);
            ViewIn(orderId, ToolFold(events[..n], now, DELAY)) == view ==>
              ViewIn(orderId, ToolFold(events, now, DELAY)) == ViewAfter(orderId, events)
    ensures ToolFold(events, now, DELAY).view.Some?
  {
    var n := |events| - 1;
    var c := ToolFold(events[..n], now, DELAY);
    assert events[n] in events;
    ToolStepCases(c, events[n], now, now, DELAY);
    hide ToolStep, ViewFold.Absorb, Engine.EvaluateAgainst;
  }

  lemma DriftIsAssessed(orderId: string, events: seq<Event>)
    requires events != []
    ensures var n := |events| - 1;
            var view := ViewAfter(orderId, events[..n]);
            ViewFold.Accepts(view, events[n]) ==>
              DriftAfter(orderId, events) == Compare.Assess(Correlate.Project(view, events[n]))
  {
    ViewFold.AbsorbCases(ViewAfter(orderId, events[..|events| - 1]), events[|events| - 1]);
    hide ViewFold.Absorb, ViewFold.Accepts, Compare.Assess, Correlate.Project;
  }

  /** The replay's flags and pointer say exactly whether the sequence is clean or agreed. */
  lemma {:induction false} ReplayMeaning(orderId: string, events: seq<Event>, now: int)
    requires forall e | e in events :: e.orderId == orderId
    ensures var r := ReplayAll(events, now);
            && r.carried.status in {None, Some(PendingRecheck), Some(ResolvedNaturally), Some(Disputed)}
            && ViewIn(orderId, r.carried) == ViewAfter(orderId, events)
            && (r.carried.view.Some? <==> events != [])
            && (RunsClean(r) <==> Clean(orderId, events))
            && (RunsClean(r) ==> (r.carried.status == Some(PendingRecheck) <==> EverSafe(orderId, events)))
            && (RunsAgreed(r) <==> Agreed(orderId, events))
  {
    if events != [] {
      var n := |events| - 1;
      var r, e := ReplayAll(events[..n], now), events[n];
      ReplayMeaning(orderId, events[..n], now);
      ReplayFollowsEvents(events, now);
      ReplayFollowsEvents(events[..n], now);
      assert e in events;
      JudgeCases(r.carried, e, now);
      ReplayStepOutcome(orderId, events, now);
      DriftIsAssessed(orderId, events);
      var view := ViewAfter(orderId, events[..n]);
      StepOutcome(r, Judge(r.carried, e, now), ReplayAll(events, now), e.IsReversal(), ViewFold.Accepts(view, e),
                  if ViewFold.Accepts(view, e) then DriftAfter(orderId, events) else NoDrift);
    }
  }

  // ------------------------------------------------------------------
  // Verdicts
  // ------------------------------------------------------------------

  /** A clean replay is armed or not by its last drift, so the simulated recheck settles it
      as a correction or leaves it pending. */
  lemma CleanRecheck(orderId: string, events: seq<Event>, now: int)
    requires !Text.Blank(orderId) && forall e | e in events :: e.orderId == orderId
    requires Clean(orderId, events)
    ensures var r := ReplayAll(events, now);
            SimulateRecheck(orderId, r, now).carried.status ==
              if !EverSafe(orderId, events) then None
              else if ViewFold.SafeEvidence(ViewFold.Accepted(EmptyView(orderId), events)) then
                Some(ResolvedAutocorrected)
              else Some(PendingRecheck)
  {
    var r := ReplayAll(events, now);
    ReplayMeaning(orderId, events, now);
    ViewFold.SafeRecheckIff(orderId, events);
    if EverSafe(orderId, events) {
      CleanDrift(orderId, events);
    }
    if r.carried.status == Some(PendingRecheck) {
      ToolRecheckOutcome(orderId, r.carried, now, DELAY);
    }
    hide ReplayAll, ToolRecheck, Clean, EverSafe, Agreed, Compare.Assess, ViewFold.SafeEvidence, ViewFold.Accepted;
  }

  lemma CleanDrift(orderId: string, events: seq<Event>)
    requires Clean(orderId, events) && EverSafe(orderId, events)
    ensures DriftAfter(orderId, events) in {SafeDrift, Indeterminate}
  {
  }

  /** AUTO_CORRECT exactly when every event was accepted, the two sides were never at odds
      nor came to agree, and what the events finally say is a capture, no reversal, and a
      merchant record that is pending or failed. Never on unsafe drift, never without a
      merchant record. */
  lemma AutoCorrectIff(orderId: string, events: seq<Event>, now: int, hasGateway: bool, hasMerchant: bool)
    requires !Text.Blank(orderId) && forall e | e in events :: e.orderId == orderId
    ensures Conclude(orderId, events, now, hasGateway, hasMerchant) == AutoCorrect <==>
            Clean(orderId, events) && ViewFold.SafeEvidence(ViewFold.Accepted(EmptyView(orderId), events))
    ensures Clean(orderId, events) ==> ViewFold.Accepted(EmptyView(orderId), events) == events
  {
    var r := ReplayAll(events, now);
    ReplayMeaning(orderId, events, now);
    CleanAcceptsAll(orderId, events);
    ViewFold.SafeRecheckIff(orderId, events);
    if Clean(orderId, events) {
      CleanRecheck(orderId, events, now);
      EvidenceWasSafe(orderId, events);
    }
    hide ReplayAll, ToolRecheck, Clean, EverSafe, Agreed, Compare.Assess, ViewFold.SafeEvidence, ViewFold.Accepted;
  }

  lemma EvidenceWasSafe(orderId: string, events: seq<Event>)
    ensures ViewFold.SafeEvidence(ViewFold.Accepted(EmptyView(orderId), events)) ==> EverSafe(orderId, events)
  {
    ViewFold.SafeRecheckIff(orderId, events);
    hide Compare.Assess, ViewFold.Fold;
  }

  lemma {:induction false} CleanAcceptsAll(orderId: string, events: seq<Event>)
    ensures Clean(orderId, events) ==> ViewFold.Accepted(EmptyView(orderId), events) == events
  {
    hide ViewFold.Accepts, DriftAfter, EverSafe;
    if events != [] {
      CleanAcceptsAll(orderId, events[..|events| - 1]);
      assert events == events[..|events| - 1] + [events[|events| - 1]];
    }
  }

  /** CONSISTENT exactly when the sides came to agree after a clean drift and nothing was
      reversed since, or never drifted and agree at the end with both sides present. */
  lemma ConsistentIff(orderId: string, events: seq<Event>, now: int, hasGateway: bool, hasMerchant: bool)
    requires !Text.Blank(orderId) && forall e | e in events :: e.orderId == orderId
    ensures Conclude(orderId, events, now, hasGateway, hasMerchant) == Consistent <==>
            || Agreed(orderId, events)
            || (Clean(orderId, events) && !EverSafe(orderId, events) && DriftAfter(orderId, events) == NoDrift &&
                hasGateway && hasMerchant)
  {
    var r := ReplayAll(events, now);
    ReplayMeaning(orderId, events, now);
    if Clean(orderId, events) {
      CleanRecheck(orderId, events, now);
      assert Compare.Assess(EmptyView(orderId)) != NoDrift;
    }
    hide ReplayAll, ToolRecheck, Clean, EverSafe, Agreed, Compare.Assess, ViewFold.SafeEvidence, ViewFold.Accepted;
  }

  // ------------------------------------------------------------------
  // The verdict and the worker
  // ------------------------------------------------------------------

  lemma {:induction false} FoldIgnoresTime(events: seq<Event>, now1: int, delay1: int, now2: int, delay2: int)
    ensures ToolFold(events, now1, delay1) == ToolFold(events, now2, delay2)
  {
    hide Engine.EvaluateAgainst, ViewFold.Absorb;
    if events != [] {
      var n := |events| - 1;
      FoldIgnoresTime(events[..n], now1, delay1, now2, delay2);
      var c := ToolFold(events[..n], now1, delay1);
      StatusIgnoresTime(events[n], c.view, c.status, now1, now2, delay1, delay2);
      ViewFold.PersistedViewIsAbsorb(events[n], c.view, c.status, now1, delay1);
      ViewFold.PersistedViewIsAbsorb(events[n], c.view, c.status, now2, delay2);
    }
  }

  lemma StatusIgnoresDelay(orderId: string, events: seq<Event>, now1: int, delay1: int, now2: int, delay2: int)
    requires !Text.Blank(orderId)
    ensures ToolStatus(orderId, events, now1, delay1) == ToolStatus(orderId, events, now2, delay2)
  {
    FoldIgnoresTime(events, now1, delay1, now2, delay2);
    var c := ToolFold(events, now1, delay1);
    if c.status == Some(PendingRecheck) {
      ToolRecheckOutcome(orderId, c, now1, delay1);
      ToolRecheckOutcome(orderId, c, now2, delay2);
    }
    hide ToolFold, EvaluateRecheck;
  }

  lemma ReplayStatus(orderId: string, events: seq<Event>, now: int)
    ensures SimulateRecheck(orderId, ReplayAll(events, now), now).carried.status ==
            ToolStatus(orderId, events, now, DELAY)
  {
    ReplayFollowsEvents(events, now);
    hide ReplayAll, ToolFold, EvaluateRecheck;
  }

  /** What the tool says of an order is where the worker's pointer comes to rest, whatever
      the worker's own recheck delay and retry budget. */
  lemma VerdictMatchesWorker(settings: Settings, db: Db, orderId: string, events: seq<Event>, nows: seq<int>,
                             times: seq<(int, int)>, now: int, hasGateway: bool, hasMerchant: bool)
    requires |nows| == |events|
    requires StoreOk(settings, db)
    requires orderId !in db.views && !Text.Blank(orderId)
    requires FreshEvents(db, orderId, events)
    requires |times| >= settings.maxRetries
    ensures var rest := StatusOf(RowOf(DriveRechecks(settings, Consume(settings, db, events, nows), orderId, times),
                                       orderId));
            var verdict := Conclude(orderId, events, now, hasGateway, hasMerchant);
            && (verdict == DisputedOrder <==> rest == Some(Disputed))
            && (verdict == AutoCorrect ==> rest == Some(ResolvedAutocorrected))
            && (verdict == Consistent ==> rest in {None, Some(ResolvedNaturally)})
            && (rest == Some(ResolvedAutocorrected) ==> verdict in {AutoCorrect, FlaggedRisky, CorrelationFailed})
            && (rest == Some(ResolvedNaturally) ==> verdict in {Consistent, FlaggedRisky, CorrelationFailed})
            && (rest == Some(DeadLetter) ==> verdict in {Unresolved, FlaggedRisky, CorrelationFailed})
  {
    hide StoreOk, ReplayAll, ToolStatus, DriveRechecks, Consume, FreshEvents, SimulateRecheck, ToolFold, Text.Blank;
    ToolRefinesWorker(settings, db, orderId, events, nows, times, now);
    StatusIgnoresDelay(orderId, events, now, DELAY, now, settings.recheckDelay);
    ReplayStatus(orderId, events, now);
    ToolNeverDeadLetters(orderId, events, now, DELAY);
  }

  lemma ToolNeverDeadLetters(orderId: string, events: seq<Event>, now: int, delay: int)
    requires !Text.Blank(orderId)
    ensures ToolStatus(orderId, events, now, delay) != Some(DeadLetter)
  {
    FoldNeverDeadLetters(events, now, delay);
    var c := ToolFold(events, now, delay);
    if c.status == Some(PendingRecheck) {
      ToolRecheckOutcome(orderId, c, now, delay);
    }
  }

  lemma {:induction false} FoldNeverDeadLetters(events: seq<Event>, now: int, delay: int)
    ensures ToolFold(events, now, delay).status !in {Some(DeadLetter), Some(Processing)}
  {
    hide Correlate.Correlate, Compare.Assess;
    if events != [] {
      FoldNeverDeadLetters(events[..|events| - 1], now, delay);
    }
  }
}
