/** The decision function read backwards: for each action, exactly the situations it is
taken in. */
module DecisionTable {
  import opened Models
  import opened Actions
  import Correlate
  import Drift
  import Engine
  import Text

  predicate Locked(current: Option<ReconStatus>) {
    current in {Some(ResolvedAutocorrected), Some(ResolvedNaturally), Some(Disputed), Some(DeadLetter)}
  }

  /** DISPUTED is reached by a correlated reversal against an open order, or by any reversal
      event at all against a settled one, even one that fails correlation. */
  lemma DisputeIff(event: Event, c: CorrelationResult, drift: DriftKind, current: Option<ReconStatus>, now: int,
                   delay: int)
    ensures Decide(event, c, drift, current, now, delay).action == RouteDisputed <==>
            if Locked(current) then event.IsReversal() && current != Some(Disputed)
            else c.Ok() && drift == ReversalDrift
  {
  }

  /** A recheck is armed for drift that may still heal, or kept armed by an inconclusive
      recheck. */
  lemma ArmIff(event: Event, c: CorrelationResult, drift: DriftKind, current: Option<ReconStatus>, now: int,
               delay: int)
    ensures Decide(event, c, drift, current, now, delay).action == ArmRecheck <==>
            && !Locked(current) && c.Ok()
            && if current == Some(Processing) then drift in {UnsafeDrift, Indeterminate} else drift == SafeDrift
  {
  }

  lemma NaturalIff(event: Event, c: CorrelationResult, drift: DriftKind, current: Option<ReconStatus>, now: int,
                   delay: int)
    ensures Decide(event, c, drift, current, now, delay).action == MarkResolvedNaturally <==>
            current in {Some(PendingRecheck), Some(Processing)} && c.Ok() && drift == NoDrift
  {
  }

  /** A correction is recommended only under a claim, and there exactly for safe drift. */
  lemma CorrectIff(event: Event, c: CorrelationResult, drift: DriftKind, current: Option<ReconStatus>, now: int,
                   delay: int)
    ensures Decide(event, c, drift, current, now, delay).action == ApplyAutocorrect <==>
            current == Some(Processing) && c.Ok() && drift == SafeDrift
  {
  }

  /** Nothing is done for a settled order, unless a reversal disputes it, and that is told
      apart from an open order with nothing to do yet: no drift and no deadline to clear, or
      too little known. */
  lemma IgnoredIff(event: Event, c: CorrelationResult, drift: DriftKind, current: Option<ReconStatus>, now: int,
                   delay: int)
    ensures Decide(event, c, drift, current, now, delay).action == LockedReplayIgnored <==>
            Locked(current) && (event.IsReversal() ==> current == Some(Disputed))
    ensures Decide(event, c, drift, current, now, delay).action == NoOp <==>
            && !Locked(current) && current != Some(Processing) && c.Ok()
            && (drift == Indeterminate || (drift == NoDrift && current != Some(PendingRecheck)))
  {
  }

  /** A review item is raised exactly for an open order whose event fails correlation, or
      shows unsafe drift outside a claim. */
  lemma FlagIff(event: Event, c: CorrelationResult, drift: DriftKind, current: Option<ReconStatus>, now: int,
                delay: int)
    ensures var d := Decide(event, c, drift, current, now, delay);
            && (d.action == FlagForReview <==>
                  !Locked(current) && (!c.Ok() || (current != Some(Processing) && drift == UnsafeDrift)))
            && (d.review.Some? <==> d.action == FlagForReview)
            && (d.review.Some? ==>
                  && d.review.value.orderId == Some(event.orderId)
                  && d.review.value.eventId == Some(event.eventId)
                  && d.review.value.reason == (if c.failure.Some? then CorrelationReview(c.failure.value)
                                               else UnsafeDriftReview)
                  && d.review.value.subEntityId == if c.failure.Some? then event.subEntityId else None)
  {
  }

  /** Only a settling action clears a deadline, only arming sets one, and the pointer status
      the log records as new is the one decided, or the old one. */
  lemma DecisionIsCoherent(event: Event, c: CorrelationResult, drift: DriftKind, current: Option<ReconStatus>,
                           now: int, delay: int)
    ensures var d := Decide(event, c, drift, current, now, delay);
            && (d.recheckAt.Some? <==> d.newStatus == Some(PendingRecheck))
            && (d.recheckAt.Some? ==> d.recheckAt == Some(now + delay))
            && (d.clearRecheckAt <==> d.newStatus.Some? && IsTerminal(d.newStatus.value))
            && d.newStatus !in {Some(Processing), Some(DeadLetter)}
            && d.audit.eventId == event.eventId && d.audit.oldState == current
            && d.audit.newState == if d.newStatus.Some? then d.newStatus else current
  {
  }

  /** The log row of a decision names the event and what it says of the money, the action, and
      the drift acted upon; agreement, inaction and failed checks have no direction. */
  lemma AuditTellsEvent(event: Event, c: CorrelationResult, drift: DriftKind, current: Option<ReconStatus>, now: int,
                        delay: int)
    ensures var d := Decide(event, c, drift, current, now, delay);
            && d.audit.orderId == event.orderId && d.audit.source == event.source
            && d.audit.eventType == event.eventType && d.audit.decision == Decided(d.action)
            && d.audit.subEntityType == event.subEntityType && d.audit.subEntityId == event.subEntityId
            && d.audit.amount == event.amount && d.audit.currency == event.currency
            && d.audit.direction ==
                 (match d.action
                  case RouteDisputed => DirectionOf(ReversalDrift)
                  case ApplyAutocorrect => DirectionOf(SafeDrift)
                  case ArmRecheck => DirectionOf(drift)
                  case FlagForReview => if c.Ok() then DirectionOf(UnsafeDrift) else Neutral
                  case _ => Neutral)
  {
  }

  /** Which check a rejected event is reported under, when several fail: no order id before
      currency before amount before a missing merchant record. */
  lemma FailureIff(view: OrderView, event: Event, requireMerchant: bool)
    ensures var c := Correlate.Correlate(view, event, requireMerchant);
            && (c.failure == Some(MissingOrderId) <==> Text.Blank(event.orderId))
            && (c.failure == Some(CurrencyMismatch) <==>
                  !Text.Blank(event.orderId) && Correlate.CurrencyConflict(view, event))
            && (c.failure == Some(AmountMismatch) <==>
                  !Text.Blank(event.orderId) && !Correlate.CurrencyConflict(view, event) &&
                  Correlate.AmountConflict(view, event))
            && (c.failure == Some(NoMerchantRecord) <==>
                  Consistent(event, view) && requireMerchant && view.merchantStatus.None? &&
                  !(event.source == Merchant && event.merchantStatus.Some?))
            && c.failure != Some(ValidationError)
  {
  }

  // ------------------------------------------------------------------
  // The same, in terms of what the two sides say
  // ------------------------------------------------------------------

  /** The event contradicts nothing already known of its order. */
  predicate Consistent(event: Event, view: OrderView) {
    !Text.Blank(event.orderId) && !Correlate.CurrencyConflict(view, event) && !Correlate.AmountConflict(view, event)
  }

  /** The engine recommends a correction exactly when the order is claimed, the event
      contradicts nothing, and with it the gateway's last word is a capture, nothing was
      reversed, and the merchant is pending or failed, or silent if silence is allowed. */
  lemma EngineCorrectsIff(event: Event, view: Option<OrderView>, current: Option<ReconStatus>, now: int, delay: int,
                          requireMerchant: bool)
    ensures var base := if view.Some? then view.value else EmptyView(event.orderId);
            var projected := Correlate.Project(base, event);
            Engine.Evaluate(event, view, current, now, delay, requireMerchant).decision.action == ApplyAutocorrect <==>
            && current == Some(Processing) && Consistent(event, base)
            && projected.razorpayStatus == Some(PayCaptured) && projected.reversalIds == {}
            && (projected.merchantStatus in {Some(OrderPending), Some(OrderFailed)} ||
                (projected.merchantStatus.None? && !requireMerchant))
  {
    var base := if view.Some? then view.value else EmptyView(event.orderId);
    Drift.SafeIff(Correlate.Project(base, event));
    hide Correlate.Project, Correlate.CurrencyConflict, Correlate.AmountConflict, Text.Blank;
  }

  /** An open order is routed to DISPUTED exactly when, with an event that contradicts
      nothing, a reversal meets moved money or one side alone reports a refund. */
  lemma EngineDisputesIff(event: Event, view: Option<OrderView>, current: Option<ReconStatus>, now: int, delay: int)
    requires !Locked(current)
    ensures var base := if view.Some? then view.value else EmptyView(event.orderId);
            var projected := Correlate.Project(base, event);
            Engine.Evaluate(event, view, current, now, delay, false).decision.action == RouteDisputed <==>
            && Consistent(event, base)
            && (|| (projected.reversalIds != {} && Drift.MoneyMoved(projected))
                || (projected.settled && projected.razorpayStatus == Some(PayRefunded))
                || (projected.razorpayStatus == Some(PayCaptured) && projected.merchantStatus == Some(OrderRefunded)))
  {
    var base := if view.Some? then view.value else EmptyView(event.orderId);
    Drift.ReversalIff(Correlate.Project(base, event));
    hide Correlate.Project, Correlate.CurrencyConflict, Correlate.AmountConflict, Text.Blank, Drift.MoneyMoved;
  }
}
