/** The choice of action: one total function of what correlation and comparison found and of
where the pointer stands. */
module Actions {
  import opened Models

  function Audit(event: Event, current: Option<ReconStatus>, action: Action, direction: Direction,
                 newState: Option<ReconStatus>): AuditEntry
  {
    AuditEntry(event.eventId, event.orderId, event.source, event.eventType, Decided(action), direction,
               current, newState, event.subEntityType, event.subEntityId, event.amount, event.currency)
  }

  /** A decision that moves the pointer to a settled state. */
  function Settle(event: Event, current: Option<ReconStatus>, action: Action, direction: Direction,
                  status: ReconStatus): Decision
  {
    Decision(action, Audit(event, current, action, direction, Some(status)), Some(status), None, true, None)
  }

  /** A decision that leaves the pointer alone. */
  function Leave(event: Event, current: Option<ReconStatus>, action: Action, direction: Direction,
                 review: Option<ReviewItem>): Decision
  {
    Decision(action, Audit(event, current, action, direction, current), None, None, false, review)
  }

  function Arm(event: Event, current: Option<ReconStatus>, kind: DriftKind, at: int): Decision {
    Decision(ArmRecheck, Audit(event, current, ArmRecheck, DirectionOf(kind), Some(PendingRecheck)),
             Some(PendingRecheck), Some(at), false, None)
  }

  function Decide(event: Event, correlation: CorrelationResult, drift: DriftKind,
                  current: Option<ReconStatus>, now: int, recheckDelay: int): Decision
  {
    if current.Some? && IsTerminal(current.value) then
      if event.IsReversal() && current != Some(Disputed)
      then Settle(event, current, RouteDisputed, DirectionOf(ReversalDrift), Disputed)
      else Leave(event, current, LockedReplayIgnored, Neutral, None)
    else if !correlation.Ok() then
      var review := ReviewItem(Some(event.orderId), CorrelationReview(correlation.failure.value),
                               Some(event.eventId), event.subEntityId);
      Leave(event, current, FlagForReview, Neutral, Some(review))
    else if current == Some(Processing) then
      match drift
      case SafeDrift => Settle(event, current, ApplyAutocorrect, DirectionOf(SafeDrift), ResolvedAutocorrected)
      case NoDrift => Settle(event, current, MarkResolvedNaturally, Neutral, ResolvedNaturally)
      case ReversalDrift => Settle(event, current, RouteDisputed, DirectionOf(ReversalDrift), Disputed)
      case _ => Arm(event, current, drift, now + recheckDelay)
    else
      match drift
      case SafeDrift => Arm(event, current, SafeDrift, now + recheckDelay)
      case UnsafeDrift =>
        var review := ReviewItem(Some(event.orderId), UnsafeDriftReview, Some(event.eventId), None);
        Leave(event, current, FlagForReview, DirectionOf(UnsafeDrift), Some(review))
      case ReversalDrift => Settle(event, current, RouteDisputed, DirectionOf(ReversalDrift), Disputed)
      case NoDrift =>
        if current == Some(PendingRecheck)
        then Settle(event, current, MarkResolvedNaturally, Neutral, ResolvedNaturally)
        else Leave(event, current, NoOp, Neutral, None)
      case Indeterminate => Leave(event, current, NoOp, Neutral, None)
  }
}
