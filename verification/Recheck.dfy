/** worker/recheck.py: claim an armed recheck, re-read, decide, and finish the claim. */
module Recheck {
  import opened Models
  import opened Tables
  import AuditIds
  import Engine

  const RECHECK_FIRED := "recheck.fired"

  /** `recheckDelay` and `timeout` are in the units of the clock. */
  datatype Settings = Settings(maxRetries: nat, recheckDelay: int, timeout: int, grace: int)

  function Synthetic(orderId: string, tokenId: string, now: int): Event {
    Event(tokenId, System, RECHECK_FIRED, orderId, now, None, None, None, None, None, None, None)
  }

  /** The evaluation a recheck rests on: no provider's event, the claim's own status, and no
      tolerance for a merchant that has said nothing. `tokenId` is the id of the audit row to
      come. */
  function EvaluateRecheck(orderId: string, tokenId: string, view: Option<OrderView>, now: int,
                           recheckDelay: int): Evaluation
  {
    var base := if view.Some? then view.value else EmptyView(orderId);
    Engine.Evaluate(Synthetic(orderId, tokenId, now), Some(base), Some(Processing), now, recheckDelay, true)
  }

  function RecheckDecision(orderId: string, token: nat, view: Option<OrderView>, now: int,
                           recheckDelay: int): Decision
  {
    EvaluateRecheck(orderId, AuditIds.RecheckId(orderId, token), view, now, recheckDelay).decision
  }

  predicate IsTerminalAction(action: Action) {
    action in {ApplyAutocorrect, MarkResolvedNaturally, RouteDisputed}
  }

  /** Finish a claim with the decision made under it. Returns the tables and, when the
      order was re-armed, its new deadline. `wall` is the time the transaction reads. */
  function FinishClaim(settings: Settings, db: Db, orderId: string, token: nat, decision: Decision,
                       wall: int): (Db, Option<int>)
  {
    if IsTerminalAction(decision.action) then
      if decision.newStatus.None? then (db, None)
      else
        var (done, ok) := CompleteClaim(db, orderId, token, decision.newStatus.value);
        (if ok then InsertAudit(done, decision.audit, None) else done, None)
    else
      var deadline := if decision.recheckAt.Some? then decision.recheckAt.value else wall + settings.recheckDelay;
      var (done, outcome) := RearmOrDeadletter(db, orderId, token, deadline, settings.maxRetries);
      if outcome.None? then (done, None)
      else if decision.action != ArmRecheck && decision.action != FlagForReview then
        (done, if outcome.value.0 != DeadLetter then Some(deadline) else None)
      else if outcome.value.0 == DeadLetter then
        var entry := decision.audit.(decision := RecheckRetriesExhausted, newState := Some(DeadLetter));
        var review := ReviewItem(Some(orderId), DeadLetterReview, Some(decision.audit.eventId), None);
        (EnqueueReview(InsertAudit(done, entry, None), review), None)
      else
        (InsertAudit(done, decision.audit.(newState := Some(PendingRecheck)), None), Some(deadline))
  }

  /** Claim, re-read, evaluate and finish with nothing running in between. */
  function ResolveOrder(settings: Settings, db: Db, orderId: string, now: int, wall: int): Db {
    var (claimed, token) := ClaimRecheck(db, orderId);
    if token.None? then claimed
    else
      var decision := RecheckDecision(orderId, token.value, ViewOf(claimed, orderId), now, settings.recheckDelay);
      FinishClaim(settings, claimed, orderId, token.value, decision, wall).0
  }

  /** The deadline ResolveOrder re-arms the order at, if it does. */
  function RearmedAt(settings: Settings, db: Db, orderId: string, now: int, wall: int): Option<int> {
    var (claimed, token) := ClaimRecheck(db, orderId);
    if token.None? then None
    else
      var decision := RecheckDecision(orderId, token.value, ViewOf(claimed, orderId), now, settings.recheckDelay);
      FinishClaim(settings, claimed, orderId, token.value, decision, wall).1
  }
}
