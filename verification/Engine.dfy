/** One evaluation: the decision on an event, and the view to store with it. */
module Engine {
  import opened Models
  import Correlate
  import Compare
  import Actions

  function Evaluate(event: Event, view: Option<OrderView>, current: Option<ReconStatus>, now: int,
                    recheckDelay: int, requireMerchantRecord: bool): Evaluation
  {
    var base := if view.Some? then view.value else EmptyView(event.orderId);
    var corr := Correlate.Correlate(base, event, requireMerchantRecord);
    var drift := Compare.Assess(corr.view);
    var decision := Actions.Decide(event, corr, drift, current, now, recheckDelay);
    var persisted := if corr.Ok() then corr.view
                     else base.(seenEventIds := base.seenEventIds + {event.eventId});
    Evaluation(decision, persisted)
  }

  /** worker/reconcile.py: the evaluation of one event against stored state. */
  function EvaluateAgainst(event: Event, view: Option<OrderView>, status: Option<ReconStatus>, now: int,
                           recheckDelay: int): Evaluation
  {
    Evaluate(event, view, status, now, recheckDelay, false)
  }
}
