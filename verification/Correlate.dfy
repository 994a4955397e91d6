/** What one event adds to an order's view, and whether it contradicts that view. */
module Correlate {
  import opened Models
  import opened Text

  predicate IsCapture(event: Event) {
    event.eventType == "order.paid" || event.eventType == "payment.captured"
  }

  predicate IsSettling(status: PaymentStatus) {
    status == PayCaptured || status == PayRefunded
  }

  function Reversals(view: OrderView, event: Event): set<string> {
    if event.HasReversalEntity() && Truthy(event.subEntityId)
    then view.reversalIds + {event.subEntityId.value}
    else view.reversalIds
  }

  /** Record what the event says; judging it is `Correlate`'s business. */
  function Project(view: OrderView, event: Event): OrderView {
    match event.source
    case Razorpay =>
      var capture := IsCapture(event);
      view.(razorpayStatus :=
              if capture then Some(PayCaptured)
              else if event.paymentStatus.Some? then event.paymentStatus
              else view.razorpayStatus,
            settled :=
              view.settled || capture ||
              (event.paymentStatus.Some? && IsSettling(event.paymentStatus.value)),
            razorpayAmount :=
              if event.amount.Some? && view.razorpayAmount.None? && !event.IsReversal()
              then event.amount else view.razorpayAmount,
            razorpayCurrency :=
              if event.currency.Some? && view.razorpayCurrency.None?
              then event.currency else view.razorpayCurrency,
            razorpayLastEventAt := Some(event.occurredAt),
            reversalIds := Reversals(view, event),
            seenEventIds := view.seenEventIds + {event.eventId})
    case Merchant =>
      view.(merchantStatus := if event.merchantStatus.Some? then event.merchantStatus else view.merchantStatus,
            merchantLastEventAt := Some(event.occurredAt),
            reversalIds := Reversals(view, event),
            seenEventIds := view.seenEventIds + {event.eventId})
    case System =>
      view.(reversalIds := Reversals(view, event),
            seenEventIds := view.seenEventIds + {event.eventId})
  }

  predicate CurrencyConflict(view: OrderView, event: Event) {
    Truthy(event.currency) && Truthy(view.razorpayCurrency) &&
    Upper(event.currency.value) != Upper(view.razorpayCurrency.value)
  }

  predicate AmountConflict(view: OrderView, event: Event) {
    event.amount.Some? && view.razorpayAmount.Some? &&
    event.amount != view.razorpayAmount && !event.IsReversal()
  }

  function Correlate(view: OrderView, event: Event, requireMerchantRecord: bool): CorrelationResult {
    var projected := Project(view, event);
    var failure :=
      if Blank(event.orderId) then Some(MissingOrderId)
      else if CurrencyConflict(view, event) then Some(CurrencyMismatch)
      else if AmountConflict(view, event) then Some(AmountMismatch)
      else if requireMerchantRecord && projected.merchantStatus.None? then Some(NoMerchantRecord)
      else None;
    CorrelationResult(projected, failure)
  }

  // ------------------------------------------------------------------
  // The same, event by event
  // ------------------------------------------------------------------

  predicate AboutReversal(e: Event) {
    || e.subEntityType in {Some(Refund), Some(Dispute)}
    || e.eventType in {"refund.created", "refund.processed", "refund.failed", "order.refunded"}
    || e.eventType in {"payment.dispute.created", "payment.dispute.under_review", "payment.dispute.won",
                       "payment.dispute.lost", "payment.dispute.closed"}
  }

  /** A gateway event sets the status it states, a capture by its type alone; money settled
      stays settled; the first charge and the first currency stay. */
  lemma GatewayEventSays(v: OrderView, e: Event)
    requires e.source == Razorpay
    ensures var w, capture := Project(v, e), e.eventType in {"order.paid", "payment.captured"};
            && w.razorpayStatus == (if capture then Some(PayCaptured)
                                    else if e.paymentStatus.Some? then e.paymentStatus else v.razorpayStatus)
            && w.settled == (v.settled || capture || e.paymentStatus in {Some(PayCaptured), Some(PayRefunded)})
            && w.razorpayAmount == (if v.razorpayAmount.Some? || AboutReversal(e) then v.razorpayAmount else e.amount)
            && w.razorpayCurrency == (if v.razorpayCurrency.Some? then v.razorpayCurrency else e.currency)
            && w.merchantStatus == v.merchantStatus
  {
  }

  lemma MerchantEventSays(v: OrderView, e: Event)
    requires e.source == Merchant
    ensures var w := Project(v, e);
            && w.merchantStatus == (if e.merchantStatus.Some? then e.merchantStatus else v.merchantStatus)
            && w.razorpayStatus == v.razorpayStatus && w.settled == v.settled
            && w.razorpayAmount == v.razorpayAmount && w.razorpayCurrency == v.razorpayCurrency
  {
  }

  /** A refund or dispute that names itself is remembered; nothing else is a reversal. */
  lemma ReversalsAreRemembered(v: OrderView, e: Event)
    ensures Project(v, e).reversalIds ==
            v.reversalIds + if e.subEntityType in {Some(Refund), Some(Dispute)} && e.subEntityId.Some? &&
                               e.subEntityId != Some("") then {e.subEntityId.value} else {}
    ensures e.IsReversal() <==> AboutReversal(e)
  {
  }
}
