/** When each drift kind is reported, in terms of what the two sides say. */
module Drift {
  import opened Models
  import Compare

  /** Money is known to have moved: by the gateway's account, or by the merchant's. */
  predicate MoneyMoved(view: OrderView) {
    view.settled || view.razorpayStatus in {Some(PayCaptured), Some(PayRefunded)} ||
    view.merchantStatus == Some(OrderPaid)
  }

  /** The only situation a correction may be recommended in: captured at the gateway,
      nothing reversed, and a merchant that is silent, pending or failed. */
  lemma SafeIff(view: OrderView)
    ensures Compare.Assess(view) == SafeDrift <==>
            && view.razorpayStatus == Some(PayCaptured)
            && view.reversalIds == {}
            && view.merchantStatus in {None, Some(OrderPending), Some(OrderFailed)}
  {
  }

  /** The two sides contradict each other in the direction that is only ever flagged. */
  lemma UnsafeIff(view: OrderView)
    ensures Compare.Assess(view) == UnsafeDrift <==>
            && (view.reversalIds == {} || !MoneyMoved(view))
            && (|| (view.razorpayStatus == Some(PayCaptured) && view.merchantStatus == Some(OrderCancelled))
                || (view.razorpayStatus == Some(PayFailed) && view.merchantStatus == Some(OrderPaid)))
  {
  }

  /** A reversal is reported iff a reversal entity meets moved money, or one side alone
      says the order was refunded while the gateway had been paid. */
  lemma ReversalIff(view: OrderView)
    ensures Compare.Assess(view) == ReversalDrift <==>
            || (view.reversalIds != {} && MoneyMoved(view))
            || (view.settled && view.razorpayStatus == Some(PayRefunded))
            || (view.razorpayStatus == Some(PayCaptured) && view.merchantStatus == Some(OrderRefunded))
  {
  }

  /** Agreement: both show success, or neither does. */
  lemma NoDriftIff(view: OrderView)
    ensures Compare.Assess(view) == NoDrift <==>
            && !(view.reversalIds != {} && MoneyMoved(view))
            && (|| (view.razorpayStatus == Some(PayCaptured) && view.merchantStatus == Some(OrderPaid))
                || (view.razorpayStatus == Some(PayFailed) && view.merchantStatus.Some? &&
                    view.merchantStatus != Some(OrderPaid))
                || (view.razorpayStatus == Some(PayRefunded) && !view.settled))
  {
  }
}
