/** The drift of a view: how far apart the gateway and the merchant are, and which way. */
module Compare {
  import opened Models

  function Assess(view: OrderView): DriftKind {
    var rp := view.razorpayStatus;
    var mc := view.merchantStatus;
    if view.reversalIds != {} && (view.settled || rp == Some(PayCaptured) || rp == Some(PayRefunded)) then
      ReversalDrift
    else if view.reversalIds != {} && mc == Some(OrderPaid) then
      ReversalDrift
    else if rp == Some(PayRefunded) then
      if view.settled then ReversalDrift else NoDrift
    else if rp.None? || mc.None? then
      if rp == Some(PayCaptured) && mc.None? then SafeDrift else Indeterminate
    else if rp == Some(PayCaptured) then
      match mc.value
      case OrderPaid => NoDrift
      case OrderCancelled => UnsafeDrift
      case OrderRefunded => ReversalDrift
      case _ => SafeDrift
    else if rp == Some(PayFailed) then
      if mc == Some(OrderPaid) then UnsafeDrift else NoDrift
    else
      Indeterminate
  }
}
