/** The stored form of a view, and how it is read back. */
module ViewCodec {
  import opened Models
  import opened Json
  import Ordering

  const SCHEMA := 1

  function PaymentStatusText(status: PaymentStatus): string {
    match status
    case PayCreated => "created"
    case PayAuthorized => "authorized"
    case PayCaptured => "captured"
    case PayFailed => "failed"
    case PayRefunded => "refunded"
  }

  function ParsePaymentStatus(text: string): Option<PaymentStatus> {
    if text == "created" then Some(PayCreated)
    else if text == "authorized" then Some(PayAuthorized)
    else if text == "captured" then Some(PayCaptured)
    else if text == "failed" then Some(PayFailed)
    else if text == "refunded" then Some(PayRefunded)
    else None
  }

  function MerchantStatusText(status: MerchantOrderStatus): string {
    match status
    case OrderPending => "pending"
    case OrderPaid => "paid"
    case OrderFailed => "failed"
    case OrderCancelled => "cancelled"
    case OrderRefunded => "refunded"
  }

  function ParseMerchantStatus(text: string): Option<MerchantOrderStatus> {
    if text == "pending" then Some(OrderPending)
    else if text == "paid" then Some(OrderPaid)
    else if text == "failed" then Some(OrderFailed)
    else if text == "cancelled" then Some(OrderCancelled)
    else if text == "refunded" then Some(OrderRefunded)
    else None
  }

  function StrArr(items: seq<string>): Json {
    JArr(seq(|items|, i requires 0 <= i < |items| => JStr(items[i])))
  }

  /** `frozenset(value or ())` */
  function StrSet(value: Json): set<string> {
    if value.JArr? then set x | x in value.items && x.JStr? :: x.s else {}
  }

  function Serialize(view: OrderView): Json {
    JObj(map[
      "_schema" := JInt(SCHEMA),
      "order_id" := JStr(view.orderId),
      "razorpay_status" :=
        if view.razorpayStatus.Some? then JStr(PaymentStatusText(view.razorpayStatus.value)) else JNull,
      "razorpay_amount" := OptInt(view.razorpayAmount),
      "razorpay_currency" := OptStr(view.razorpayCurrency),
      "razorpay_last_event_at" := OptTime(view.razorpayLastEventAt),
      "merchant_status" :=
        if view.merchantStatus.Some? then JStr(MerchantStatusText(view.merchantStatus.value)) else JNull,
      "merchant_last_event_at" := OptTime(view.merchantLastEventAt),
      "settled" := JBool(view.settled),
      "reversal_ids" := StrArr(Ordering.Sorted(view.reversalIds)),
      "seen_event_ids" := StrArr(Ordering.Sorted(view.seenEventIds))
    ])
  }

  /** None when there is no usable blob. */
  function Deserialize(data: Json, orderId: string): Option<OrderView> {
    if !data.JObj? then None
    else
      var storedId := Get(data, "order_id");
      var rp := Get(data, "razorpay_status");
      var mc := Get(data, "merchant_status");
      Some(OrderView(
        if storedId.JStr? && storedId.s != "" then storedId.s else orderId,
        if rp.JStr? then ParsePaymentStatus(rp.s) else None,
        IntOf(Get(data, "razorpay_amount")),
        StrOf(Get(data, "razorpay_currency")),
        TimeOf(Get(data, "razorpay_last_event_at")),
        if mc.JStr? then ParseMerchantStatus(mc.s) else None,
        TimeOf(Get(data, "merchant_last_event_at")),
        Get(data, "settled") == JBool(true),
        StrSet(Get(data, "reversal_ids")),
        StrSet(Get(data, "seen_event_ids"))))
  }

  lemma StrSetOfSorted(s: set<string>)
    ensures StrSet(StrArr(Ordering.Sorted(s))) == s
  {
    var items := Ordering.Sorted(s);
    var arr := StrArr(items);
    forall x | x in s ensures x in StrSet(arr) {
      var i :| 0 <= i < |items| && items[i] == x;
      assert arr.items[i] == JStr(x);
    }
    forall x | x in StrSet(arr) ensures x in s {
      var i :| 0 <= i < |arr.items| && arr.items[i] == JStr(x);
      assert items[i] in items;
    }
  }

  lemma StoredGatewaySide(view: OrderView)
    ensures var data := Serialize(view);
            && Get(data, "order_id") == JStr(view.orderId)
            && Get(data, "razorpay_status") ==
                 (if view.razorpayStatus.Some? then JStr(PaymentStatusText(view.razorpayStatus.value)) else JNull)
            && Get(data, "razorpay_amount") == OptInt(view.razorpayAmount)
            && Get(data, "razorpay_currency") == OptStr(view.razorpayCurrency)
            && Get(data, "razorpay_last_event_at") == OptTime(view.razorpayLastEventAt)
  {
  }

  lemma StoredMerchantSide(view: OrderView)
    ensures var data := Serialize(view);
            && Get(data, "merchant_status") ==
                 (if view.merchantStatus.Some? then JStr(MerchantStatusText(view.merchantStatus.value)) else JNull)
            && Get(data, "merchant_last_event_at") == OptTime(view.merchantLastEventAt)
            && Get(data, "settled") == JBool(view.settled)
            && Get(data, "reversal_ids") == StrArr(Ordering.Sorted(view.reversalIds))
            && Get(data, "seen_event_ids") == StrArr(Ordering.Sorted(view.seenEventIds))
  {
  }

  lemma StatusTextsParse(pay: PaymentStatus, order: MerchantOrderStatus)
    ensures ParsePaymentStatus(PaymentStatusText(pay)) == Some(pay)
    ensures ParseMerchantStatus(MerchantStatusText(order)) == Some(order)
  {
  }

  /** The words the providers use, and no others. */
  lemma StatusWords(text: string)
    ensures ParsePaymentStatus(text).Some? <==> text in {"created", "authorized", "captured", "failed", "refunded"}
    ensures ParsePaymentStatus("created") == Some(PayCreated) && ParsePaymentStatus("authorized") == Some(PayAuthorized)
    ensures ParsePaymentStatus("captured") == Some(PayCaptured) && ParsePaymentStatus("failed") == Some(PayFailed)
    ensures ParsePaymentStatus("refunded") == Some(PayRefunded)
    ensures ParseMerchantStatus(text).Some? <==> text in {"pending", "paid", "failed", "cancelled", "refunded"}
    ensures ParseMerchantStatus("pending") == Some(OrderPending) && ParseMerchantStatus("paid") == Some(OrderPaid)
    ensures ParseMerchantStatus("failed") == Some(OrderFailed)
    ensures ParseMerchantStatus("cancelled") == Some(OrderCancelled)
    ensures ParseMerchantStatus("refunded") == Some(OrderRefunded)
  {
  }

  /** A stored view reads back unchanged. The one exception: a view with an empty order id
      takes the id it is read back under. */
  lemma RoundTrip(view: OrderView, orderId: string)
    ensures Deserialize(Serialize(view), orderId) ==
            Some(if view.orderId == "" then view.(orderId := orderId) else view)
  {
    var data := Serialize(view);
    StoredGatewaySide(view);
    StoredMerchantSide(view);
    StrSetOfSorted(view.reversalIds);
    StrSetOfSorted(view.seenEventIds);
    StatusTextsParse(if view.razorpayStatus.Some? then view.razorpayStatus.value else PayCreated,
                     if view.merchantStatus.Some? then view.merchantStatus.value else OrderPending);
  }

  lemma SerializeIsInjective(v: OrderView, w: OrderView)
    requires Serialize(v) == Serialize(w)
    ensures v == w
  {
    RoundTrip(v, "");
    RoundTrip(w, "");
  }
}
