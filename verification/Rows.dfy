/** The rows of the two exports, and the envelope and event each row becomes. */
module Rows {
  import opened Models
  import opened Json
  import opened Text
  import opened Normalize
  import AuditIds
  import Digits
  import LogFacts
  import ViewCodec

  datatype GatewayRow = GatewayRow(
    row: nat,
    orderId: string,
    status: string,
    amount: int,
    currency: string,
    paymentId: Option<string>,
    refundId: Option<string>,
    disputeId: Option<string>,
    eventTime: Option<int>)

  datatype MerchantRow = MerchantRow(
    row: nat,
    orderId: string,
    status: string,
    amount: Option<int>,
    currency: Option<string>,
    eventTime: Option<int>)

  /** What the parser lets through. */
  predicate GatewayRowOk(r: GatewayRow) {
    !Blank(r.orderId) && !Blank(r.currency)
  }

  predicate MerchantRowOk(r: MerchantRow) {
    !Blank(r.orderId) && (r.currency.Some? ==> !Blank(r.currency.value))
  }

  // ------------------------------------------------------------------
  // Envelopes
  // ------------------------------------------------------------------

  /** `int(t.timestamp())` */
  function WholeSeconds(t: int): int {
    if t >= 0 then t / SECOND else -(-t / SECOND)
  }

  function OccurredAt(eventTime: Option<int>, created: int): int {
    if eventTime.Some? then WholeSeconds(eventTime.value) else created
  }

  function Envelope(eventId: string, source: string, eventType: string, orderId: string, occurredAt: int,
                    receivedAt: int, raw: Json): Json
  {
    JObj(map["schema" := JStr("verisync.lifecycle.v1"), "event_id" := JStr(eventId), "source" := JStr(source),
             "event_type" := JStr(eventType), "order_id" := JStr(orderId), "occurred_at" := JInt(occurredAt),
             "received_at" := JTime(receivedAt), "raw" := raw])
  }

  function RazorpayBody(eventType: string, key: string, entity: Json, created: int): Json {
    JObj(map["entity" := JStr("event"), "event" := JStr(eventType), "contains" := JArr([JStr(key)]),
             "payload" := JObj(map[key := JObj(map["entity" := entity])]), "created_at" := JInt(created)])
  }

  function EntityOf(r: GatewayRow, id: string, kind: string, status: string): Json {
    JObj(map["amount" := JInt(r.amount), "currency" := JStr(r.currency), "order_id" := JStr(r.orderId),
             "id" := JStr(id), "entity" := JStr(kind), "status" := JStr(status),
             "payment_id" := OptStr(r.paymentId)])
  }

  function GatewayId(row: nat): string { "gateway:row" + Digits.Print(row) }

  function MerchantId(row: nat): string { "merchant:row" + Digits.Print(row) }

  /** A refund before a dispute before a payment. `created` is the time of day in seconds. */
  function GatewayEnvelope(r: GatewayRow, created: int): Json {
    var (eventType, key, entity) :=
      if Truthy(r.refundId) then
        ("refund.processed", "refund", EntityOf(r, r.refundId.value, "refund", "processed"))
      else if Truthy(r.disputeId) then
        ("payment.dispute.created", "dispute", EntityOf(r, r.disputeId.value, "dispute", "open"))
      else
        ("payment." + r.status, "payment",
         EntityOf(r, if Truthy(r.paymentId) then r.paymentId.value else "pay_row" + Digits.Print(r.row), "payment",
                  r.status));
    Envelope(GatewayId(r.row), "razorpay", eventType, r.orderId, OccurredAt(r.eventTime, created),
             created * SECOND, RazorpayBody(eventType, key, entity, created))
  }

  function MerchantEnvelope(r: MerchantRow, created: int): Json {
    Envelope(MerchantId(r.row), "merchant", "order.updated", r.orderId, OccurredAt(r.eventTime, created),
             created * SECOND,
             JObj(map["order_id" := JStr(r.orderId), "status" := JStr(r.status), "amount" := OptInt(r.amount),
                      "currency" := OptStr(r.currency), "created_at" := JInt(created)]))
  }

  // ------------------------------------------------------------------
  // Events
  // ------------------------------------------------------------------

  function ReversalOf(r: GatewayRow): Option<(SubEntityType, string)> {
    if Truthy(r.refundId) then Some((Refund, r.refundId.value))
    else if Truthy(r.disputeId) then Some((Dispute, r.disputeId.value))
    else None
  }

  function GatewayEvent(r: GatewayRow, created: int): Event {
    var reversal := ReversalOf(r);
    var at := OccurredAt(r.eventTime, created) * SECOND;
    match reversal
    case None =>
      Event(GatewayId(r.row), Razorpay, "payment." + r.status, r.orderId, at,
            ViewCodec.ParsePaymentStatus(r.status), None, Some(r.amount), Some(r.currency), None, None, None)
    case Some((kind, id)) =>
      Event(GatewayId(r.row), Razorpay, if kind == Refund then "refund.processed" else "payment.dispute.created",
            r.orderId, at, None, None, Some(r.amount), Some(r.currency), Some(kind),
            if Blank(id) then None else Some(id), Some(if kind == Refund then "processed" else "open"))
  }

  function MerchantEvent(r: MerchantRow, created: int): Event {
    Event(MerchantId(r.row), Merchant, "order.updated", r.orderId, OccurredAt(r.eventTime, created) * SECOND,
          None, ViewCodec.ParseMerchantStatus(r.status), r.amount, r.currency, None, None, None)
  }

  lemma RowIdsAreFine(row: nat)
    ensures !Blank(GatewayId(row)) && !Blank(MerchantId(row))
    ensures !AuditIds.IsSystemId(GatewayId(row)) && !AuditIds.IsSystemId(MerchantId(row))
  {
    assert GatewayId(row)[0] == 'g' && MerchantId(row)[0] == 'm';
  }

  lemma RowIdsAreInjective(a: nat, b: nat)
    ensures GatewayId(a) != MerchantId(b)
    ensures GatewayId(a) == GatewayId(b) ==> a == b
    ensures MerchantId(a) == MerchantId(b) ==> a == b
  {
    assert GatewayId(a)[0] == 'g' && MerchantId(b)[0] == 'm';
    assert GatewayId(a)[11..] == Digits.Print(a) && GatewayId(b)[11..] == Digits.Print(b);
    assert MerchantId(a)[12..] == Digits.Print(a) && MerchantId(b)[12..] == Digits.Print(b);
    Digits.PrintValue(a);
    Digits.PrintValue(b);
  }

  /** A well-formed envelope of either provider, read field by field. */
  lemma EnvelopeReads(eventId: string, gateway: bool, eventType: string, orderId: string, occurredAt: int,
                      receivedAt: int, raw: Json, now: int)
    requires !Blank(eventId) && !Blank(eventType) && !Blank(orderId)
    ensures var f := if gateway then RazorpayFields(raw) else MerchantFields(raw);
            EnvelopeToEvent(Envelope(eventId, if gateway then "razorpay" else "merchant", eventType, orderId,
                                     occurredAt, receivedAt, raw), now) ==
            Some(Event(eventId, if gateway then Razorpay else Merchant, eventType, orderId, occurredAt * SECOND,
                       f.paymentStatus, f.merchantStatus, f.amount, f.currency, f.subEntityType, f.subEntityId,
                       f.subEntityStatus))
  {
    hide RazorpayFields, MerchantFields, Blank;
    var e := Envelope(eventId, if gateway then "razorpay" else "merchant", eventType, orderId, occurredAt, receivedAt,
                      raw);
    assert Get(e, "event_id") == JStr(eventId) && Get(e, "event_type") == JStr(eventType);
    assert Get(e, "order_id") == JStr(orderId) && Get(e, "occurred_at") == JInt(occurredAt);
  }

  lemma EntityFields(r: GatewayRow, id: string, kind: string, status: string)
    ensures var e := EntityOf(r, id, kind, status);
            && e.JObj? && Get(e, "amount") == JInt(r.amount) && Get(e, "currency") == JStr(r.currency)
            && Get(e, "id") == JStr(id) && Get(e, "status") == JStr(status)
  {
  }

  /** A body holds its one entity under its own key. */
  lemma BodyEntities(eventType: string, key: string, entity: Json, created: int, other: string)
    ensures var payload := Get(RazorpayBody(eventType, key, entity, created), "payload");
            Entity(payload, other) == if other == key then entity else JNull
  {
  }

  lemma PaymentBody(r: GatewayRow, id: string, eventType: string, created: int)
    requires !Blank(r.currency)
    ensures RazorpayFields(RazorpayBody(eventType, "payment", EntityOf(r, id, "payment", r.status), created)) ==
            NO_FIELDS.(paymentStatus := ViewCodec.ParsePaymentStatus(r.status), amount := Some(r.amount),
                       currency := Some(r.currency))
  {
    var entity := EntityOf(r, id, "payment", r.status);
    EntityFields(r, id, "payment", r.status);
    BodyEntities(eventType, "payment", entity, created, "payment");
    BodyEntities(eventType, "payment", entity, created, "refund");
    BodyEntities(eventType, "payment", entity, created, "dispute");
    hide RazorpayBody, EntityOf, Entity, ViewCodec.ParsePaymentStatus;
  }

  lemma ReversalBody(r: GatewayRow, id: string, kind: SubEntityType, key: string, status: string, eventType: string,
                     created: int)
    requires !Blank(r.currency) && !Blank(status)
    requires (kind == Refund && key == "refund") || (kind == Dispute && key == "dispute")
    ensures RazorpayFields(RazorpayBody(eventType, key, EntityOf(r, id, key, status), created)) ==
            Fields(None, None, Some(r.amount), Some(r.currency), Some(kind), if Blank(id) then None else Some(id),
                   Some(status))
  {
    var entity := EntityOf(r, id, key, status);
    EntityFields(r, id, key, status);
    BodyEntities(eventType, key, entity, created, "payment");
    BodyEntities(eventType, key, entity, created, "refund");
    BodyEntities(eventType, key, entity, created, "dispute");
    hide RazorpayBody, EntityOf, Entity, ViewCodec.ParsePaymentStatus;
  }

  lemma NotBlank(text: string, i: nat)
    requires i < |text| && !IsSpace(text[i])
    ensures !Blank(text)
  {
  }

  lemma PaymentRowBecomesEvent(r: GatewayRow, created: int, now: int)
    requires GatewayRowOk(r) && ReversalOf(r).None?
    ensures EnvelopeToEvent(GatewayEnvelope(r, created), now) == Some(GatewayEvent(r, created))
  {
    var id := if Truthy(r.paymentId) then r.paymentId.value else "pay_row" + Digits.Print(r.row);
    var eventType := "payment." + r.status;
    RowIdsAreFine(r.row);
    NotBlank(eventType, 0);
    hide Get, Envelope, RazorpayFields, RazorpayBody, EntityOf, ViewCodec.ParsePaymentStatus, GatewayId, Blank,
         AuditIds.IsSystemId, OccurredAt, MerchantFields, EnvelopeToEvent;
    PaymentBody(r, id, eventType, created);
    EnvelopeReads(GatewayId(r.row), true, eventType, r.orderId, OccurredAt(r.eventTime, created), created * SECOND,
                  RazorpayBody(eventType, "payment", EntityOf(r, id, "payment", r.status), created), now);
  }

  lemma RefundRowBecomesEvent(r: GatewayRow, created: int, now: int)
    requires GatewayRowOk(r) && Truthy(r.refundId)
    ensures EnvelopeToEvent(GatewayEnvelope(r, created), now) == Some(GatewayEvent(r, created))
  {
    var id := r.refundId.value;
    RowIdsAreFine(r.row);
    NotBlank("refund.processed", 0);
    NotBlank("processed", 0);
    hide Get, Envelope, RazorpayFields, RazorpayBody, EntityOf, GatewayId, Blank, AuditIds.IsSystemId, OccurredAt,
         MerchantFields, EnvelopeToEvent;
    ReversalBody(r, id, Refund, "refund", "processed", "refund.processed", created);
    EnvelopeReads(GatewayId(r.row), true, "refund.processed", r.orderId, OccurredAt(r.eventTime, created),
                  created * SECOND,
                  RazorpayBody("refund.processed", "refund", EntityOf(r, id, "refund", "processed"), created), now);
  }

  lemma DisputeRowBecomesEvent(r: GatewayRow, created: int, now: int)
    requires GatewayRowOk(r) && !Truthy(r.refundId) && Truthy(r.disputeId)
    ensures EnvelopeToEvent(GatewayEnvelope(r, created), now) == Some(GatewayEvent(r, created))
  {
    var id := r.disputeId.value;
    RowIdsAreFine(r.row);
    NotBlank("payment.dispute.created", 0);
    NotBlank("open", 0);
    hide Get, Envelope, RazorpayFields, RazorpayBody, EntityOf, GatewayId, Blank, AuditIds.IsSystemId, OccurredAt,
         MerchantFields, EnvelopeToEvent;
    ReversalBody(r, id, Dispute, "dispute", "open", "payment.dispute.created", created);
    EnvelopeReads(GatewayId(r.row), true, "payment.dispute.created", r.orderId, OccurredAt(r.eventTime, created),
                  created * SECOND,
                  RazorpayBody("payment.dispute.created", "dispute", EntityOf(r, id, "dispute", "open"), created), now);
  }

  /** No accepted gateway row is lost on its way to the engine: its envelope is usable, and
      the event keeps the row's order, amount and currency. */
  lemma GatewayRowBecomesEvent(r: GatewayRow, created: int, now: int)
    requires GatewayRowOk(r)
    ensures EnvelopeToEvent(GatewayEnvelope(r, created), now) == Some(GatewayEvent(r, created))
    ensures var e := GatewayEvent(r, created);
            LogFacts.EventOk(e) && e.orderId == r.orderId && e.amount == Some(r.amount) &&
            e.currency == Some(r.currency)
  {
    RowIdsAreFine(r.row);
    if ReversalOf(r).None? {
      PaymentRowBecomesEvent(r, created, now);
    } else if Truthy(r.refundId) {
      RefundRowBecomesEvent(r, created, now);
    } else {
      DisputeRowBecomesEvent(r, created, now);
    }
    hide EnvelopeToEvent, GatewayEnvelope, GatewayId, AuditIds.IsSystemId;
  }

  lemma MerchantBody(r: MerchantRow, created: int)
    requires MerchantRowOk(r)
    ensures MerchantFields(JObj(map["order_id" := JStr(r.orderId), "status" := JStr(r.status),
                                    "amount" := OptInt(r.amount), "currency" := OptStr(r.currency),
                                    "created_at" := JInt(created)])) ==
            NO_FIELDS.(merchantStatus := ViewCodec.ParseMerchantStatus(r.status), amount := r.amount,
                       currency := r.currency)
  {
  }

  lemma MerchantRowBecomesEvent(r: MerchantRow, created: int, now: int)
    requires MerchantRowOk(r)
    ensures EnvelopeToEvent(MerchantEnvelope(r, created), now) == Some(MerchantEvent(r, created))
    ensures var e := MerchantEvent(r, created);
            LogFacts.EventOk(e) && e.orderId == r.orderId && e.amount == r.amount && e.currency == r.currency
  {
    RowIdsAreFine(r.row);
    NotBlank("order.updated", 0);
    MerchantBody(r, created);
    hide Get, Envelope, MerchantFields, RazorpayFields, ViewCodec.ParseMerchantStatus, MerchantId,
         AuditIds.IsSystemId, OccurredAt, EnvelopeToEvent;
    EnvelopeReads(MerchantId(r.row), false, "order.updated", r.orderId, OccurredAt(r.eventTime, created),
                  created * SECOND,
                  JObj(map["order_id" := JStr(r.orderId), "status" := JStr(r.status), "amount" := OptInt(r.amount),
                           "currency" := OptStr(r.currency), "created_at" := JInt(created)]), now);
  }

  // ------------------------------------------------------------------
  // What the events say
  // ------------------------------------------------------------------

  /** The whole second a row's event is dated at, cut off towards zero; a row without a time
      is dated at the time of day. */
  predicate Dated(time: Option<int>, created: int, occurredAt: int) {
    match time
    case Some(t) =>
      && occurredAt % SECOND == 0
      && if t >= 0 then occurredAt >= 0 && occurredAt <= t < occurredAt + SECOND
         else occurredAt <= 0 && occurredAt - SECOND < t <= occurredAt
    case None => occurredAt == created * SECOND
  }

  lemma DatedAt(time: Option<int>, created: int)
    ensures Dated(time, created, OccurredAt(time, created) * SECOND)
  {
  }

  /** What the event of a gateway row says. */
  lemma GatewayEventSays(r: GatewayRow, created: int)
    ensures var e := GatewayEvent(r, created);
            && e.source == Razorpay && e.merchantStatus.None? && e.eventId == GatewayId(r.row)
            && Dated(r.eventTime, created, e.occurredAt)
            && (if !Truthy(r.refundId) && !Truthy(r.disputeId) then
                  && e.paymentStatus == ViewCodec.ParsePaymentStatus(r.status)
                  && e.subEntityType.None? && e.subEntityId.None?
                  && e.eventType == "payment." + r.status
                else
                  && e.paymentStatus.None?
                  && e.eventType == (if Truthy(r.refundId) then "refund.processed" else "payment.dispute.created")
                  && e.subEntityStatus == Some(if Truthy(r.refundId) then "processed" else "open")
                  && e.subEntityType == Some(if Truthy(r.refundId) then Refund else Dispute)
                  && var id := if Truthy(r.refundId) then r.refundId.value else r.disputeId.value;
                     e.subEntityId == if Blank(id) then None else Some(id))
  {
    DatedAt(r.eventTime, created);
    hide OccurredAt, Dated, ViewCodec.ParsePaymentStatus, GatewayId;
  }

  /** A payment row is no reversal, not even one that says "refunded". */
  lemma PaymentRowIsNoReversal(r: GatewayRow, created: int)
    requires !Truthy(r.refundId) && !Truthy(r.disputeId)
    requires ViewCodec.ParsePaymentStatus(r.status).Some?
    ensures !GatewayEvent(r, created).IsReversal()
  {
    var text := "payment." + r.status;
    assert text[0] == 'p' && text[8..] == r.status;
    forall t | t in REVERSAL_EVENT_TYPES ensures text != t {
      assert t[0] == 'p' ==> t[8] == 'd';
    }
    hide REVERSAL_EVENT_TYPES, OccurredAt, GatewayId;
  }

  lemma MerchantEventSays(r: MerchantRow, created: int)
    ensures var e := MerchantEvent(r, created);
            && e.source == Merchant && e.paymentStatus.None? && e.eventId == MerchantId(r.row)
            && Dated(r.eventTime, created, e.occurredAt)
            && e.merchantStatus == ViewCodec.ParseMerchantStatus(r.status) && e.eventType == "order.updated"
            && e.subEntityType.None? && e.subEntityId.None? && !e.IsReversal()
  {
    DatedAt(r.eventTime, created);
    assert "order.updated"[6] == 'u';
    hide OccurredAt, Dated, ViewCodec.ParseMerchantStatus, MerchantId;
  }
}
