/** From envelopes to events. */
module Normalize {
  import opened Models
  import opened Json
  import opened Text
  import AuditIds
  import LogFacts
  import ViewCodec

  /** Instants are counted in microseconds, envelopes carry whole seconds. */
  const SECOND := 1_000_000

  // ------------------------------------------------------------------
  // Reading fields
  // ------------------------------------------------------------------

  function Dig(data: Json, outer: string, inner: string): Json {
    Get(Get(data, outer), inner)
  }

  function StrOrNone(value: Json): (text: Option<string>)
    ensures text.Some? ==> !Blank(text.value) && value == JStr(text.value)
  {
    if value.JStr? && !Blank(value.s) then Some(value.s) else None
  }

  function IntOrNone(value: Json): Option<int> {
    IntOf(value)
  }

  function PaymentStatusOf(value: Json): Option<PaymentStatus> {
    if value.JStr? then ViewCodec.ParsePaymentStatus(value.s) else None
  }

  function MerchantStatusOf(value: Json): Option<MerchantOrderStatus> {
    if value.JStr? then ViewCodec.ParseMerchantStatus(value.s) else None
  }

  /** The provider's own timestamp, else the receipt time, else the present. A boolean is
      a number to Python. */
  function CoerceTime(occurredAt: Json, receivedAt: Json, now: int): int {
    match occurredAt
    case JInt(n) => n * SECOND
    case JBool(b) => if b then SECOND else 0
    case _ => if receivedAt.JTime? then receivedAt.at else now
  }

  /** The seconds a datetime can stand for; beyond them the conversion raises. */
  const MIN_SECOND := -62_135_596_800
  const MAX_SECOND := 253_402_300_799

  predicate TimeFits(occurredAt: Json) {
    occurredAt.JInt? ==> MIN_SECOND <= occurredAt.n <= MAX_SECOND
  }

  function ParseSource(value: Json): Option<Source> {
    if value == JStr("razorpay") then Some(Razorpay)
    else if value == JStr("merchant") then Some(Merchant)
    else if value == JStr("system") then Some(System)
    else None
  }

  // ------------------------------------------------------------------
  // Provider fields
  // ------------------------------------------------------------------

  datatype Fields = Fields(
    paymentStatus: Option<PaymentStatus>,
    merchantStatus: Option<MerchantOrderStatus>,
    amount: Option<int>,
    currency: Option<string>,
    subEntityType: Option<SubEntityType>,
    subEntityId: Option<string>,
    subEntityStatus: Option<string>)

  const NO_FIELDS := Fields(None, None, None, None, None, None, None)

  function Entity(payload: Json, key: string): Json {
    Dig(payload, key, "entity")
  }

  /** The reversal entity, a refund before a dispute. */
  function ReversalEntity(payload: Json): Option<(SubEntityType, Json)> {
    if Entity(payload, "refund").JObj? then Some((Refund, Entity(payload, "refund")))
    else if Entity(payload, "dispute").JObj? then Some((Dispute, Entity(payload, "dispute")))
    else None
  }

  /** The one entity whose amount and currency count: the payment, else the reversal, else
      the order. Its own missing values are not filled from the next. */
  function MoneyEntity(payload: Json): Json {
    if Entity(payload, "payment").JObj? then Entity(payload, "payment")
    else if ReversalEntity(payload).Some? then ReversalEntity(payload).value.1
    else Entity(payload, "order")
  }

  function RazorpayFields(raw: Json): Fields {
    var payload := Get(raw, "payload");
    var money, reversal := MoneyEntity(payload), ReversalEntity(payload);
    Fields(PaymentStatusOf(Get(Entity(payload, "payment"), "status")),
           None,
           IntOrNone(Get(money, "amount")),
           StrOrNone(Get(money, "currency")),
           if reversal.Some? then Some(reversal.value.0) else None,
           if reversal.Some? then StrOrNone(Get(reversal.value.1, "id")) else None,
           if reversal.Some? then StrOrNone(Get(reversal.value.1, "status")) else None)
  }

  function MerchantFields(raw: Json): Fields {
    NO_FIELDS.(merchantStatus := MerchantStatusOf(Get(raw, "status")),
               amount := IntOrNone(Get(raw, "amount")),
               currency := StrOrNone(Get(raw, "currency")))
  }

  /** The dictionary the fields are gathered in: a key may be absent, or present with no
      value. */
  datatype Gathered = Gathered(amount: Option<Option<int>>, currency: Option<Option<string>>)
  {
    function SetDefault(entity: Json): Gathered {
      Gathered(if amount.Some? then amount else Some(IntOrNone(Get(entity, "amount"))),
               if currency.Some? then currency else Some(StrOrNone(Get(entity, "currency"))))
    }
  }

  const SUB_ENTITY_KEYS: seq<(string, SubEntityType)> := [("refund", Refund), ("dispute", Dispute)]

  /** The loop that gathers a gateway event's fields, first come first kept. */
  method GatherRazorpayFields(raw: Json) returns (fields: Fields)
    ensures fields == RazorpayFields(raw)
  {
    var payload := Get(raw, "payload");
    var gathered := Gathered(None, None);
    fields := NO_FIELDS;
    var payment := Dig(payload, "payment", "entity");
    if payment.JObj? {
      fields := fields.(paymentStatus := PaymentStatusOf(Get(payment, "status")));
      gathered := Gathered(Some(IntOrNone(Get(payment, "amount"))), Some(StrOrNone(Get(payment, "currency"))));
    }
    ghost var before := gathered;
    var i := 0;
    while i < |SUB_ENTITY_KEYS|
      invariant 0 <= i <= 2
      invariant i >= 1 ==> !Entity(payload, "refund").JObj?
      invariant i == 2 ==> !Entity(payload, "dispute").JObj?
      invariant gathered == before
      invariant fields == NO_FIELDS.(paymentStatus := PaymentStatusOf(Get(payment, "status")))
    {
      var (key, kind) := SUB_ENTITY_KEYS[i];
      var entity := Dig(payload, key, "entity");
      if entity.JObj? {
        fields := fields.(subEntityType := Some(kind), subEntityId := StrOrNone(Get(entity, "id")),
                          subEntityStatus := StrOrNone(Get(entity, "status")));
        gathered := gathered.SetDefault(entity);
        assert ReversalEntity(payload) == Some((kind, entity));
        break;
      }
      i := i + 1;
    }
    var order := Dig(payload, "order", "entity");
    if order.JObj? {
      gathered := gathered.SetDefault(order);
    }
    fields := fields.(amount := if gathered.amount.Some? then gathered.amount.value else None,
                      currency := if gathered.currency.Some? then gathered.currency.value else None);
  }

  // ------------------------------------------------------------------
  // Envelopes
  // ------------------------------------------------------------------

  /** None for an unusable envelope. For a usable one whose time does not fit, the code raises
      instead. */
  function EnvelopeToEvent(envelope: Json, now: int): Option<Event> {
    var eventId, orderId := StrOrNone(Get(envelope, "event_id")), StrOrNone(Get(envelope, "order_id"));
    var source := ParseSource(Get(envelope, "source"));
    if eventId.None? || orderId.None? then None
    else if source.None? || source == Some(System) then None
    else
      var raw := Get(envelope, "raw");
      var f := if source == Some(Razorpay) then RazorpayFields(raw) else MerchantFields(raw);
      var eventType := StrOrNone(Get(envelope, "event_type"));
      Some(Event(eventId.value, source.value, if eventType.Some? then eventType.value else "", orderId.value,
                 CoerceTime(Get(envelope, "occurred_at"), Get(envelope, "received_at"), now),
                 f.paymentStatus, f.merchantStatus, f.amount, f.currency, f.subEntityType, f.subEntityId,
                 f.subEntityStatus))
  }

  /** An envelope is usable iff it names itself, an order, and one of the two providers. */
  lemma UsableIff(envelope: Json, now: int)
    ensures EnvelopeToEvent(envelope, now).Some? <==>
            && StrOrNone(Get(envelope, "event_id")).Some?
            && StrOrNone(Get(envelope, "order_id")).Some?
            && Get(envelope, "source") in {JStr("razorpay"), JStr("merchant")}
  {
  }

  /** Every event the normalizer lets through is fit for the store, unless the provider
      used one of the worker's own ids. */
  lemma NormalizedIsOk(envelope: Json, now: int)
    requires EnvelopeToEvent(envelope, now).Some?
    ensures var event := EnvelopeToEvent(envelope, now).value;
            && (LogFacts.EventOk(event) <==> !AuditIds.IsSystemId(event.eventId))
            && !Blank(event.eventId)
            && (event.source == Merchant ==> event.paymentStatus.None? && !event.HasReversalEntity())
            && (event.source == Razorpay ==> event.merchantStatus.None?)
            && (event.subEntityType.Some? <==> event.HasReversalEntity())
  {
    hide Get;
  }

  // ------------------------------------------------------------------
  // What is read from where
  // ------------------------------------------------------------------

  /** `text` is the non-blank text under `key`, None if there is none. */
  predicate TextUnder(data: Json, key: string, text: Option<string>) {
    match Get(data, key)
    case JStr(s) => text == if Blank(s) then None else Some(s)
    case _ => text.None?
  }

  predicate IntegerUnder(data: Json, key: string, n: Option<int>) {
    match Get(data, key)
    case JInt(m) => n == Some(m)
    case _ => n.None?
  }

  /** An event states the envelope's own id, order, type and provider, and is dated by the
      provider in seconds, else by receipt, else now. */
  lemma EventTellsEnvelope(envelope: Json, now: int)
    requires EnvelopeToEvent(envelope, now).Some?
    ensures var e := EnvelopeToEvent(envelope, now).value;
            && TextUnder(envelope, "event_id", Some(e.eventId)) && TextUnder(envelope, "order_id", Some(e.orderId))
            && TextUnder(envelope, "event_type", if e.eventType == "" then None else Some(e.eventType))
            && Get(envelope, "source") == JStr(if e.source == Razorpay then "razorpay" else "merchant")
            && e.source != System
            && e.occurredAt == match Get(envelope, "occurred_at")
                               case JInt(n) => n * 1_000_000
                               case JBool(b) => if b then 1_000_000 else 0
                               case _ => match Get(envelope, "received_at")
                                         case JTime(at) => at
                                         case _ => now
  {
    hide RazorpayFields, MerchantFields, Get;
    BlankIsEmpty();
  }

  lemma BlankIsEmpty()
    ensures Blank("")
  {
  }

  /** A merchant event states what its body does, and no reversal. */
  lemma MerchantEventTellsBody(envelope: Json, now: int)
    requires EnvelopeToEvent(envelope, now).Some? && EnvelopeToEvent(envelope, now).value.source == Merchant
    ensures var e, raw := EnvelopeToEvent(envelope, now).value, Get(envelope, "raw");
            && e.merchantStatus == (match Get(raw, "status")
                                    case JStr(s) => ViewCodec.ParseMerchantStatus(s)
                                    case _ => None)
            && IntegerUnder(raw, "amount", e.amount) && TextUnder(raw, "currency", e.currency)
            && e.subEntityType.None? && e.subEntityId.None? && e.subEntityStatus.None?
  {
    hide RazorpayFields, Get, ViewCodec.ParseMerchantStatus;
  }

  /** The entity a gateway body holds under `key`, if it is an object. */
  predicate Holds(body: Json, key: string, entity: Json) {
    entity.JObj? && Get(Get(Get(body, "payload"), key), "entity") == entity
  }

  predicate HoldsNone(body: Json, key: string) {
    !Get(Get(Get(body, "payload"), key), "entity").JObj?
  }

  /** `entity` is the payment a gateway body holds, else its refund, else its dispute, else its
      order. */
  predicate IsMain(body: Json, entity: Json) {
    || Holds(body, "payment", entity)
    || (HoldsNone(body, "payment") &&
        (|| Holds(body, "refund", entity)
         || (HoldsNone(body, "refund") &&
             (|| Holds(body, "dispute", entity)
              || (HoldsNone(body, "dispute") && Holds(body, "order", entity))))))
  }

  /** A gateway event states its payment's status; amount and currency as its main entity does,
      whether or not that one has any; and its refund, or else its dispute. */
  lemma GatewayEventTellsBody(envelope: Json, now: int)
    requires EnvelopeToEvent(envelope, now).Some? && EnvelopeToEvent(envelope, now).value.source == Razorpay
    ensures var e, body := EnvelopeToEvent(envelope, now).value, Get(envelope, "raw");
            && (forall p | Holds(body, "payment", p) ::
                  e.paymentStatus == match Get(p, "status")
                                     case JStr(s) => ViewCodec.ParsePaymentStatus(s)
                                     case _ => None)
            && (HoldsNone(body, "payment") ==> e.paymentStatus.None?)
            && (forall x | IsMain(body, x) ::
                  IntegerUnder(x, "amount", e.amount) && TextUnder(x, "currency", e.currency))
            && ((forall x :: !IsMain(body, x)) ==> e.amount.None? && e.currency.None?)
  {
    var body := Get(envelope, "raw");
    MainIsMoneyEntity(body);
    NotAnObjectHoldsNothing(Entity(Get(body, "payload"), "payment"));
    NotAnObjectHoldsNothing(MoneyEntity(Get(body, "payload")));
    hide MerchantFields, ViewCodec.ParsePaymentStatus, Get, IsMain, MoneyEntity;
  }

  lemma MainIsMoneyEntity(body: Json)
    ensures var main := MoneyEntity(Get(body, "payload"));
            && (main.JObj? ==> IsMain(body, main))
            && (forall x | IsMain(body, x) :: x == main)
  {
    hide Get;
  }

  lemma NotAnObjectHoldsNothing(data: Json)
    ensures !data.JObj? ==> forall key :: Get(data, key) == JNull
  {
  }

  lemma GatewayEventTellsReversal(envelope: Json, now: int)
    requires EnvelopeToEvent(envelope, now).Some? && EnvelopeToEvent(envelope, now).value.source == Razorpay
    ensures var e, body := EnvelopeToEvent(envelope, now).value, Get(envelope, "raw");
            && (e.subEntityType == Some(Refund) <==> !HoldsNone(body, "refund"))
            && (e.subEntityType == Some(Dispute) <==> HoldsNone(body, "refund") && !HoldsNone(body, "dispute"))
            && e.subEntityType != Some(Payment)
            && (e.subEntityType.None? ==> e.subEntityId.None? && e.subEntityStatus.None?)
            && (e.subEntityType.Some? ==>
                  forall x | Holds(body, if e.subEntityType == Some(Refund) then "refund" else "dispute", x) ::
                    TextUnder(x, "id", e.subEntityId) && TextUnder(x, "status", e.subEntityStatus))
  {
    hide MerchantFields, MoneyEntity, Get;
  }
}
