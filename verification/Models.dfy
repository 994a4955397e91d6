/** The vocabulary of the decision layer, the worker and the stateless tool: statuses,
events, views, decisions.

Timestamps are integers (an instant). Human-readable reasons and details are not
part of the model.
 */
module Models {

  datatype Option<+T> = None | Some(value: T)

  datatype Source = Razorpay | Merchant | System

  datatype PaymentStatus = PayCreated | PayAuthorized | PayCaptured | PayFailed | PayRefunded

  datatype MerchantOrderStatus = OrderPending | OrderPaid | OrderFailed | OrderCancelled | OrderRefunded

  datatype SubEntityType = Payment | Refund | Dispute

  datatype ReconStatus =
    | PendingRecheck
    | Processing
    | ResolvedAutocorrected
    | ResolvedNaturally
    | Disputed
    | DeadLetter

  predicate IsTerminal(status: ReconStatus) {
    status in {ResolvedAutocorrected, ResolvedNaturally, Disputed, DeadLetter}
  }

  datatype DriftKind = NoDrift | SafeDrift | UnsafeDrift | ReversalDrift | Indeterminate

  datatype Action =
    | NoOp
    | ArmRecheck
    | ApplyAutocorrect
    | MarkResolvedNaturally
    | FlagForReview
    | RouteDisputed
    | LockedReplayIgnored

  datatype CorrelationFailure =
    | MissingOrderId
    | AmountMismatch
    | CurrencyMismatch
    | NoMerchantRecord
    | ValidationError

  const REVERSAL_EVENT_TYPES: set<string> := {
    "refund.created",
    "refund.processed",
    "refund.failed",
    "order.refunded",
    "payment.dispute.created",
    "payment.dispute.under_review",
    "payment.dispute.won",
    "payment.dispute.lost",
    "payment.dispute.closed"
  }

  /** A normalized lifecycle event, Razorpay's or the merchant's. */
  datatype Event = Event(
    eventId: string,
    source: Source,
    eventType: string,
    orderId: string,
    occurredAt: int,
    paymentStatus: Option<PaymentStatus>,
    merchantStatus: Option<MerchantOrderStatus>,
    amount: Option<int>,
    currency: Option<string>,
    subEntityType: Option<SubEntityType>,
    subEntityId: Option<string>,
    subEntityStatus: Option<string>)
  {
    predicate IsReversal() {
      eventType in REVERSAL_EVENT_TYPES || HasReversalEntity()
    }

    predicate HasReversalEntity() {
      subEntityType == Some(Refund) || subEntityType == Some(Dispute)
    }
  }

  /** Per-order state built up as events arrive. */
  datatype OrderView = OrderView(
    orderId: string,
    razorpayStatus: Option<PaymentStatus>,
    razorpayAmount: Option<int>,
    razorpayCurrency: Option<string>,
    razorpayLastEventAt: Option<int>,
    merchantStatus: Option<MerchantOrderStatus>,
    merchantLastEventAt: Option<int>,
    settled: bool,
    reversalIds: set<string>,
    seenEventIds: set<string>)

  function EmptyView(orderId: string): OrderView {
    OrderView(orderId, None, None, None, None, None, None, false, {}, {})
  }

  datatype CorrelationResult = CorrelationResult(view: OrderView, failure: Option<CorrelationFailure>) {
    predicate Ok() { failure.None? }
  }

  datatype Direction = Neutral | DirectionOf(kind: DriftKind)

  /** The free-text `decision` column of audit_log. */
  datatype AuditDecision = Decided(action: Action) | RecheckRetriesExhausted | Reclaim | DeadLettered

  /** One row destined for audit_log; `eventId` is its idempotency key. */
  datatype AuditEntry = AuditEntry(
    eventId: string,
    orderId: string,
    source: Source,
    eventType: string,
    decision: AuditDecision,
    direction: Direction,
    oldState: Option<ReconStatus>,
    newState: Option<ReconStatus>,
    subEntityType: Option<SubEntityType>,
    subEntityId: Option<string>,
    amount: Option<int>,
    currency: Option<string>)

  datatype ReviewReason =
    | CorrelationReview(failure: CorrelationFailure)
    | UnsafeDriftReview
    | DeadLetterReview
    | MalformedReview

  /** One row destined for review_queue. */
  datatype ReviewItem = ReviewItem(
    orderId: Option<string>,
    reason: ReviewReason,
    eventId: Option<string>,
    subEntityId: Option<string>)

  /** What the worker should do for one event; it never does it. */
  datatype Decision = Decision(
    action: Action,
    audit: AuditEntry,
    newStatus: Option<ReconStatus>,
    recheckAt: Option<int>,
    clearRecheckAt: bool,
    review: Option<ReviewItem>)

  datatype Evaluation = Evaluation(decision: Decision, view: OrderView)
}
