/** What an accepted row says, in terms of the cells it was read from. */
module ParsedRows {
  import opened Models
  import opened Money
  import opened Parse
  import opened Rows
  import opened Text
  import LogFacts
  import Normalize
  import ViewCodec

  // ------------------------------------------------------------------
  // Cells
  // ------------------------------------------------------------------

  predicate HasText(cell: Option<string>) {
    cell.Some? && exists i | 0 <= i < |cell.value| :: !IsSpace(cell.value[i])
  }

  /** Everything outside `i..j` is space, and the part inside neither begins nor ends with
      one. */
  predicate Trims(text: string, i: nat, j: nat) {
    && i <= j <= |text|
    && (forall k | 0 <= k < i :: IsSpace(text[k])) && (forall k | j <= k < |text| :: IsSpace(text[k]))
    && (i < j ==> !IsSpace(text[i]) && !IsSpace(text[j - 1]))
  }

  /** `t` is what is left of `text` without the spaces around it. */
  ghost predicate IsTrimmed(text: string, t: string) {
    exists i: nat, j: nat :: Trims(text, i, j) && t == text[i..j]
  }

  lemma TrimsFront(text: string, i: nat, j: nat)
    requires text != "" && IsSpace(text[0]) && Trims(text[1..], i, j)
    ensures Trims(text, i + 1, j + 1) && text[1..][i..j] == text[i + 1..j + 1]
  {
    hide IsSpace;
    var rest := text[1..];
    forall k | 0 <= k < i + 1 ensures IsSpace(text[k]) { if k > 0 { assert text[k] == rest[k - 1]; } }
    forall k | j + 1 <= k < |text| ensures IsSpace(text[k]) { assert text[k] == rest[k - 1]; }
  }

  lemma TrimsBack(text: string, i: nat, j: nat)
    requires text != "" && IsSpace(text[|text| - 1]) && Trims(text[..|text| - 1], i, j)
    ensures Trims(text, i, j) && text[..|text| - 1][i..j] == text[i..j]
  {
    hide IsSpace;
    var rest := text[..|text| - 1];
    forall k | j <= k < |text| ensures IsSpace(text[k]) { if k < |rest| { assert text[k] == rest[k]; } }
    forall k | 0 <= k < i ensures IsSpace(text[k]) { assert text[k] == rest[k]; }
  }

  lemma {:induction false} StripTrims(text: string) returns (i: nat, j: nat)
    ensures Trims(text, i, j) && Strip(text) == text[i..j]
    ensures IsTrimmed(text, Strip(text))
    decreases |text|
  {
    hide IsSpace;
    if text == "" {
      i, j := 0, 0;
    } else if IsSpace(text[0]) {
      i, j := StripTrims(text[1..]);
      TrimsFront(text, i, j);
      hide Trims;
      i, j := i + 1, j + 1;
    } else if IsSpace(text[|text| - 1]) {
      i, j := StripTrims(text[..|text| - 1]);
      TrimsBack(text, i, j);
      hide Trims;
    } else {
      i, j := 0, |text|;
    }
  }

  /** `t` is `cell` trimmed, where there is anything to trim; None says there was not. */
  ghost predicate ReadFrom(cell: Option<string>, t: Option<string>) {
    && (t.Some? <==> HasText(cell))
    && (t.Some? ==> IsTrimmed(cell.value, t.value) && !Blank(t.value))
  }

  lemma TextCellReads(cell: Option<string>)
    ensures ReadFrom(cell, TextCell(cell))
    ensures BlankCell(cell) <==> !HasText(cell)
  {
    if cell.Some? { var _, _ := StripTrims(cell.value); }
    hide IsTrimmed, IsSpace;
  }

  /** `code` is the three letters `text` holds between spaces, in capitals. */
  ghost predicate IsCodeOf(text: string, code: string) {
    exists t :: IsTrimmed(text, t) && |t| == |code| == 3 && forall i | 0 <= i < 3 ::
      ('A' <= t[i] <= 'Z' && code[i] == t[i]) || ('a' <= t[i] <= 'z' && code[i] as int == t[i] as int - 32)
  }

  lemma CodeIsRead(text: string)
    ensures CurrencyCode(text).Some? ==> IsCodeOf(text, CurrencyCode(text).value)
  {
    var _, _ := StripTrims(text);
    hide IsTrimmed;
  }

  /** A currency cell that holds text is read as its code, one that does not as the default. */
  ghost predicate CurrencyRead(cell: Option<string>, default: Option<string>, currency: Option<string>) {
    if HasText(cell) then currency.Some? && IsCodeOf(cell.value, currency.value) else currency == default
  }

  lemma CurrencyIsRead(cell: Option<string>, default: Option<string>)
    requires UsableCurrency(cell)
    ensures CurrencyRead(cell, default, CodeOr(cell, default))
  {
    TextCellReads(cell);
    if HasText(cell) { CodeIsRead(cell.value); }
    hide IsCodeOf, CurrencyCode, HasText;
  }

  /** Three letters between spaces. */
  ghost predicate HoldsCode(text: string) {
    exists t :: IsTrimmed(text, t) && |t| == 3 &&
                forall i | 0 <= i < 3 :: 'A' <= t[i] <= 'Z' || 'a' <= t[i] <= 'z'
  }

  lemma TrimmedIsUnique(text: string, t: string)
    requires IsTrimmed(text, t)
    ensures t == Strip(text)
  {
    hide IsSpace;
    var a, b := StripTrims(text);
    var i: nat, j: nat :| Trims(text, i, j) && t == text[i..j];
    if i < j && a < b {
      assert i == a && j == b;
    }
  }

  lemma CodeIff(text: string)
    ensures CurrencyCode(text).Some? <==> HoldsCode(text)
  {
    var _, _ := StripTrims(text);
    hide IsTrimmed, Strip;
    if HoldsCode(text) {
      var t :| IsTrimmed(text, t) && |t| == 3 && forall i | 0 <= i < 3 :: 'A' <= t[i] <= 'Z' || 'a' <= t[i] <= 'z';
      TrimmedIsUnique(text, t);
    }
  }

  // ------------------------------------------------------------------
  // Gateway rows
  // ------------------------------------------------------------------

  predicate AmountReads(cell: Option<Amount>, unit: AmountUnit) {
    cell.Some? && ToPaise(cell.value, unit).Exactly?
  }

  lemma ReversalRowIff(c: GatewayCells)
    requires c.GatewayCells?
    ensures IsReversalRow(c) <==> HasText(c.refundId) || HasText(c.disputeId)
  {
    TextCellReads(c.refundId);
    TextCellReads(c.disputeId);
    hide HasText, TextCell, IsTrimmed;
  }

  lemma UsableCurrencyIff(cell: Option<string>)
    ensures UsableCurrency(cell) <==> HasText(cell) ==> HoldsCode(cell.value)
  {
    TextCellReads(cell);
    if cell.Some? { CodeIff(cell.value); }
    hide HasText, HoldsCode, CurrencyCode, TextCell, BlankCell, IsTrimmed;
  }

  /** Which gateway rows are accepted. */
  lemma GatewayAcceptedIff(raw: Raw<GatewayCells>, unit: AmountUnit)
    ensures var c := raw.cells;
            GatewayUsable(c, unit) <==>
            && c.GatewayCells? && HasText(c.orderId)
            && (HasText(c.refundId) || HasText(c.disputeId) || c.status.Known?)
            && AmountReads(c.amount, unit)
            && (HasText(c.currency) ==> HoldsCode(c.currency.value))
            && !c.eventTime.BadTime?
  {
    var c := raw.cells;
    if c.GatewayCells? {
      TextCellReads(c.orderId);
      ReversalRowIff(c);
      UsableCurrencyIff(c.currency);
    }
    hide HasText, HoldsCode, UsableCurrency, IsReversalRow, TextCell, ToPaise, IsTrimmed;
  }

  /** What is reported against a row, and when. */
  lemma GatewayReasonsIff(c: GatewayCells, unit: AmountUnit, x: Reason)
    requires c.GatewayCells?
    ensures var reversal := HasText(c.refundId) || HasText(c.disputeId);
            x in GatewayReasons(c, unit) <==>
            match x
            case RowIsNotAnObject => false
            case OrderIdMissing => !HasText(c.orderId)
            case StatusMissing => !reversal && c.status.NoStatus?
            case StatusUnrecognized => !reversal && c.status.Unrecognized?
            case AmountMissing => c.amount.None?
            case BadAmount(e) => c.amount.Some? && ToPaise(c.amount.value, unit) == Refused(e)
            case BadCurrency => HasText(c.currency) && !HoldsCode(c.currency.value)
            case BadEventTime => c.eventTime.BadTime?
  {
    TextCellReads(c.orderId);
    ReversalRowIff(c);
    UsableCurrencyIff(c.currency);
    InAmountReasons(x, c.amount, unit);
    GatewayReasonParts(x, c, unit);
    hide AmountReasons, HasText, HoldsCode, TextCell, ToPaise, IsTrimmed, Strip, GatewayUsable, GatewayReasons,
         IsReversalRow, UsableCurrency;
  }

  lemma InAmountReasons(x: Reason, cell: Option<Amount>, unit: AmountUnit)
    ensures x in AmountReasons(cell, unit) <==>
            x.BadAmount? && cell.Some? && ToPaise(cell.value, unit) == Refused(x.error)
  {
    hide ToPaise;
  }

  lemma InWhen(x: Reason, condition: bool, reason: Reason)
    ensures x in When(condition, reason) <==> condition && x == reason
  {
  }

  lemma GatewayReasonParts(x: Reason, c: GatewayCells, unit: AmountUnit)
    requires c.GatewayCells?
    ensures x in GatewayReasons(c, unit) <==>
            || (x == OrderIdMissing && TextCell(c.orderId).None?)
            || (x == StatusMissing && !IsReversalRow(c) && c.status.NoStatus?)
            || (x == StatusUnrecognized && !IsReversalRow(c) && c.status.Unrecognized?)
            || (x == AmountMissing && c.amount.None?)
            || x in AmountReasons(c.amount, unit)
            || (x == BadCurrency && !UsableCurrency(c.currency))
            || (x == BadEventTime && c.eventTime.BadTime?)
  {
    InWhen(x, TextCell(c.orderId).None?, OrderIdMissing);
    InWhen(x, !IsReversalRow(c) && c.status.NoStatus?, StatusMissing);
    InWhen(x, !IsReversalRow(c) && c.status.Unrecognized?, StatusUnrecognized);
    InWhen(x, c.amount.None?, AmountMissing);
    InWhen(x, !UsableCurrency(c.currency), BadCurrency);
    InWhen(x, c.eventTime == BadTime, BadEventTime);
    hide When, AmountReasons, TextCell, UsableCurrency, IsReversalRow, GatewayUsable;
  }

  /** What is reported against a merchant row: the same, with the status always needed and the
      amount not. */
  lemma MerchantReasonsIff(c: MerchantCells, unit: AmountUnit, x: Reason)
    requires c.MerchantCells?
    ensures x in MerchantReasons(c, unit) <==>
            match x
            case RowIsNotAnObject => false
            case OrderIdMissing => !HasText(c.orderId)
            case StatusMissing => c.status.NoStatus?
            case StatusUnrecognized => c.status.Unrecognized?
            case AmountMissing => false
            case BadAmount(e) => c.amount.Some? && ToPaise(c.amount.value, unit) == Refused(e)
            case BadCurrency => HasText(c.currency) && !HoldsCode(c.currency.value)
            case BadEventTime => c.eventTime.BadTime?
  {
    TextCellReads(c.orderId);
    UsableCurrencyIff(c.currency);
    InAmountReasons(x, c.amount, unit);
    MerchantReasonParts(x, c, unit);
    hide AmountReasons, HasText, HoldsCode, TextCell, ToPaise, IsTrimmed, Strip, MerchantUsable, MerchantReasons,
         UsableCurrency;
  }

  lemma MerchantReasonParts(x: Reason, c: MerchantCells, unit: AmountUnit)
    requires c.MerchantCells?
    ensures x in MerchantReasons(c, unit) <==>
            || (x == OrderIdMissing && TextCell(c.orderId).None?)
            || (x == StatusMissing && c.status.NoStatus?)
            || (x == StatusUnrecognized && c.status.Unrecognized?)
            || x in AmountReasons(c.amount, unit)
            || (x == BadCurrency && !UsableCurrency(c.currency))
            || (x == BadEventTime && c.eventTime.BadTime?)
  {
    InWhen(x, TextCell(c.orderId).None?, OrderIdMissing);
    InWhen(x, c.status.NoStatus?, StatusMissing);
    InWhen(x, c.status.Unrecognized?, StatusUnrecognized);
    InWhen(x, !UsableCurrency(c.currency), BadCurrency);
    InWhen(x, c.eventTime == BadTime, BadEventTime);
    hide When, AmountReasons, TextCell, UsableCurrency, MerchantUsable;
  }

  /** Which merchant rows are accepted. */
  lemma MerchantAcceptedIff(raw: Raw<MerchantCells>, unit: AmountUnit)
    ensures var c := raw.cells;
            MerchantUsable(c, unit) <==>
            && c.MerchantCells? && HasText(c.orderId) && c.status.Known?
            && (c.amount.Some? ==> AmountReads(c.amount, unit))
            && (HasText(c.currency) ==> HoldsCode(c.currency.value))
            && !c.eventTime.BadTime?
  {
    var c := raw.cells;
    if c.MerchantCells? {
      TextCellReads(c.orderId);
      UsableCurrencyIff(c.currency);
    }
    hide HasText, HoldsCode, UsableCurrency, TextCell, ToPaise, IsTrimmed;
  }

  predicate TimeRead(cell: TimeCell, time: Option<int>) {
    match cell
    case At(instant) => time == Some(instant)
    case _ => time.None?
  }

  /** What an accepted gateway row says. */
  lemma GatewayRowSays(raw: Raw<GatewayCells>, unit: AmountUnit)
    requires GatewayUsable(raw.cells, unit)
    ensures var r, c := GatewayRowOf(raw, unit), raw.cells;
            && r.row == raw.number
            && ReadFrom(c.orderId, Some(r.orderId))
            && ReadFrom(c.paymentId, r.paymentId) && ReadFrom(c.refundId, r.refundId)
            && ReadFrom(c.disputeId, r.disputeId)
            && (if HasText(c.refundId) then r.status == "refunded"
                else if HasText(c.disputeId) then r.status == "disputed"
                else c.status.Known? && ViewCodec.ParsePaymentStatus(r.status) == Some(c.status.status))
            && c.amount.Some? && ToPaise(c.amount.value, unit) == Exactly(r.amount)
            && CurrencyRead(c.currency, Some("INR"), Some(r.currency))
            && TimeRead(c.eventTime, r.eventTime)
  {
    var c := raw.cells;
    TextCellReads(c.orderId);
    TextCellReads(c.paymentId);
    TextCellReads(c.refundId);
    TextCellReads(c.disputeId);
    CurrencyIsRead(c.currency, Some("INR"));
    if c.status.Known? { ViewCodec.StatusTextsParse(c.status.status, OrderPending); }
    hide HasText, IsTrimmed, TextCell, ToPaise, CurrencyRead, CurrencyCode, ViewCodec.ParsePaymentStatus,
         ViewCodec.PaymentStatusText, Blank;
  }

  /** From cells to event: what an accepted gateway row tells the engine. */
  lemma GatewayCellsReachEngine(raw: Raw<GatewayCells>, unit: AmountUnit, created: int, now: int)
    requires GatewayUsable(raw.cells, unit)
    ensures var event := Normalize.EnvelopeToEvent(GatewayEnvelope(GatewayRowOf(raw, unit), created), now);
            var c := raw.cells;
            && event.Some?
            && ReadFrom(c.orderId, Some(event.value.orderId))
            && CurrencyRead(c.currency, Some("INR"), event.value.currency)
            && TimeDates(c.eventTime, created, event.value.occurredAt)
            && (if !HasText(c.refundId) && !HasText(c.disputeId) then
                  && c.status.Known? && event.value.paymentStatus == Some(c.status.status)
                  && event.value.subEntityType.None? && event.value.subEntityId.None?
                  && !event.value.IsReversal()
                else
                  && event.value.paymentStatus.None?
                  && event.value.subEntityType == Some(if HasText(c.refundId) then Refund else Dispute)
                  && ReadFrom(if HasText(c.refundId) then c.refundId else c.disputeId, event.value.subEntityId))
  {
    var c := raw.cells;
    AcceptedGatewayRowReachesEngine(raw, unit, created, now);
    TextCellReads(c.orderId);
    TextCellReads(c.refundId);
    TextCellReads(c.disputeId);
    CurrencyIsRead(c.currency, Some("INR"));
    hide Normalize.EnvelopeToEvent, GatewayEnvelope, GatewayRowOf, HasText, IsTrimmed, ToPaise, CurrencyRead, CodeOr,
         Dated, LogFacts.EventOk, GatewayId, GatewayUsable, Blank, TextCell;
  }

  // ------------------------------------------------------------------
  // Merchant rows
  // ------------------------------------------------------------------

  predicate AmountRead(cell: Option<Amount>, unit: AmountUnit, amount: Option<int>) {
    match cell
    case None => amount.None?
    case Some(value) => ToPaise(value, unit).Exactly? && amount == Some(ToPaise(value, unit).paise)
  }

  /** What an accepted merchant row says. */
  lemma MerchantRowSays(raw: Raw<MerchantCells>, unit: AmountUnit)
    requires MerchantUsable(raw.cells, unit)
    ensures var r, c := MerchantRowOf(raw, unit), raw.cells;
            && r.row == raw.number
            && ReadFrom(c.orderId, Some(r.orderId))
            && c.status.Known? && ViewCodec.ParseMerchantStatus(r.status) == Some(c.status.status)
            && AmountRead(c.amount, unit, r.amount)
            && CurrencyRead(c.currency, None, r.currency)
            && TimeRead(c.eventTime, r.eventTime)
  {
    var c := raw.cells;
    TextCellReads(c.orderId);
    CurrencyIsRead(c.currency, None);
    ViewCodec.StatusTextsParse(PayCreated, c.status.status);
    hide HasText, IsTrimmed, TextCell, ToPaise, CurrencyRead, CurrencyCode, ViewCodec.ParseMerchantStatus,
         ViewCodec.MerchantStatusText, Blank;
  }

  /** From cells to event: what an accepted merchant row tells the engine. */
  lemma MerchantCellsReachEngine(raw: Raw<MerchantCells>, unit: AmountUnit, created: int, now: int)
    requires MerchantUsable(raw.cells, unit)
    ensures var event := Normalize.EnvelopeToEvent(MerchantEnvelope(MerchantRowOf(raw, unit), created), now);
            var c := raw.cells;
            && event.Some?
            && ReadFrom(c.orderId, Some(event.value.orderId))
            && AmountRead(c.amount, unit, event.value.amount)
            && CurrencyRead(c.currency, None, event.value.currency)
            && TimeDates(c.eventTime, created, event.value.occurredAt)
            && c.status.Known? && event.value.merchantStatus == Some(c.status.status)
            && event.value.paymentStatus.None? && !event.value.IsReversal()
  {
    var c := raw.cells;
    AcceptedMerchantRowReachesEngine(raw, unit, created, now);
    TextCellReads(c.orderId);
    CurrencyIsRead(c.currency, None);
    hide Normalize.EnvelopeToEvent, MerchantEnvelope, MerchantRowOf, HasText, IsTrimmed, ToPaise, CurrencyRead,
         CodeOr, Dated, LogFacts.EventOk, MerchantId, Blank, TextCell, UsableCurrency;
  }

  /** A rejected row is reported under its number and whatever order id it holds. */
  lemma RejectedRowIsNamed(gateway: Raw<GatewayCells>, merchant: Raw<MerchantCells>, unit: AmountUnit)
    ensures var bad := InvalidGatewayRow(gateway, unit);
            && bad.row == gateway.number
            && if gateway.cells.NotAnObject? then bad.reasons == [RowIsNotAnObject] && bad.orderId.None?
               else
                 && bad.reasons == GatewayReasons(gateway.cells, unit)
                 && ReadFrom(gateway.cells.orderId, bad.orderId)
    ensures var bad := InvalidMerchantRow(merchant, unit);
            && bad.row == merchant.number
            && if merchant.cells.NotAMerchantObject? then bad.reasons == [RowIsNotAnObject] && bad.orderId.None?
               else
                 && bad.reasons == MerchantReasons(merchant.cells, unit)
                 && ReadFrom(merchant.cells.orderId, bad.orderId)
  {
    if gateway.cells.GatewayCells? { TextCellReads(gateway.cells.orderId); }
    if merchant.cells.MerchantCells? { TextCellReads(merchant.cells.orderId); }
    hide HasText, IsTrimmed, TextCell, Blank;
  }
}
