/** The row loops of the two export parsers: every raw row is accepted or reported. */
module Parse {
  import opened Models
  import opened Money
  import opened Rows
  import opened Text
  import LogFacts
  import Normalize
  import ReconcileLaws
  import ViewCodec

  const MAX_ROWS := 5_000

  // ------------------------------------------------------------------
  // Cells
  // ------------------------------------------------------------------

  /** A status cell looked up in the synonym table. */
  datatype StatusCell<+S> = NoStatus | Unrecognized | Known(status: S)

  datatype TimeCell = NoTime | BadTime | At(instant: int)

  /** One raw row's cells, by canonical column; None where the column is absent or blank, or
      for text cells the text as it stands. */
  datatype GatewayCells =
    | NotAnObject
    | GatewayCells(
        orderId: Option<string>,
        status: StatusCell<PaymentStatus>,
        amount: Option<Amount>,
        currency: Option<string>,
        paymentId: Option<string>,
        refundId: Option<string>,
        disputeId: Option<string>,
        eventTime: TimeCell)

  datatype MerchantCells =
    | NotAMerchantObject
    | MerchantCells(
        orderId: Option<string>,
        status: StatusCell<MerchantOrderStatus>,
        amount: Option<Amount>,
        currency: Option<string>,
        eventTime: TimeCell)

  datatype Raw<+C> = Raw(number: nat, cells: C)

  datatype Reason =
    | RowIsNotAnObject
    | OrderIdMissing
    | StatusMissing
    | StatusUnrecognized
    | AmountMissing
    | BadAmount(error: AmountError)
    | BadCurrency
    | BadEventTime

  datatype InvalidRow = InvalidRow(row: nat, reasons: seq<Reason>, orderId: Option<string>)

  datatype ParseResult<+R> = TooManyRows | MissingColumns | Parsed(rows: seq<R>, invalid: seq<InvalidRow>)

  /** `text.strip()` */
  function Strip(text: string): (s: string)
    ensures Blank(text) <==> s == ""
    ensures s != "" ==> !Blank(s)
    decreases |text|
  {
    if text == "" then ""
    else if IsSpace(text[0]) then Strip(text[1..])
    else if IsSpace(text[|text| - 1]) then Strip(text[..|text| - 1])
    else text
  }

  function TextCell(cell: Option<string>): (text: Option<string>)
    ensures text.Some? ==> !Blank(text.value)
  {
    if cell.None? || Blank(cell.value) then None else Some(Strip(cell.value))
  }

  predicate IsLetter(c: char) { 'A' <= c <= 'Z' || 'a' <= c <= 'z' }

  /** Three letters, upper-cased. */
  function CurrencyCode(text: string): Option<string> {
    var t := Strip(text);
    if |t| == 3 && IsLetter(t[0]) && IsLetter(t[1]) && IsLetter(t[2]) then Some(Upper(t)) else None
  }

  predicate BlankCell(cell: Option<string>) {
    cell.None? || Blank(cell.value)
  }

  // ------------------------------------------------------------------
  // One row
  // ------------------------------------------------------------------

  predicate IsReversalRow(c: GatewayCells)
    requires c.GatewayCells?
  {
    TextCell(c.refundId).Some? || TextCell(c.disputeId).Some?
  }

  predicate UsableAmount(cell: Option<Amount>, unit: AmountUnit) {
    cell.Some? && ToPaise(cell.value, unit).Exactly?
  }

  predicate UsableCurrency(cell: Option<string>) {
    BlankCell(cell) || CurrencyCode(cell.value).Some?
  }

  /** What makes a gateway row usable. */
  predicate GatewayUsable(c: GatewayCells, unit: AmountUnit) {
    && c.GatewayCells?
    && TextCell(c.orderId).Some?
    && (IsReversalRow(c) || c.status.Known?)
    && UsableAmount(c.amount, unit)
    && UsableCurrency(c.currency)
    && c.eventTime != BadTime
  }

  predicate MerchantUsable(c: MerchantCells, unit: AmountUnit) {
    && c.MerchantCells?
    && TextCell(c.orderId).Some?
    && c.status.Known?
    && (c.amount.None? || UsableAmount(c.amount, unit))
    && UsableCurrency(c.currency)
    && c.eventTime != BadTime
  }

  function TimeOf(cell: TimeCell): Option<int> {
    if cell.At? then Some(cell.instant) else None
  }

  function CodeOr(cell: Option<string>, default: Option<string>): Option<string> {
    if BlankCell(cell) then default else CurrencyCode(cell.value)
  }

  function GatewayRowOf(raw: Raw<GatewayCells>, unit: AmountUnit): GatewayRow
    requires GatewayUsable(raw.cells, unit)
  {
    var c := raw.cells;
    GatewayRow(raw.number, TextCell(c.orderId).value,
               if !IsReversalRow(c) then ViewCodec.PaymentStatusText(c.status.status)
               else if TextCell(c.refundId).None? then "disputed" else "refunded",
               ToPaise(c.amount.value, unit).paise,
               CodeOr(c.currency, Some("INR")).value,
               TextCell(c.paymentId), TextCell(c.refundId), TextCell(c.disputeId), TimeOf(c.eventTime))
  }

  function MerchantRowOf(raw: Raw<MerchantCells>, unit: AmountUnit): MerchantRow
    requires MerchantUsable(raw.cells, unit)
  {
    var c := raw.cells;
    MerchantRow(raw.number, TextCell(c.orderId).value, ViewCodec.MerchantStatusText(c.status.status),
                if c.amount.None? then None else Some(ToPaise(c.amount.value, unit).paise),
                CodeOr(c.currency, None), TimeOf(c.eventTime))
  }

  /** The usable rows, in file order. */
  function GatewayRows(raw: seq<Raw<GatewayCells>>, unit: AmountUnit): seq<GatewayRow> {
    if raw == [] then []
    else
      var n := |raw| - 1;
      GatewayRows(raw[..n], unit) +
      if GatewayUsable(raw[n].cells, unit) then [GatewayRowOf(raw[n], unit)] else []
  }

  function MerchantRows(raw: seq<Raw<MerchantCells>>, unit: AmountUnit): seq<MerchantRow> {
    if raw == [] then []
    else
      var n := |raw| - 1;
      MerchantRows(raw[..n], unit) +
      if MerchantUsable(raw[n].cells, unit) then [MerchantRowOf(raw[n], unit)] else []
  }

  function When(condition: bool, reason: Reason): seq<Reason> {
    if condition then [reason] else []
  }

  function AmountReasons(cell: Option<Amount>, unit: AmountUnit): seq<Reason> {
    if cell.None? || UsableAmount(cell, unit) then []
    else [BadAmount(ToPaise(cell.value, unit).error)]
  }

  /** Everything wrong with a row, column by column. */
  function GatewayReasons(c: GatewayCells, unit: AmountUnit): (reasons: seq<Reason>)
    ensures reasons == [] <==> GatewayUsable(c, unit)
  {
    if c.NotAnObject? then [RowIsNotAnObject]
    else
      When(TextCell(c.orderId).None?, OrderIdMissing) +
      When(!IsReversalRow(c) && c.status.NoStatus?, StatusMissing) +
      When(!IsReversalRow(c) && c.status.Unrecognized?, StatusUnrecognized) +
      When(c.amount.None?, AmountMissing) +
      AmountReasons(c.amount, unit) +
      When(!UsableCurrency(c.currency), BadCurrency) +
      When(c.eventTime == BadTime, BadEventTime)
  }

  function MerchantReasons(c: MerchantCells, unit: AmountUnit): (reasons: seq<Reason>)
    ensures reasons == [] <==> MerchantUsable(c, unit)
  {
    if c.NotAMerchantObject? then [RowIsNotAnObject]
    else
      When(TextCell(c.orderId).None?, OrderIdMissing) +
      When(c.status.NoStatus?, StatusMissing) +
      When(c.status.Unrecognized?, StatusUnrecognized) +
      AmountReasons(c.amount, unit) +
      When(!UsableCurrency(c.currency), BadCurrency) +
      When(c.eventTime == BadTime, BadEventTime)
  }

  function InvalidGatewayRow(raw: Raw<GatewayCells>, unit: AmountUnit): InvalidRow {
    InvalidRow(raw.number, GatewayReasons(raw.cells, unit),
               if raw.cells.GatewayCells? then TextCell(raw.cells.orderId) else None)
  }

  function InvalidMerchantRow(raw: Raw<MerchantCells>, unit: AmountUnit): InvalidRow {
    InvalidRow(raw.number, MerchantReasons(raw.cells, unit),
               if raw.cells.MerchantCells? then TextCell(raw.cells.orderId) else None)
  }

  /** The reports on the other rows, in file order. */
  function InvalidGatewayRows(raw: seq<Raw<GatewayCells>>, unit: AmountUnit): seq<InvalidRow> {
    if raw == [] then []
    else
      var n := |raw| - 1;
      InvalidGatewayRows(raw[..n], unit) +
      if GatewayUsable(raw[n].cells, unit) then [] else [InvalidGatewayRow(raw[n], unit)]
  }

  function InvalidMerchantRows(raw: seq<Raw<MerchantCells>>, unit: AmountUnit): seq<InvalidRow> {
    if raw == [] then []
    else
      var n := |raw| - 1;
      InvalidMerchantRows(raw[..n], unit) +
      if MerchantUsable(raw[n].cells, unit) then [] else [InvalidMerchantRow(raw[n], unit)]
  }

  // ------------------------------------------------------------------
  // The loops
  // ------------------------------------------------------------------

  /** Reads the amount cell; a reason when it has none to give. */
  method ReadAmount(cell: Option<Amount>, unit: AmountUnit, reasons: seq<Reason>)
    returns (amount: Option<nat>, reasons': seq<Reason>)
    ensures UsableAmount(cell, unit) ==> amount == Some(ToPaise(cell.value, unit).paise)
    ensures cell.None? ==> amount.None?
    ensures reasons' == reasons + AmountReasons(cell, unit)
  {
    hide ToPaise;
    amount, reasons' := None, reasons;
    if cell.None? { return; }
    match ToPaise(cell.value, unit) {
      case Exactly(paise) => amount := Some(paise);
      case Refused(error) => reasons' := reasons + [BadAmount(error)];
    }
  }

  /** Reads a currency cell over a default. */
  method ReadCurrency(cell: Option<string>, default: Option<string>, reasons: seq<Reason>)
    returns (currency: Option<string>, reasons': seq<Reason>)
    ensures UsableCurrency(cell) ==> currency == CodeOr(cell, default)
    ensures reasons' == reasons + When(!UsableCurrency(cell), BadCurrency)
  {
    hide CurrencyCode;
    currency, reasons' := default, reasons;
    if !BlankCell(cell) {
      var code := CurrencyCode(cell.value);
      if code.Some? {
        currency := code;
      } else {
        reasons' := reasons + [BadCurrency];
      }
    }
  }

  method ReadTime(cell: TimeCell, reasons: seq<Reason>) returns (at: Option<int>, reasons': seq<Reason>)
    ensures at == TimeOf(cell)
    ensures reasons' == reasons + When(cell == BadTime, BadEventTime)
  {
    at, reasons' := None, reasons;
    match cell {
      case NoTime =>
      case BadTime => reasons' := reasons + [BadEventTime];
      case At(instant) => at := Some(instant);
    }
  }

  /** The row, or the reasons against it. */
  method ReadGatewayRow(raw: Raw<GatewayCells>, unit: AmountUnit)
    returns (row: Option<GatewayRow>, reasons: seq<Reason>, orderId: Option<string>)
    ensures reasons == GatewayReasons(raw.cells, unit)
    ensures row == if reasons == [] then Some(GatewayRowOf(raw, unit)) else None
    ensures orderId == if raw.cells.GatewayCells? then TextCell(raw.cells.orderId) else None
  {
    hide ToPaise, TextCell, Blank, ViewCodec.PaymentStatusText, When, AmountReasons;
    var c := raw.cells;
    row, reasons, orderId := None, [RowIsNotAnObject], None;
    if c.NotAnObject? { return; }
    orderId := TextCell(c.orderId);
    reasons := When(orderId.None?, OrderIdMissing);
    var refundId, disputeId := TextCell(c.refundId), TextCell(c.disputeId);
    var reversal := refundId.Some? || disputeId.Some?;
    var status := "";
    if reversal {
      status := if disputeId.Some? && refundId.None? then "disputed" else "refunded";
    } else if c.status.Known? {
      status := ViewCodec.PaymentStatusText(c.status.status);
    }
    reasons := reasons + When(!reversal && c.status.NoStatus?, StatusMissing);
    reasons := reasons + When(!reversal && c.status.Unrecognized?, StatusUnrecognized);
    var amount: Option<nat>;
    reasons := reasons + When(c.amount.None?, AmountMissing);
    amount, reasons := ReadAmount(c.amount, unit, reasons);
    var currency: Option<string>;
    currency, reasons := ReadCurrency(c.currency, Some("INR"), reasons);
    var eventTime: Option<int>;
    eventTime, reasons := ReadTime(c.eventTime, reasons);
    assert reasons == GatewayReasons(c, unit);
    if reasons == [] {
      row := Some(GatewayRow(raw.number, orderId.value, status, amount.value, currency.value, TextCell(c.paymentId),
                             refundId, disputeId, eventTime));
    }
  }

  method ReadMerchantRow(raw: Raw<MerchantCells>, unit: AmountUnit)
    returns (row: Option<MerchantRow>, reasons: seq<Reason>, orderId: Option<string>)
    ensures reasons == MerchantReasons(raw.cells, unit)
    ensures row == if reasons == [] then Some(MerchantRowOf(raw, unit)) else None
    ensures orderId == if raw.cells.MerchantCells? then TextCell(raw.cells.orderId) else None
  {
    hide ToPaise, TextCell, Blank, ViewCodec.MerchantStatusText, When, AmountReasons;
    var c := raw.cells;
    row, reasons, orderId := None, [RowIsNotAnObject], None;
    if c.NotAMerchantObject? { return; }
    orderId := TextCell(c.orderId);
    reasons := When(orderId.None?, OrderIdMissing);
    var status := if c.status.Known? then ViewCodec.MerchantStatusText(c.status.status) else "";
    reasons := reasons + When(c.status.NoStatus?, StatusMissing);
    reasons := reasons + When(c.status.Unrecognized?, StatusUnrecognized);
    var amount: Option<nat>;
    amount, reasons := ReadAmount(c.amount, unit, reasons);
    var currency: Option<string>;
    currency, reasons := ReadCurrency(c.currency, None, reasons);
    var eventTime: Option<int>;
    eventTime, reasons := ReadTime(c.eventTime, reasons);
    assert reasons == MerchantReasons(c, unit);
    if reasons == [] {
      row := Some(MerchantRow(raw.number, orderId.value, status, amount, currency, eventTime));
    }
  }

  lemma NoGatewayRows(unit: AmountUnit)
    ensures GatewayRows([], unit) == [] && InvalidGatewayRows([], unit) == []
  {
  }

  lemma NextGatewayRow(raw: seq<Raw<GatewayCells>>, i: nat, unit: AmountUnit)
    requires i < |raw|
    ensures var c := raw[i].cells;
            && GatewayRows(raw[..i + 1], unit) ==
                 GatewayRows(raw[..i], unit) + (if GatewayUsable(c, unit) then [GatewayRowOf(raw[i], unit)] else [])
            && InvalidGatewayRows(raw[..i + 1], unit) ==
                 InvalidGatewayRows(raw[..i], unit) +
                 (if GatewayUsable(c, unit) then []
                  else [InvalidRow(raw[i].number, GatewayReasons(c, unit),
                                   if c.GatewayCells? then TextCell(c.orderId) else None)])
  {
    hide GatewayUsable, GatewayRowOf, GatewayReasons;
    assert raw[..i + 1][..i] == raw[..i];
  }

  /** Usable rows are kept, the others reported with all that is wrong with them, both in
      file order. `columns` are the canonical columns found. */
  method ParseGateway(raw: seq<Raw<GatewayCells>>, columns: set<string>, unit: AmountUnit)
    returns (result: ParseResult<GatewayRow>)
    ensures result.TooManyRows? <==> |raw| > 5_000
    ensures result.MissingColumns? <==> |raw| <= 5_000 && !({"order_id", "status", "amount"} <= columns)
    ensures result.Parsed? ==>
              && result.rows == GatewayRows(raw, unit)
              && result.invalid == InvalidGatewayRows(raw, unit)
  {
    if |raw| > MAX_ROWS { return TooManyRows; }
    if !({"order_id", "status", "amount"} <= columns) { return MissingColumns; }
    hide GatewayUsable, GatewayRowOf, GatewayReasons, GatewayRows, InvalidGatewayRows, InvalidGatewayRow;
    NoGatewayRows(unit);
    var rows: seq<GatewayRow>, invalid: seq<InvalidRow> := [], [];
    var i := 0;
    while i < |raw|
      invariant 0 <= i <= |raw|
      invariant rows == GatewayRows(raw[..i], unit)
      invariant invalid == InvalidGatewayRows(raw[..i], unit)
    {
      var row, reasons, orderId := ReadGatewayRow(raw[i], unit);
      NextGatewayRow(raw, i, unit);
      if row.None? {
        invalid := invalid + [InvalidRow(raw[i].number, reasons, orderId)];
      } else {
        rows := rows + [row.value];
      }
      i := i + 1;
    }
    assert raw[..i] == raw;
    result := Parsed(rows, invalid);
  }

  lemma NoMerchantRows(unit: AmountUnit)
    ensures MerchantRows([], unit) == [] && InvalidMerchantRows([], unit) == []
  {
  }

  lemma NextMerchantRow(raw: seq<Raw<MerchantCells>>, i: nat, unit: AmountUnit)
    requires i < |raw|
    ensures var c := raw[i].cells;
            && MerchantRows(raw[..i + 1], unit) ==
                 MerchantRows(raw[..i], unit) + (if MerchantUsable(c, unit) then [MerchantRowOf(raw[i], unit)] else [])
            && InvalidMerchantRows(raw[..i + 1], unit) ==
                 InvalidMerchantRows(raw[..i], unit) +
                 (if MerchantUsable(c, unit) then []
                  else [InvalidRow(raw[i].number, MerchantReasons(c, unit),
                                   if c.MerchantCells? then TextCell(c.orderId) else None)])
  {
    hide MerchantUsable, MerchantRowOf, MerchantReasons;
    assert raw[..i + 1][..i] == raw[..i];
  }

  method ParseMerchant(raw: seq<Raw<MerchantCells>>, columns: set<string>, unit: AmountUnit)
    returns (result: ParseResult<MerchantRow>)
    ensures result.TooManyRows? <==> |raw| > 5_000
    ensures result.MissingColumns? <==> |raw| <= 5_000 && !({"order_id", "status"} <= columns)
    ensures result.Parsed? ==>
              && result.rows == MerchantRows(raw, unit)
              && result.invalid == InvalidMerchantRows(raw, unit)
  {
    if |raw| > MAX_ROWS { return TooManyRows; }
    if !({"order_id", "status"} <= columns) { return MissingColumns; }
    hide MerchantUsable, MerchantRowOf, MerchantReasons, MerchantRows, InvalidMerchantRows, InvalidMerchantRow;
    NoMerchantRows(unit);
    var rows: seq<MerchantRow>, invalid: seq<InvalidRow> := [], [];
    var i := 0;
    while i < |raw|
      invariant 0 <= i <= |raw|
      invariant rows == MerchantRows(raw[..i], unit)
      invariant invalid == InvalidMerchantRows(raw[..i], unit)
    {
      var row, reasons, orderId := ReadMerchantRow(raw[i], unit);
      NextMerchantRow(raw, i, unit);
      if row.None? {
        invalid := invalid + [InvalidRow(raw[i].number, reasons, orderId)];
      } else {
        rows := rows + [row.value];
      }
      i := i + 1;
    }
    assert raw[..i] == raw;
    result := Parsed(rows, invalid);
  }

  // ------------------------------------------------------------------
  // No row is lost
  // ------------------------------------------------------------------

  predicate Numbered<C>(raw: seq<Raw<C>>) {
    forall i, j | 0 <= i < j < |raw| :: raw[i].number < raw[j].number
  }

  /** What the two lists hold, and between them how much. */
  lemma {:induction false} GatewayLists(raw: seq<Raw<GatewayCells>>, unit: AmountUnit)
    ensures var rows, invalid := GatewayRows(raw, unit), InvalidGatewayRows(raw, unit);
            && |rows| + |invalid| == |raw|
            && (forall r :: r in rows <==>
                  exists x | x in raw :: GatewayUsable(x.cells, unit) && r == GatewayRowOf(x, unit))
            && (forall bad :: bad in invalid <==>
                  exists x | x in raw :: !GatewayUsable(x.cells, unit) && bad == InvalidGatewayRow(x, unit))
  {
    hide GatewayUsable, InvalidGatewayRow, GatewayRowOf;
    if raw != [] {
      var n := |raw| - 1;
      GatewayLists(raw[..n], unit);
      assert raw == raw[..n] + [raw[n]];
    }
  }

  lemma {:induction false} MerchantLists(raw: seq<Raw<MerchantCells>>, unit: AmountUnit)
    ensures var rows, invalid := MerchantRows(raw, unit), InvalidMerchantRows(raw, unit);
            && |rows| + |invalid| == |raw|
            && (forall r :: r in rows <==>
                  exists x | x in raw :: MerchantUsable(x.cells, unit) && r == MerchantRowOf(x, unit))
            && (forall bad :: bad in invalid <==>
                  exists x | x in raw :: !MerchantUsable(x.cells, unit) && bad == InvalidMerchantRow(x, unit))
  {
    hide MerchantUsable, InvalidMerchantRow, MerchantRowOf;
    if raw != [] {
      var n := |raw| - 1;
      MerchantLists(raw[..n], unit);
      assert raw == raw[..n] + [raw[n]];
    }
  }

  lemma SameNumberSameRow<C>(raw: seq<Raw<C>>, x: Raw<C>, y: Raw<C>)
    requires Numbered(raw) && x in raw && y in raw && x.number == y.number
    ensures x == y
  {
  }

  /** Each raw row lands in exactly one of the two lists, under its own number, and each
      listed row comes from a raw row. */
  lemma GatewayRowsLandOnce(raw: seq<Raw<GatewayCells>>, unit: AmountUnit, x: Raw<GatewayCells>)
    requires Numbered(raw) && x in raw
    ensures var rows, invalid := GatewayRows(raw, unit), InvalidGatewayRows(raw, unit);
            && |rows| + |invalid| == |raw|
            && ((exists r :: r in rows && r.row == x.number) <==> GatewayUsable(x.cells, unit))
            && ((exists bad :: bad in invalid && bad.row == x.number) <==> !GatewayUsable(x.cells, unit))
  {
    GatewayLists(raw, unit);
    var rows, invalid := GatewayRows(raw, unit), InvalidGatewayRows(raw, unit);
    hide GatewayUsable, GatewayRows, InvalidGatewayRows, GatewayReasons;
    if GatewayUsable(x.cells, unit) {
      assert GatewayRowOf(x, unit) in rows;
    } else {
      assert InvalidGatewayRow(x, unit) in invalid;
    }
    if r :| r in rows && r.row == x.number {
      var y :| y in raw && GatewayUsable(y.cells, unit) && r == GatewayRowOf(y, unit);
      SameNumberSameRow(raw, x, y);
    }
    if bad :| bad in invalid && bad.row == x.number {
      var y :| y in raw && !GatewayUsable(y.cells, unit) && bad == InvalidGatewayRow(y, unit);
      SameNumberSameRow(raw, x, y);
    }
  }

  lemma MerchantRowsLandOnce(raw: seq<Raw<MerchantCells>>, unit: AmountUnit, x: Raw<MerchantCells>)
    requires Numbered(raw) && x in raw
    ensures var rows, invalid := MerchantRows(raw, unit), InvalidMerchantRows(raw, unit);
            && |rows| + |invalid| == |raw|
            && ((exists r :: r in rows && r.row == x.number) <==> MerchantUsable(x.cells, unit))
            && ((exists bad :: bad in invalid && bad.row == x.number) <==> !MerchantUsable(x.cells, unit))
  {
    MerchantLists(raw, unit);
    var rows, invalid := MerchantRows(raw, unit), InvalidMerchantRows(raw, unit);
    hide MerchantUsable, MerchantRows, InvalidMerchantRows, MerchantReasons;
    if MerchantUsable(x.cells, unit) {
      assert MerchantRowOf(x, unit) in rows;
    } else {
      assert InvalidMerchantRow(x, unit) in invalid;
    }
    if r :| r in rows && r.row == x.number {
      var y :| y in raw && MerchantUsable(y.cells, unit) && r == MerchantRowOf(y, unit);
      SameNumberSameRow(raw, x, y);
    }
    if bad :| bad in invalid && bad.row == x.number {
      var y :| y in raw && !MerchantUsable(y.cells, unit) && bad == InvalidMerchantRow(y, unit);
      SameNumberSameRow(raw, x, y);
    }
  }

  /** The accepted rows keep the order of the file. */
  lemma {:induction false} GatewayRowsInOrder(raw: seq<Raw<GatewayCells>>, unit: AmountUnit)
    requires Numbered(raw)
    ensures forall i, j | 0 <= i < j < |GatewayRows(raw, unit)| ::
              GatewayRows(raw, unit)[i].row < GatewayRows(raw, unit)[j].row
  {
    hide GatewayUsable, GatewayRowOf;
    if raw != [] {
      var n := |raw| - 1;
      var rows, before := GatewayRows(raw, unit), GatewayRows(raw[..n], unit);
      GatewayRowsInOrder(raw[..n], unit);
      GatewayNumbersBelow(raw, unit);
      forall i, j | 0 <= i < j < |rows| ensures rows[i].row < rows[j].row {
        assert before[i] in before;
        if j < |before| { assert before[i].row < before[j].row; }
      }
    }
  }

  lemma GatewayNumbersBelow(raw: seq<Raw<GatewayCells>>, unit: AmountUnit)
    requires Numbered(raw) && raw != []
    ensures Numbered(raw[..|raw| - 1])
    ensures forall r | r in GatewayRows(raw[..|raw| - 1], unit) :: r.row < raw[|raw| - 1].number
    ensures GatewayUsable(raw[|raw| - 1].cells, unit) ==>
              GatewayRowOf(raw[|raw| - 1], unit).row == raw[|raw| - 1].number
  {
    var n := |raw| - 1;
    GatewayLists(raw[..n], unit);
    LastNumberIsNew(raw);
    hide GatewayUsable, GatewayRows;
    forall r | r in GatewayRows(raw[..n], unit) ensures r.row < raw[n].number {
      var y :| y in raw[..n] && GatewayUsable(y.cells, unit) && r == GatewayRowOf(y, unit);
    }
  }

  lemma {:induction false} MerchantRowsInOrder(raw: seq<Raw<MerchantCells>>, unit: AmountUnit)
    requires Numbered(raw)
    ensures forall i, j | 0 <= i < j < |MerchantRows(raw, unit)| ::
              MerchantRows(raw, unit)[i].row < MerchantRows(raw, unit)[j].row
  {
    hide MerchantUsable, MerchantRowOf;
    if raw != [] {
      var n := |raw| - 1;
      var rows, before := MerchantRows(raw, unit), MerchantRows(raw[..n], unit);
      MerchantRowsInOrder(raw[..n], unit);
      MerchantNumbersBelow(raw, unit);
      forall i, j | 0 <= i < j < |rows| ensures rows[i].row < rows[j].row {
        assert before[i] in before;
        if j < |before| { assert before[i].row < before[j].row; }
      }
    }
  }

  lemma MerchantNumbersBelow(raw: seq<Raw<MerchantCells>>, unit: AmountUnit)
    requires Numbered(raw) && raw != []
    ensures Numbered(raw[..|raw| - 1])
    ensures forall r | r in MerchantRows(raw[..|raw| - 1], unit) :: r.row < raw[|raw| - 1].number
    ensures MerchantUsable(raw[|raw| - 1].cells, unit) ==>
              MerchantRowOf(raw[|raw| - 1], unit).row == raw[|raw| - 1].number
  {
    var n := |raw| - 1;
    MerchantLists(raw[..n], unit);
    LastNumberIsNew(raw);
    hide MerchantUsable, MerchantRows;
    forall r | r in MerchantRows(raw[..n], unit) ensures r.row < raw[n].number {
      var y :| y in raw[..n] && MerchantUsable(y.cells, unit) && r == MerchantRowOf(y, unit);
    }
  }

  lemma {:induction false} InvalidGatewayRowsInOrder(raw: seq<Raw<GatewayCells>>, unit: AmountUnit)
    requires Numbered(raw)
    ensures forall i, j | 0 <= i < j < |InvalidGatewayRows(raw, unit)| ::
              InvalidGatewayRows(raw, unit)[i].row < InvalidGatewayRows(raw, unit)[j].row
  {
    hide GatewayUsable, GatewayReasons;
    if raw != [] {
      var n := |raw| - 1;
      var bad, before := InvalidGatewayRows(raw, unit), InvalidGatewayRows(raw[..n], unit);
      LastNumberIsNew(raw);
      InvalidGatewayRowsInOrder(raw[..n], unit);
      GatewayLists(raw[..n], unit);
      forall i, j | 0 <= i < j < |bad| ensures bad[i].row < bad[j].row {
        assert before[i] in before;
        if j < |before| { assert before[i].row < before[j].row; }
      }
    }
  }

  lemma {:induction false} InvalidMerchantRowsInOrder(raw: seq<Raw<MerchantCells>>, unit: AmountUnit)
    requires Numbered(raw)
    ensures forall i, j | 0 <= i < j < |InvalidMerchantRows(raw, unit)| ::
              InvalidMerchantRows(raw, unit)[i].row < InvalidMerchantRows(raw, unit)[j].row
  {
    hide MerchantUsable, MerchantReasons;
    if raw != [] {
      var n := |raw| - 1;
      var bad, before := InvalidMerchantRows(raw, unit), InvalidMerchantRows(raw[..n], unit);
      LastNumberIsNew(raw);
      InvalidMerchantRowsInOrder(raw[..n], unit);
      MerchantLists(raw[..n], unit);
      forall i, j | 0 <= i < j < |bad| ensures bad[i].row < bad[j].row {
        assert before[i] in before;
        if j < |before| { assert before[i].row < before[j].row; }
      }
    }
  }

  /** No two accepted rows of a file share a number. */
  lemma AcceptedNumbersDiffer(gateway: seq<Raw<GatewayCells>>, merchant: seq<Raw<MerchantCells>>, unit: AmountUnit)
    requires Numbered(gateway) && Numbered(merchant)
    ensures ReconcileLaws.DistinctRows(GatewayRows(gateway, unit), MerchantRows(merchant, unit))
  {
    GatewayRowsInOrder(gateway, unit);
    MerchantRowsInOrder(merchant, unit);
  }

  lemma LastNumberIsNew<C>(raw: seq<Raw<C>>)
    requires Numbered(raw) && raw != []
    ensures Numbered(raw[..|raw| - 1])
    ensures forall x | x in raw[..|raw| - 1] :: x.number < raw[|raw| - 1].number
  {
  }

  /** What the parser accepts, the engine can use: an order id, a currency, an amount that is
      not negative, and a status the engine knows unless the row is a reversal. */
  lemma AcceptedGatewayRowIsUsable(raw: Raw<GatewayCells>, unit: AmountUnit)
    requires GatewayUsable(raw.cells, unit)
    ensures var r := GatewayRowOf(raw, unit);
            && GatewayRowOk(r) && r.row == raw.number && r.amount >= 0 && |r.currency| == 3
            && (ReversalOf(r).None? ==> ViewCodec.ParsePaymentStatus(r.status).Some?)
  {
    hide ToPaise;
    var r := GatewayRowOf(raw, unit);
    LettersAreNotBlank(r.currency);
    if raw.cells.status.Known? {
      ViewCodec.StatusTextsParse(raw.cells.status.status, OrderPending);
    }
  }

  lemma LettersAreNotBlank(text: string)
    ensures text != "" && IsLetter(text[0]) ==> !Blank(text)
  {
  }

  lemma AcceptedMerchantRowIsUsable(raw: Raw<MerchantCells>, unit: AmountUnit)
    requires MerchantUsable(raw.cells, unit)
    ensures var r := MerchantRowOf(raw, unit);
            && MerchantRowOk(r) && r.row == raw.number && (r.amount.Some? ==> r.amount.value >= 0)
            && ViewCodec.ParseMerchantStatus(r.status).Some?
  {
    hide ToPaise;
    var r := MerchantRowOf(raw, unit);
    if r.currency.Some? { LettersAreNotBlank(r.currency.value); }
    ViewCodec.StatusTextsParse(PayCreated, raw.cells.status.status);
  }

  /** From cell to event: an accepted gateway row reaches the engine under its own order id,
      with the exact amount of its cell. With a refund or a dispute id it is that reversal,
      otherwise a payment with the status of its cell. */
  lemma AcceptedGatewayRowReachesEngine(raw: Raw<GatewayCells>, unit: AmountUnit, created: int, now: int)
    requires GatewayUsable(raw.cells, unit)
    ensures var event := Normalize.EnvelopeToEvent(GatewayEnvelope(GatewayRowOf(raw, unit), created), now);
            && event.Some? && LogFacts.EventOk(event.value)
            && Some(event.value.orderId) == TextCell(raw.cells.orderId)
            && event.value.amount == Some(ToPaise(raw.cells.amount.value, unit).paise)
            && event.value.currency == CodeOr(raw.cells.currency, Some("INR"))
            && GatewayCellsSay(raw, created, event.value)
  {
    AcceptedGatewayRowIsUsable(raw, unit);
    GatewayRowBecomesEvent(GatewayRowOf(raw, unit), created, now);
    GatewayEventSaysCells(raw, unit, created);
    hide Normalize.EnvelopeToEvent, GatewayEnvelope, GatewayEvent, ToPaise, LogFacts.EventOk, TextCell, CurrencyCode,
         GatewayCellsSay;
  }

  predicate TimeDates(cell: TimeCell, created: int, occurredAt: int) {
    Dated(if cell.At? then Some(cell.instant) else None, created, occurredAt)
  }

  /** `e` states the row's provider, time, and payment or reversal as the cells do. */
  predicate GatewayCellsSay(raw: Raw<GatewayCells>, created: int, e: Event)
    requires raw.cells.GatewayCells?
  {
    var c := raw.cells;
    var refund, dispute := TextCell(c.refundId), TextCell(c.disputeId);
    && e.eventId == GatewayId(raw.number) && e.source == Razorpay && e.merchantStatus.None?
    && TimeDates(c.eventTime, created, e.occurredAt)
    && (if refund.None? && dispute.None? then
          && c.status.Known? && e.paymentStatus == Some(c.status.status)
          && e.subEntityType.None? && e.subEntityId.None? && !e.IsReversal()
        else
          && e.paymentStatus.None?
          && e.subEntityType == Some(if refund.Some? then Refund else Dispute)
          && e.subEntityId == if refund.Some? then refund else dispute)
  }

  lemma GatewayEventSaysCells(raw: Raw<GatewayCells>, unit: AmountUnit, created: int)
    requires GatewayUsable(raw.cells, unit)
    ensures GatewayCellsSay(raw, created, GatewayEvent(GatewayRowOf(raw, unit), created))
  {
    var r, c := GatewayRowOf(raw, unit), raw.cells;
    GatewayEventSays(r, created);
    if !IsReversalRow(c) {
      ViewCodec.StatusTextsParse(c.status.status, OrderPending);
      PaymentRowIsNoReversal(r, created);
    }
    hide GatewayEvent, ToPaise, TextCell, CodeOr, Dated, GatewayId, Blank, ViewCodec.ParsePaymentStatus,
         ViewCodec.PaymentStatusText, UsableCurrency;
    assert TextCell(c.refundId) != Some("") && TextCell(c.disputeId) != Some("") by { EmptyIsBlank(); }
  }

  lemma EmptyIsBlank()
    ensures Blank("")
  {
  }

  lemma AcceptedMerchantRowReachesEngine(raw: Raw<MerchantCells>, unit: AmountUnit, created: int, now: int)
    requires MerchantUsable(raw.cells, unit)
    ensures var event := Normalize.EnvelopeToEvent(MerchantEnvelope(MerchantRowOf(raw, unit), created), now);
            && event.Some? && LogFacts.EventOk(event.value)
            && Some(event.value.orderId) == TextCell(raw.cells.orderId)
            && event.value.amount ==
                 (if raw.cells.amount.None? then None
                  else Some(ToPaise(raw.cells.amount.value, unit).paise))
            && event.value.currency == CodeOr(raw.cells.currency, None)
            && event.value.merchantStatus == Some(raw.cells.status.status)
            && event.value.eventId == MerchantId(raw.number) && event.value.source == Merchant
            && event.value.paymentStatus.None? && event.value.subEntityType.None? && !event.value.IsReversal()
            && TimeDates(raw.cells.eventTime, created, event.value.occurredAt)
  {
    AcceptedMerchantRowIsUsable(raw, unit);
    MerchantRowBecomesEvent(MerchantRowOf(raw, unit), created, now);
    MerchantEventSays(MerchantRowOf(raw, unit), created);
    ViewCodec.StatusTextsParse(PayCreated, raw.cells.status.status);
    hide Normalize.EnvelopeToEvent, MerchantEnvelope, ToPaise, LogFacts.EventOk, TextCell, CurrencyCode,
         ViewCodec.ParseMerchantStatus, ViewCodec.MerchantStatusText;
  }
}
