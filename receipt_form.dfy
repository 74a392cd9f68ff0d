/** The receipt form's data: the form fields, the initial form, the
    settlement arithmetic (`calculationResults`) and the record sent when
    a receipt is saved. */
module ReceiptForm {
  import opened Js
  import opened Records
  import opened Expression
  import opened ReceiptRows
  import opened RowTotals

  /** The form fields. Amount fields hold what the user typed (or the text
      of a carried-over number, written `Num(x)`: the text of a finite
      number reads back as that number). `actualDate` is the receipt's timestamp (the display text `date` is
      left out). */
  datatype FormData = FormData(
    id: Option<string>,
    businessName: JsVal,
    customerId: string,
    customerName: JsVal,
    customerCompany: JsVal,
    day: string,
    actualDate: int,
    payment: JsVal,
    pendingAmount: JsVal,
    advanceAmount: JsVal,
    cuttingAmount: JsVal,
    jama: JsVal,
    chuk: JsVal,
    isChukEnabled: bool,
    chukPercentage: JsVal,
    deductionRate: JsVal)

  const DefaultBusinessName := "Bappa Gaming"

  /** `getMarathiDay`: the seven English weekday names become their
      Marathi names; any other text is returned unchanged. */
  function MarathiDay(english: string): (r: string)
    ensures english !in {"Sunday", "Monday", "Tuesday", "Wednesday", "Thursday", "Friday", "Saturday"} ==> r == english
    ensures english in {"Sunday", "Monday", "Tuesday", "Wednesday", "Thursday", "Friday", "Saturday"} ==> r != english
    ensures english == "Sunday" ==> r == "रविवार"
    ensures english == "Monday" ==> r == "सोमवार"
    ensures english == "Tuesday" ==> r == "मंगळवार"
    ensures english == "Wednesday" ==> r == "बुधवार"
    ensures english == "Thursday" ==> r == "गुरुवार"
    ensures english == "Friday" ==> r == "शुक्रवार"
    ensures english == "Saturday" ==> r == "शनिवार"
  {
    if english == "Sunday" then "रविवार"
    else if english == "Monday" then "सोमवार"
    else if english == "Tuesday" then "मंगळवार"
    else if english == "Wednesday" then "बुधवार"
    else if english == "Thursday" then "गुरुवार"
    else if english == "Friday" then "शुक्रवार"
    else if english == "Saturday" then "शनिवार"
    else english
  }

  /** `getInitialFormData(businessName, customerCompany = "")` at time `now`;
      a missing company falls back to the parameter default "". */
  function InitialFormData(businessName: JsVal, customerCompany: JsVal, now: int, cal: Calendar): (f: FormData)
    ensures f.id == None && f.customerId == "" && f.customerName == Str("")
    ensures f.businessName == (if Truthy(businessName) then businessName else Str(DefaultBusinessName))
    ensures f.customerCompany == (if customerCompany.Undefined? then Str("") else customerCompany)
    ensures f.actualDate == now && !f.isChukEnabled
    ensures f.day == MarathiDay(cal.weekdayOf(now))
    ensures f.payment == Str("") && f.pendingAmount == Str("") && f.advanceAmount == Str("")
    ensures f.cuttingAmount == Str("") && f.jama == Str("") && f.chuk == Str("")
    ensures f.chukPercentage == Str("10") && f.deductionRate == Str("10")
  {
    FormData(None, OrDefault(businessName, DefaultBusinessName), "", Str(""),
             if customerCompany.Undefined? then Str("") else customerCompany,
             MarathiDay(cal.weekdayOf(now)), now,
             Str(""), Str(""), Str(""), Str(""), Str(""), Str(""), false, Str("10"), Str("10"))
  }

  /** The form `loadReceiptForEdit` fills from a stored receipt and the
      customer it belongs to (when that customer is still listed). */
  function FormFromReceipt(r: Receipt, customer: Option<Customer>, cal: Calendar): (f: FormData)
    ensures f.id == Some(r.id) && f.customerId == r.customerId && f.actualDate == r.date
    ensures f.customerName == (if customer.Some? && customer.value.name != "" then Str(customer.value.name) else r.customerName)
    ensures f.isChukEnabled == Truthy(r.isChukEnabled)
    ensures r.pendingAmount.Num? ==> f.pendingAmount == r.pendingAmount
    ensures !Truthy(r.pendingAmount) && !r.pendingAmount.Num? && !r.pendingAmount.Bool? ==> f.pendingAmount == Str("")
    ensures !Truthy(r.deductionRate) && !r.deductionRate.Num? && !r.deductionRate.Bool? ==> f.deductionRate == Str("10")
    ensures !Truthy(r.chukPercentage) && !r.chukPercentage.Num? && !r.chukPercentage.Bool? ==> f.chukPercentage == Str("10")
  {
    FormData(
      Some(r.id), OrDefault(r.businessName, DefaultBusinessName), r.customerId,
      if customer.Some? && customer.value.name != "" then Str(customer.value.name) else r.customerName,
      OrDefault(r.customerCompany, ""), MarathiDay(cal.weekdayOf(r.date)), r.date,
      OrDefault(r.payment, ""), TextOr(r.pendingAmount, ""), TextOr(r.advanceAmount, ""),
      TextOr(r.cuttingAmount, ""), TextOr(r.jama, ""), TextOr(r.chuk, ""), Truthy(r.isChukEnabled),
      TextOr(r.chukPercentage, "10"), TextOr(r.deductionRate, "10"))
  }

  // ---------------------------------------------------------------------------
  // calculationResults

  /** Every figure `calculationResults` returns. */
  datatype Settlement = Settlement(
    columns: Columns,
    totalIncome: real,
    payment: real,
    deduction: real,
    afterDeduction: real,
    remainingBalance: real,
    totalDue: real,
    jamaTotal: real,
    chuk: real,
    finalTotalAfterChuk: real,
    finalTotal: real)

  /** The form fields the settlement reads, each through `Number(x) || 0`. */
  datatype Figures = Figures(
    deductionRate: real,
    pendingAmount: real,
    jama: real,
    chukEnabled: bool,
    chukPercentage: real,
    chuk: real,
    advanceAmount: real,
    cuttingAmount: real)

  function ReadFigures(f: FormData): Figures {
    Figures(NumberOr0(f.deductionRate), NumberOr0(f.pendingAmount), NumberOr0(f.jama), f.isChukEnabled,
            NumberOr0(f.chukPercentage), NumberOr0(f.chuk), NumberOr0(f.advanceAmount), NumberOr0(f.cuttingAmount))
  }

  /** The settlement chain of the receipt form as a function of the row
      totals and the form figures. */
  function Settle(cols: Columns, income: real, n: Figures): Settlement {
    var payment := ColumnsSum(cols);
    var deduction := income * (n.deductionRate / 100.0);
    var afterDeduction := income - deduction;
    var remaining := afterDeduction - payment;
    var totalDue := remaining + n.pendingAmount;
    var jamaTotal := totalDue - n.jama;
    var chuk := if n.chukEnabled then jamaTotal * (n.chukPercentage / 100.0) else n.chuk;
    Settlement(cols, income, payment, deduction, afterDeduction, remaining, totalDue, jamaTotal, chuk,
               jamaTotal - chuk, n.advanceAmount - n.cuttingAmount)
  }

  /** `calculationResults` as a function of the rows and the form: the
      o, jod and ko cells are read with `evaluateExpression`. */
  function Calculate(rows: seq<Row>, f: FormData): Settlement {
    Settle(ColumnTotals(rows, EvaluateExpression), TotalIncome(rows), ReadFigures(f))
  }

  /** The settlement chain of `calculationResults`, step by step, from the
      row totals and the form figures. */
  method SettleFigures(cols: Columns, totalIncome: real, n: Figures) returns (s: Settlement)
    ensures s.columns == cols && s.totalIncome == totalIncome
    ensures s.payment == cols.o + cols.jod + cols.ko + cols.pan + cols.gun + cols.special
    ensures s.deduction == totalIncome * (n.deductionRate / 100.0)
    ensures s.afterDeduction == totalIncome - s.deduction
    ensures s.remainingBalance == s.afterDeduction - s.payment
    ensures s.totalDue == s.remainingBalance + n.pendingAmount
    ensures s.jamaTotal == s.totalDue - n.jama
    ensures s.chuk == (if n.chukEnabled then s.jamaTotal * (n.chukPercentage / 100.0) else n.chuk)
    ensures s.finalTotalAfterChuk == s.jamaTotal - s.chuk
    ensures s.finalTotal == n.advanceAmount - n.cuttingAmount
    ensures s == Settle(cols, totalIncome, n)
  {
    var payment := cols.o + cols.jod + cols.ko + cols.pan + cols.gun + cols.special;
    var deduction := totalIncome * (n.deductionRate / 100.0);
    var afterDeduction := totalIncome - deduction;
    var remainingBalance := afterDeduction - payment;
    var totalDue := remainingBalance + n.pendingAmount;
    var jamaTotal := totalDue - n.jama;
    var chuk: real;
    if n.chukEnabled {
      chuk := jamaTotal * (n.chukPercentage / 100.0);
    } else {
      chuk := n.chuk;
    }
    s := Settlement(cols, totalIncome, payment, deduction, afterDeduction, remainingBalance, totalDue,
                    jamaTotal, chuk, jamaTotal - chuk, n.advanceAmount - n.cuttingAmount);
  }

  /** `calculationResults`: the row totals (cells evaluated as
      expressions), then the settlement chain over the form figures. */
  method CalculationResults(rows: seq<Row>, f: FormData) returns (s: Settlement)
    ensures s == Calculate(rows, f)
  {
    var cols := SumColumns(rows, EvaluateExpression);
    var totalIncome := SumIncome(rows);
    s := SettleFigures(cols, totalIncome, ReadFigures(f));
  }

  // ---------------------------------------------------------------------------
  // Lemmas about the settlement

  /** With no rows, income, payment and the balance are all 0. */
  lemma EmptyRowsSettleToZero(n: Figures)
    ensures Settle(ColumnTotals([], EvaluateExpression), TotalIncome([]), n).payment == 0.0
    ensures Settle(ColumnTotals([], EvaluateExpression), TotalIncome([]), n).remainingBalance == 0.0
  {
  }

  /** A row with every cell blank adds nothing to the receipt form's totals. */
  lemma BlankRowSettlesToZero(r: Row)
    requires IsBlankRow(r)
    ensures ColumnTotals([r], EvaluateExpression) == NoColumns && TotalIncome([r]) == 0.0
  {
    assert IsBlank("");
    assert EvaluateExpression(Str("")) == 0.0;
    BlankRowAddsNothing(r, EvaluateExpression);
  }

  /** Appending a blank row (what `addRow` does) leaves every figure unchanged. */
  lemma AddRowKeepsSettlement(rows: seq<Row>, f: FormData, now: int, t: JsVal)
    ensures Calculate(AddRow(rows, now, t), f) == Calculate(rows, f)
  {
    if |rows| < MaxRows {
      var n := NewRow(now, t);
      BlankRowSettlesToZero(n);
      ColumnTotalsAppend(rows, [n], EvaluateExpression);
      TotalIncomeAppend(rows, [n]);
    }
  }

  /** `removeRow` of a row past the first two takes exactly that row's
      contribution off the totals. */
  lemma RemoveRowSubtractsItsContribution(rows: seq<Row>, index: int)
    requires 1 < index < |rows|
    ensures AddColumns(ColumnTotals(RemoveRow(rows, index), EvaluateExpression), RowColumns(rows[index], EvaluateExpression))
            == ColumnTotals(rows, EvaluateExpression)
    ensures TotalIncome(RemoveRow(rows, index)) + NumberOr0(rows[index].income) == TotalIncome(rows)
  {
    assert RemoveRow(rows, index) == rows[..index] + rows[index + 1..];
    RemovingRowSubtracts(rows, index, EvaluateExpression);
    RemovingRowSubtractsIncome(rows, index);
  }

  /** The two default rows contribute nothing. */
  lemma InitialRowsSettleToZero()
    ensures ColumnTotals(InitialGameRows(), EvaluateExpression) == NoColumns
    ensures TotalIncome(InitialGameRows()) == 0.0
  {
    var rows := InitialGameRows();
    assert IsBlankRow(rows[0]) && IsBlankRow(rows[1]);
    PairOf(rows);
    BlankRowSettlesToZero(rows[0]);
    BlankRowSettlesToZero(rows[1]);
    TwoRowTotals(rows[0], rows[1], EvaluateExpression);
  }

  /** The chain in closed form: income less the deduction, less payment,
      plus the pending amount, less jama, less chuk. */
  lemma SettlementClosedForm(cols: Columns, income: real, n: Figures)
    ensures var s := Settle(cols, income, n);
      s.finalTotalAfterChuk
        == income * (1.0 - n.deductionRate / 100.0) - ColumnsSum(cols) + n.pendingAmount - n.jama - s.chuk
  {
    var s := Settle(cols, income, n);
    assert s.afterDeduction == income * (1.0 - n.deductionRate / 100.0);
  }

  /** With the LD box ticked, chuk is `p` percent of the balance, so the
      final balance is the jama total scaled by (1 - p/100). */
  lemma ChukEnabledScalesBalance(cols: Columns, income: real, n: Figures)
    requires n.chukEnabled
    ensures var s := Settle(cols, income, n);
      s.finalTotalAfterChuk == s.jamaTotal * (1.0 - n.chukPercentage / 100.0)
  {
  }

  /** Without the LD box, an entered negative chuk raises the final balance. */
  lemma NegativeChukRaisesBalance(cols: Columns, income: real, n: Figures)
    requires !n.chukEnabled && n.chuk < 0.0
    ensures var s := Settle(cols, income, n); s.finalTotalAfterChuk > s.jamaTotal
  {
  }

  /** `finalTotal` is advance - cutting whatever the rows, income, jama or
      chuk are. */
  lemma FinalTotalIgnoresRows(c1: Columns, i1: real, n1: Figures, c2: Columns, i2: real, n2: Figures)
    requires n1.advanceAmount == n2.advanceAmount && n1.cuttingAmount == n2.cuttingAmount
    ensures Settle(c1, i1, n1).finalTotal == Settle(c2, i2, n2).finalTotal
  {
  }

  /** The deduction rate is not clamped: a rate of 150 makes the deduction
      larger than the income. */
  lemma DeductionRateNotClamped(cols: Columns, n: Figures)
    requires n.deductionRate == 150.0
    ensures Settle(cols, 100.0, n).afterDeduction == -50.0
  {
  }

  // ---------------------------------------------------------------------------
  // handleSave

  datatype SaveOutcome = NoCustomer | Send(record: Receipt, update: bool)

  /** The receipt `handleSave` sends: nothing without a selected customer
      ("Please select a customer."); otherwise the form fields overlaid with
      the computed figures (the computed payment and chuk replace the typed
      ones), the open/close values and the rows, dated at the form's date.
      A form with an id updates that receipt (PUT); otherwise a new one is
      created (POST). `newId` and `stamp` stand for what the server assigns. */
  function SaveRecord(f: FormData, rows: seq<Row>, oc: OpenClose, newId: string, stamp: int): (o: SaveOutcome)
    ensures f.customerId == "" <==> o.NoCustomer?
    ensures o.Send? ==> (o.update <==> f.id.Some?) && (f.id.Some? ==> o.record.id == f.id.value)
    ensures o.Send? ==> var s := Calculate(rows, f);
      o.record.customerId == f.customerId && o.record.date == f.actualDate && o.record.gameRows == Some(rows)
      && o.record.openCloseValues == Some(oc) && o.record.payment == Num(s.payment) && o.record.chuk == Num(s.chuk)
      && o.record.finalTotalAfterChuk == Num(s.finalTotalAfterChuk) && o.record.finalTotal == Num(s.finalTotal)
      && o.record.remainingBalance == Num(s.remainingBalance) && o.record.pendingAmount == f.pendingAmount
  {
    if f.customerId == "" then NoCustomer
    else
      var s := Calculate(rows, f);
      var id := if f.id.Some? then f.id.value else newId;
      Send(Receipt(
        id, f.customerId, f.customerName, f.businessName, f.customerCompany, f.actualDate, stamp, Some(stamp),
        Some(oc), Some(rows),
        Num(s.totalIncome), Num(s.payment), Num(s.deduction), Num(s.remainingBalance),
        f.pendingAmount, f.jama, Num(s.chuk), Bool(f.isChukEnabled), f.chukPercentage, f.deductionRate,
        f.advanceAmount, f.cuttingAmount, Num(s.finalTotalAfterChuk), Num(s.finalTotal)), f.id.Some?)
  }
}
