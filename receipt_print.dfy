/** The arithmetic and labels of a printed receipt: the special column's
    header, the total under an o, jod or ko cell, the pan and special
    labels, and the closing balance line. */
module ReceiptPrint {
  import opened Js
  import opened Records
  import opened Expression
  import opened RowTotals
  import opened ReceiptRows

  /** The special column's header, from the first row's special type. */
  function SpecialHeader(rows: Option<seq<Row>>): (h: string)
    ensures var t := if rows.Some? && |rows.value| > 0 then SlotKind(rows.value[0].special) else Undefined;
      (t == Str("berij") ==> h == "बेरीज") && (t == Str("frak") ==> h == "फरक")
      && (t != Str("berij") && t != Str("frak") ==> h == "जॅकपॉट")
  {
    var t := if rows.Some? && |rows.value| > 0 then SlotKind(rows.value[0].special) else Undefined;
    var first := OrDefault(t, "jackpot");
    if first == Str("berij") then "बेरीज" else if first == Str("frak") then "फरक" else "जॅकपॉट"
  }

  datatype Column = OCol | JodCol | KoCol

  function CellText(r: Row, c: Column): JsVal {
    match c
    case OCol => r.o
    case JodCol => r.jod
    case KoCol => r.ko
  }

  /** The total printed under an o, jod or ko cell whose value `read`
      gives (the print view reads cells with `EvaluateExpression`), shown
      only when the row has a multiplier: the value times the multiplier,
      times ten times it for jod. */
  function CellTotal(r: Row, c: Column, read: JsVal -> real): (t: Option<real>)
    ensures t.None? <==> r.multiplier.None?
  {
    match r.multiplier
    case None => None
    case Some(m) => Some(read(CellText(r, c)) * (if c.JodCol? then m * 10.0 else m))
  }

  /** The printed cell totals are the row's contributions to the o, jod and
      ko column totals, read the same way. */
  lemma CellTotalsAreContributions(r: Row, read: JsVal -> real)
    requires r.multiplier.Some?
    ensures CellTotal(r, OCol, read).Some? && CellTotal(r, JodCol, read).Some? && CellTotal(r, KoCol, read).Some?
    ensures var cols := RowColumns(r, read);
      CellTotal(r, OCol, read).value == cols.o && CellTotal(r, JodCol, read).value == cols.jod
      && CellTotal(r, KoCol, read).value == cols.ko
  {
    var m := r.multiplier.value;
    assert read(r.jod) * m * 10.0 == read(r.jod) * (m * 10.0);
  }

  /** The pan cell's label: its type upper-cased, "SP" when it has none. */
  function PanLabel(s: Slot): (l: string)
    ensures !Truthy(SlotKind(s)) ==> l == "(SP)"
    ensures SlotKind(s).Str? && SlotKind(s).s != "" ==> l == "(" + ToUpper(SlotKind(s).s) + ")"
  {
    var t := SlotKind(s);
    "(" + ToUpper(if t.Str? && t.s != "" then t.s else "sp") + ")"
  }

  /** The special cell's label: बे for berij, फ for frak, जॅ otherwise. */
  function SpecialLabel(s: Slot): (l: string)
    ensures SlotKind(s) == Str("berij") ==> l == "(बे)"
    ensures SlotKind(s) == Str("frak") ==> l == "(फ)"
    ensures SlotKind(s) != Str("berij") && SlotKind(s) != Str("frak") ==> l == "(जॅ)"
  {
    if SlotKind(s) == Str("berij") then "(बे)" else if SlotKind(s) == Str("frak") then "(फ)" else "(जॅ)"
  }

  /** The amount after chuk as printed: (देणे) and the magnitude when it is
      negative, (येणे) and the amount otherwise. */
  function BalanceLine(v: JsVal): (r: (string, real))
    ensures r.1 >= 0.0
    ensures r.0 == "(देणे)" <==> NumberOr0(v) < 0.0
    ensures r.0 == "(देणे)" || r.0 == "(येणे)"
    ensures (if r.0 == "(देणे)" then -r.1 else r.1) == NumberOr0(v)
  {
    var x := NumberOr0(v);
    if x < 0.0 then ("(देणे)", -x) else ("(येणे)", x)
  }
}
