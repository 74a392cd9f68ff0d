/** The records the vendor screens exchange with the server: game rows,
    receipts and customers, as JavaScript objects whose fields may be
    missing. A missing field is `Undefined` (or `Absent`, `None`). */
module Records {
  import opened Js

  /** A `{ val1, val2, type }` pair cell (pan, gun, special). */
  datatype Pair = Pair(val1: JsVal, val2: JsVal, kind: JsVal)

  /** A stored pan/gun/special slot: an object, a bare string (older
      receipts kept pan as a string), or nothing (`undefined`, `null`). */
  datatype Slot = Obj(pair: Pair) | Text(text: string) | Absent

  predicate SlotTruthy(s: Slot) {
    match s
    case Obj(_) => true
    case Text(t) => t != ""
    case Absent => false
  }

  /** `slot?.val1` */
  function SlotVal1(s: Slot): JsVal {
    if s.Obj? then s.pair.val1 else Undefined
  }

  /** `slot?.val2` */
  function SlotVal2(s: Slot): JsVal {
    if s.Obj? then s.pair.val2 else Undefined
  }

  /** `slot?.type` */
  function SlotKind(s: Slot): JsVal {
    if s.Obj? then s.pair.kind else Undefined
  }

  /** `(Number(slot?.val1) || 0) * (Number(slot?.val2) || 0)`: the amount a
      pan, gun or special cell contributes. */
  function SlotProduct(s: Slot): real {
    NumberOr0(SlotVal1(s)) * NumberOr0(SlotVal2(s))
  }

  /** One game row. `multiplier` is None when the row has none
      (`undefined`); `jackpot`, `berij` and `frak` are the fields of older
      receipts that `special` replaced. */
  datatype Row = Row(
    id: JsVal,
    rowType: JsVal,
    income: JsVal,
    o: JsVal,
    jod: JsVal,
    ko: JsVal,
    pan: Slot,
    gun: Slot,
    special: Slot,
    multiplier: Option<real>,
    jackpot: Slot,
    berij: Slot,
    frak: Slot)

  /** `{ open, close, jod }` */
  datatype OpenClose = OpenClose(open: JsVal, close: JsVal, jod: JsVal)

  const BlankOpenClose := OpenClose(Str(""), Str(""), Str(""))

  /** A receipt as the server returns it. Dates are millisecond
      timestamps. */
  datatype Receipt = Receipt(
    id: string,
    customerId: string,
    customerName: JsVal,
    businessName: JsVal,
    customerCompany: JsVal,
    date: int,
    createdAt: int,
    updatedAt: Option<int>,
    openCloseValues: Option<OpenClose>,
    gameRows: Option<seq<Row>>,
    totalIncome: JsVal,
    payment: JsVal,
    deduction: JsVal,
    remainingBalance: JsVal,
    pendingAmount: JsVal,
    jama: JsVal,
    chuk: JsVal,
    isChukEnabled: JsVal,
    chukPercentage: JsVal,
    deductionRate: JsVal,
    advanceAmount: JsVal,
    cuttingAmount: JsVal,
    finalTotalAfterChuk: JsVal,
    finalTotal: JsVal)

  /** A customer as the server returns it. */
  datatype Customer = Customer(
    id: string,
    name: string,
    srNo: int,
    address: JsVal,
    company: JsVal,
    latestBalance: JsVal,
    advanceAmount: JsVal)

  /** The calendar the screens read dates through: the day and the month a
      timestamp falls in, and the weekday name `format("dddd")` gives under
      the locale the screen set (Marathi on the receipt form, so there the
      name it is handed is already Marathi). */
  datatype Calendar = Calendar(dayOf: int -> int, monthOf: int -> int, weekdayOf: int -> string)

  const DayMillis := 86400000
}
