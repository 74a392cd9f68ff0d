/** What the receipt form takes over from earlier receipts: the customer
    list numbered from 1 (`fetchCustomers`), the open/close/jod values of
    the newest receipt of the day (`fetchLatestOpenCloseValues`), and the
    pending and advance amounts of the selected customer's newest receipt
    (the effect that runs when the serial number changes). */
module CarryOver {
  import opened Js
  import opened Records
  import opened Ordering
  import opened RowTotals
  import opened ReceiptRows
  import opened ReceiptForm

  // ---------------------------------------------------------------------------
  // The customer list

  function SrNoKey(c: Customer): real { c.srNo as real }

  /** `fetchCustomers`: the list sorted by srNo, then renumbered 1, 2, 3, …
      in that order. */
  function Renumber(cs: seq<Customer>): (r: seq<Customer>)
    ensures |r| == |cs|
    ensures forall i :: 0 <= i < |r| ==> r[i].srNo == i + 1
    ensures forall i, j :: 0 <= i < j < |r| ==> SortBy(cs, SrNoKey)[i].srNo <= SortBy(cs, SrNoKey)[j].srNo
    ensures forall i :: 0 <= i < |r| ==> r[i] == SortBy(cs, SrNoKey)[i].(srNo := i + 1)
    ensures multiset(SortBy(cs, SrNoKey)) == multiset(cs)
  {
    var s := SortBy(cs, SrNoKey);
    seq(|s|, i requires 0 <= i < |s| => s[i].(srNo := i + 1))
  }

  /** `list.find((c) => c._id === id)` */
  function FindById(cs: seq<Customer>, id: string): (r: Option<Customer>)
    ensures r.None? <==> forall c :: c in cs ==> c.id != id
    ensures r.Some? ==> r.value in cs && r.value.id == id
  {
    if cs == [] then None
    else if cs[0].id == id then Some(cs[0])
    else
      assert cs == [cs[0]] + cs[1..];
      FindById(cs[1..], id)
  }

  /** `customerList.find((c) => c.srNo === n)`: the first customer with that
      serial number. */
  function FindBySrNo(cs: seq<Customer>, n: int): (r: Option<Customer>)
    ensures r.None? <==> forall c :: c in cs ==> c.srNo != n
    ensures forall i :: 0 <= i < |cs| && cs[i].srNo == n && (forall j :: 0 <= j < i ==> cs[j].srNo != n)
              ==> r == Some(cs[i])
  {
    if cs == [] then None
    else if cs[0].srNo == n then Some(cs[0])
    else
      var r := FindBySrNo(cs[1..], n);
      assert forall i :: 1 <= i < |cs| ==> cs[1..][i - 1] == cs[i];
      assert cs == [cs[0]] + cs[1..];
      r
  }

  /** In a renumbered list, serial number `i + 1` finds the customer at
      position `i`. */
  lemma FindRenumbered(cs: seq<Customer>, i: nat)
    requires i < |cs|
    ensures FindBySrNo(Renumber(cs), i + 1) == Some(Renumber(cs)[i])
  {
    var r := Renumber(cs);
    assert forall j :: 0 <= j < i ==> r[j].srNo != i + 1;
  }

  // ---------------------------------------------------------------------------
  // Which receipt is the newest

  /** The comparator of ReceiptForm.jsx lines 219-226 and 440-447 as written: later date
      first; on equal dates, `1` when `b._id > a._id`; the second test,
      `a._id < b._id`, is the first one again, so its `-1` is never
      returned. */
  function CompareAsWritten(a: Receipt, b: Receipt): (c: int)
    ensures a.date != b.date ==> c == b.date - a.date
    ensures a.date == b.date ==> c >= 0
  {
    var dateDiff := b.date - a.date;
    if dateDiff != 0 then dateDiff
    else if StringLess(a.id, b.id) then 1
    else if StringLess(a.id, b.id) then -1
    else 0
  }

  /** A consistent comparator needs `cmp(a, b) > 0` exactly when
      `cmp(b, a) < 0`. Two receipts of the same date with ids "1" and "2"
      break this: one order says "2 first", the other "equal", so the
      order `sort` produces for them is left to the engine. */
  lemma AsWrittenIsInconsistent(a: Receipt, b: Receipt)
    requires a.date == b.date && a.id == "1" && b.id == "2"
    ensures CompareAsWritten(a, b) > 0 && CompareAsWritten(b, a) == 0
  {
    assert StringLess("1", "2");
    assert !StringLess("2", "1");
  }

  /** The evidently intended comparator: later date first, and on equal
      dates the larger id (the later-created receipt) first. */
  function CompareNewest(a: Receipt, b: Receipt): (c: int)
    ensures a.date != b.date ==> c == b.date - a.date
    ensures a.date == b.date ==> (c < 0 <==> StringLess(b.id, a.id)) && (c > 0 <==> StringLess(a.id, b.id))
  {
    StringLessAsymmetric(a.id, b.id);
    var dateDiff := b.date - a.date;
    if dateDiff != 0 then dateDiff
    else if StringLess(a.id, b.id) then 1
    else if StringLess(b.id, a.id) then -1
    else 0
  }

  /** The corrected comparator is consistent, and it calls two receipts
      equal only when they have the same date and id. */
  lemma CompareNewestConsistent(a: Receipt, b: Receipt)
    ensures CompareNewest(a, b) > 0 <==> CompareNewest(b, a) < 0
    ensures CompareNewest(a, b) == 0 <==> a.date == b.date && a.id == b.id
  {
    StringLessAsymmetric(a.id, b.id);
    StringLessTotal(a.id, b.id);
    StringLessIrreflexive(a.id);
  }

  /** `a` sorts no later than `b` under the corrected comparator. */
  predicate AtLeastAsNew(a: Receipt, b: Receipt) {
    a.date > b.date || (a.date == b.date && !StringLess(a.id, b.id))
  }

  lemma AtLeastAsNewTransitive(a: Receipt, b: Receipt, c: Receipt)
    requires AtLeastAsNew(a, b) && AtLeastAsNew(b, c)
    ensures AtLeastAsNew(a, c)
  {
    if a.date == b.date && b.date == c.date {
      NotLessTransitive(a.id, b.id, c.id);
    }
  }

  /** `sorted[0]`: the receipt the corrected comparator puts first. No
      receipt of the list is newer, so in particular its date is the
      latest. */
  function Newest(rs: seq<Receipt>): (r: Receipt)
    requires rs != []
    ensures r in rs
    ensures forall x :: x in rs ==> AtLeastAsNew(r, x)
    ensures forall x :: x in rs ==> x.date <= r.date
  {
    StringLessIrreflexive(rs[0].id);
    if |rs| == 1 then rs[0]
    else
      var rest := Newest(rs[1..]);
      assert rs == [rs[0]] + rs[1..];
      if CompareNewest(rs[0], rest) <= 0 then
        assert forall x :: x in rs[1..] ==> AtLeastAsNew(rs[0], x) by {
          forall x | x in rs[1..] {
            AtLeastAsNewTransitive(rs[0], rest, x);
          }
        }
        rs[0]
      else
        StringLessAsymmetric(rs[0].id, rest.id);
        rest
  }

  /** The receipts, in order, whose date falls on day `day`. */
  function ReceiptsOnDay(rs: seq<Receipt>, day: int, cal: Calendar): (out: seq<Receipt>)
    ensures forall x :: x in out <==> x in rs && cal.dayOf(x.date) == day
    ensures |out| <= |rs|
  {
    if rs == [] then []
    else
      var rest := ReceiptsOnDay(rs[1..], day, cal);
      assert rs == [rs[0]] + rs[1..];
      if cal.dayOf(rs[0].date) == day then [rs[0]] + rest else rest
  }

  /** The receipts, in order, of one customer. */
  function ReceiptsOf(rs: seq<Receipt>, customerId: string): (out: seq<Receipt>)
    ensures forall x :: x in out <==> x in rs && x.customerId == customerId
    ensures |out| <= |rs|
  {
    if rs == [] then []
    else
      var rest := ReceiptsOf(rs[1..], customerId);
      assert rs == [rs[0]] + rs[1..];
      if rs[0].customerId == customerId then [rs[0]] + rest else rest
  }

  /** Filtering keeps the order: the customer's receipts, in their order in the list, since filtering a
      concatenation filters each part. */
  lemma {:induction false} ReceiptsOfAppend(a: seq<Receipt>, b: seq<Receipt>, customerId: string)
    ensures ReceiptsOf(a + b, customerId) == ReceiptsOf(a, customerId) + ReceiptsOf(b, customerId)
    decreases |a|
  {
    if a == [] {
      assert a + b == b;
    } else {
      assert (a + b)[0] == a[0] && (a + b)[1..] == a[1..] + b;
      ReceiptsOfAppend(a[1..], b, customerId);
    }
  }

  /** `new Date(b.date) - new Date(a.date)` sorts by this key. */
  function NegDate(r: Receipt): real { -(r.date as real) }

  /** All receipts, newest date first (the sort is stable). */
  function NewestFirst(rs: seq<Receipt>): seq<Receipt> { SortBy(rs, NegDate) }

  /** Filtering a list extended by one receipt. */
  lemma {:induction false} ReceiptsOfSnoc(a: seq<Receipt>, x: Receipt, customerId: string)
    ensures ReceiptsOf(a + [x], customerId)
            == ReceiptsOf(a, customerId) + (if x.customerId == customerId then [x] else [])
  {
    if a != [] {
      assert (a + [x])[0] == a[0];
      assert (a + [x])[1..] == a[1..] + [x];
      ReceiptsOfSnoc(a[1..], x, customerId);
    }
  }

  // ---------------------------------------------------------------------------
  // Open/close values of the day

  /** A stored `openCloseValues` with each missing field read as "". */
  function StoredOpenClose(v: Option<OpenClose>): OpenClose {
    match v
    case None => BlankOpenClose
    case Some(oc) => OpenClose(OrBlank(oc.open), OrBlank(oc.close), OrBlank(oc.jod))
  }

  /** A field that holds text of the user's or is "". */
  predicate FilledOrBlank(v: JsVal) { Truthy(v) || v == Str("") }

  /** `fetchLatestOpenCloseValues(allReceipts)` at time `now`: the values of
      the newest receipt dated today, whoever it belongs to, or all three
      blank when there is none. */
  function LatestOpenClose(rs: seq<Receipt>, now: int, cal: Calendar): (oc: OpenClose)
    ensures (forall x :: x in rs ==> cal.dayOf(x.date) != cal.dayOf(now)) ==> oc == BlankOpenClose
    ensures (exists x :: x in rs && cal.dayOf(x.date) == cal.dayOf(now)) ==>
      exists r :: r in rs && cal.dayOf(r.date) == cal.dayOf(now)
        && (forall x :: x in rs && cal.dayOf(x.date) == cal.dayOf(now) ==> x.date <= r.date)
        && oc == StoredOpenClose(r.openCloseValues)
    ensures FilledOrBlank(oc.open) && FilledOrBlank(oc.close) && FilledOrBlank(oc.jod)
  {
    var today := ReceiptsOnDay(rs, cal.dayOf(now), cal);
    if today == [] then BlankOpenClose
    else
      var r := Newest(today);
      assert r in rs && cal.dayOf(r.date) == cal.dayOf(now);
      StoredOpenClose(r.openCloseValues)
  }

  // ---------------------------------------------------------------------------
  // Choosing a customer by serial number

  /** `total !== undefined ? total.toString() : ""`; None when the total is
      `null`, whose `toString` throws. */
  function CarriedText(v: JsVal): (r: Option<JsVal>)
    ensures v.Undefined? ==> r == Some(Str(""))
    ensures v.Null? <==> r.None?
    ensures v.Num? || v.Str? ==> r == Some(v)
  {
    match v
    case Undefined => Some(Str(""))
    case Null => None
    case Bool(b) => Some(Str(if b then "true" else "false"))
    case Num(_) => Some(v)
    case Str(_) => Some(v)
  }

  /** The form once customer `c` is chosen with the given carried amounts. */
  function Seeded(f: FormData, c: Customer, pending: JsVal, advance: JsVal): FormData {
    f.(customerId := c.id, customerName := Str(c.name), pendingAmount := pending, advanceAmount := advance,
       cuttingAmount := Str(""), jama := Str(""), chuk := Str(""), chukPercentage := Str("10"),
       isChukEnabled := false)
  }

  /** The form once the serial number no longer names anybody. */
  function ClearedCustomer(f: FormData): FormData {
    f.(customerId := "", customerName := Str(""), pendingAmount := Str(""), advanceAmount := Str(""),
       cuttingAmount := Str(""), jama := Str(""), chuk := Str(""), chukPercentage := Str("10"),
       isChukEnabled := false)
  }

  /** What the serial-number effect does: leave form and rows alone, set
      them both, or throw before setting anything. */
  datatype SerialOutcome = Keep | Seed(form: FormData, rows: seq<Row>) | Throws

  /** The serial-number effect outside edit mode, for a serial that has
      changed. */
  function SelectSerial(f: FormData, serial: string, customers: seq<Customer>, receipts: seq<Receipt>)
    : (o: SerialOutcome)
    ensures var n := ParseInt(serial);
      !(n.Some? && n.value > 0 && customers != []) ==> o == Seed(ClearedCustomer(f), InitialGameRows())
    ensures var n := ParseInt(serial);
      (n.Some? && n.value > 0 && customers != [] && FindBySrNo(customers, n.value).None?) <==> o.Keep?
    ensures var n := ParseInt(serial);
      n.Some? && n.value > 0 && customers != [] && FindBySrNo(customers, n.value).Some? ==>
        o == SeedFor(f, FindBySrNo(customers, n.value).value, receipts)
  {
    var n := ParseInt(serial);
    if n.Some? && n.value > 0 && customers != [] then
      match FindBySrNo(customers, n.value)
      case None => Keep
      case Some(c) => SeedFor(f, c, receipts)
    else Seed(ClearedCustomer(f), InitialGameRows())
  }

  /** The form seeded for a chosen customer: blank carried-over amounts
      when they have no receipt, the amounts of their newest receipt
      otherwise, and a throw when one of those is `null`. */
  function SeedFor(f: FormData, c: Customer, receipts: seq<Receipt>): (o: SerialOutcome)
    ensures !o.Keep?
    ensures (forall x :: x in receipts ==> x.customerId != c.id) ==> o == Seed(Seeded(f, c, Str(""), Str("")), InitialGameRows())
    ensures (exists x :: x in receipts && x.customerId == c.id) ==>
      exists r :: r in receipts && r.customerId == c.id
        && (forall x :: x in receipts && x.customerId == c.id ==> x.date <= r.date)
        && (r.finalTotalAfterChuk.Null? || r.finalTotal.Null? <==> o.Throws?)
        && (o.Seed? ==> o == Seed(Seeded(f, c, CarriedText(r.finalTotalAfterChuk).value,
                                          CarriedText(r.finalTotal).value), InitialGameRows()))
  {
    var own := ReceiptsOf(receipts, c.id);
    if own == [] then Seed(Seeded(f, c, Str(""), Str("")), InitialGameRows())
    else
      var latest := Newest(own);
      assert latest in receipts && latest.customerId == c.id;
      match (CarriedText(latest.finalTotalAfterChuk), CarriedText(latest.finalTotal))
      case (Some(pending), Some(advance)) => Seed(Seeded(f, c, pending, advance), InitialGameRows())
      case _ => Throws
  }

  /** Picking the customer at position `i` of the renumbered list (which
      writes `srNo.toString()` into the serial box) chooses that customer. */
  lemma SelectingCustomerChoosesThem(f: FormData, cs: seq<Customer>, i: nat, receipts: seq<Receipt>)
    requires i < |cs|
    ensures var o := SelectSerial(f, NatToString(i + 1), Renumber(cs), receipts);
      o.Throws? || (o.Seed? && o.form.customerId == Renumber(cs)[i].id && o.form.customerName == Str(Renumber(cs)[i].name))
  {
    ParseIntOfNumeral(i + 1, "");
    assert NatToString(i + 1) + "" == NatToString(i + 1);
    FindRenumbered(cs, i);
    var r := Renumber(cs);
    var c := r[i];
    assert FindBySrNo(r, i + 1) == Some(c);
    var o := SelectSerial(f, NatToString(i + 1), r, receipts);
    var own := ReceiptsOf(receipts, c.id);
    if own != [] {
      var latest := Newest(own);
      assert o.Throws? || o == Seed(Seeded(f, c, CarriedText(latest.finalTotalAfterChuk).value,
                                           CarriedText(latest.finalTotal).value), InitialGameRows());
    }
  }

  /** Saving a receipt and then choosing its customer again (with that
      receipt their newest) starts the next receipt where the saved one
      ended: before anything is entered, the new receipt's total due and
      balance are the saved balance, and its final total is the saved
      final total. */
  lemma BalanceCarriesForward(f: FormData, rows: seq<Row>, oc: OpenClose, newId: string, stamp: int,
                              next: FormData, c: Customer)
    requires SaveRecord(f, rows, oc, newId, stamp).Send?
    ensures var saved := SaveRecord(f, rows, oc, newId, stamp).record;
      var before := Calculate(rows, f);
      CarriedText(saved.finalTotalAfterChuk) == Some(Num(before.finalTotalAfterChuk))
      && CarriedText(saved.finalTotal) == Some(Num(before.finalTotal))
      && var after := Calculate(InitialGameRows(), Seeded(next, c, Num(before.finalTotalAfterChuk), Num(before.finalTotal)));
      after.totalDue == before.finalTotalAfterChuk
      && after.finalTotalAfterChuk == before.finalTotalAfterChuk
      && after.finalTotal == before.finalTotal
  {
    var before := Calculate(rows, f);
    SeededSettlement(next, c, before.finalTotalAfterChuk, before.finalTotal);
  }

  /** Choosing the customer of a saved receipt again, with that receipt in
      the list and newer than their other receipts, seeds the next form
      with the saved balance and final total, and that form starts with
      total due and final balance equal to the saved balance. */
  lemma ReselectingCarriesBalance(f: FormData, rows: seq<Row>, oc: OpenClose, newId: string, stamp: int,
                                  next: FormData, c: Customer, receipts: seq<Receipt>)
    requires SaveRecord(f, rows, oc, newId, stamp).Send?
    requires f.customerId == c.id
    requires SaveRecord(f, rows, oc, newId, stamp).record in receipts
    requires forall x :: x in receipts && x.customerId == c.id && x != SaveRecord(f, rows, oc, newId, stamp).record
               ==> x.date < f.actualDate
    ensures var before := Calculate(rows, f);
      SeedFor(next, c, receipts)
        == Seed(Seeded(next, c, Num(before.finalTotalAfterChuk), Num(before.finalTotal)), InitialGameRows())
    ensures var before := Calculate(rows, f);
      var after := Calculate(InitialGameRows(), Seeded(next, c, Num(before.finalTotalAfterChuk), Num(before.finalTotal)));
      after.totalDue == before.finalTotalAfterChuk
      && after.finalTotalAfterChuk == before.finalTotalAfterChuk
      && after.finalTotal == before.finalTotal
  {
    var saved := SaveRecord(f, rows, oc, newId, stamp).record;
    var before := Calculate(rows, f);
    assert saved.customerId == c.id && saved.date == f.actualDate;
    assert saved.finalTotalAfterChuk == Num(before.finalTotalAfterChuk) && saved.finalTotal == Num(before.finalTotal);
    SeedForNewest(next, c, receipts, saved, before.finalTotalAfterChuk, before.finalTotal);
    BalanceCarriesForward(f, rows, oc, newId, stamp, next, c);
  }

  /** A customer whose newest receipt holds the numbers `pending` and
      `advance` is seeded with them. */
  lemma SeedForNewest(next: FormData, c: Customer, receipts: seq<Receipt>, newest: Receipt, pending: real, advance: real)
    requires newest in receipts && newest.customerId == c.id
    requires forall x :: x in receipts && x.customerId == c.id && x != newest ==> x.date < newest.date
    requires newest.finalTotalAfterChuk == Num(pending) && newest.finalTotal == Num(advance)
    ensures SeedFor(next, c, receipts) == Seed(Seeded(next, c, Num(pending), Num(advance)), InitialGameRows())
  {
    var o := SeedFor(next, c, receipts);
    var r :| r in receipts && r.customerId == c.id
        && (forall x :: x in receipts && x.customerId == c.id ==> x.date <= r.date)
        && (r.finalTotalAfterChuk.Null? || r.finalTotal.Null? <==> o.Throws?)
        && (o.Seed? ==> o == Seed(Seeded(next, c, CarriedText(r.finalTotalAfterChuk).value,
                                          CarriedText(r.finalTotal).value), InitialGameRows()));
    assert newest.date <= r.date;
    assert r == newest;
  }

  /** The figures of a freshly seeded form: the carried amounts, and 0 for
      jama, chuk and cutting. */
  function SeededFigures(next: FormData, c: Customer, pending: real, advance: real): (n: Figures)
    ensures n == ReadFigures(Seeded(next, c, Num(pending), Num(advance)))
    ensures n.pendingAmount == pending && n.advanceAmount == advance
    ensures n.jama == 0.0 && n.chuk == 0.0 && n.cuttingAmount == 0.0 && !n.chukEnabled
  {
    assert NumberOr0(Str("")) == 0.0;
    Figures(NumberOr0(next.deductionRate), pending, 0.0, false, NumberOr0(Str("10")), 0.0, advance, 0.0)
  }

  /** Nothing entered: no rows' worth, no jama, no chuk, no cutting. */
  lemma SettleOfNothing(n: Figures)
    requires n.jama == 0.0 && n.chuk == 0.0 && n.cuttingAmount == 0.0 && !n.chukEnabled
    ensures var s := Settle(NoColumns, 0.0, n);
      s.payment == 0.0 && s.remainingBalance == 0.0 && s.totalDue == n.pendingAmount
      && s.finalTotalAfterChuk == n.pendingAmount && s.finalTotal == n.advanceAmount
  {
    assert 0.0 * (n.deductionRate / 100.0) == 0.0;
  }

  /** A freshly seeded form with the two default rows settles to the
      carried amounts. */
  lemma SeededSettlement(next: FormData, c: Customer, pending: real, advance: real)
    ensures var after := Calculate(InitialGameRows(), Seeded(next, c, Num(pending), Num(advance)));
      after.payment == 0.0 && after.remainingBalance == 0.0
      && after.totalDue == pending && after.finalTotalAfterChuk == pending && after.finalTotal == advance
  {
    var g := Seeded(next, c, Num(pending), Num(advance));
    var n := SeededFigures(next, c, pending, advance);
    InitialRowsSettleToZero();
    assert Calculate(InitialGameRows(), g) == Settle(NoColumns, 0.0, n);
    SettleOfNothing(n);
  }
}
