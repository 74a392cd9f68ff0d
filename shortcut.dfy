/** The quick-entry ("shortcut") tab: one entry per customer for a chosen
    date, pre-filled from that date's receipts, its own settlement chain
    (`calculateCustomerTotals`, different from the receipt form's), the
    updaters of the entries, and the batch and single-customer saves. */
module ShortcutTab {
  import opened Js
  import opened Records
  import opened Ordering
  import opened RowTotals
  import opened ReceiptRows
  import opened ReceiptForm
  import opened CarryOver

  /** One customer's quick-entry data. A field the object lacks is
      `Undefined`; missing rows are None. */
  datatype Entry = Entry(
    open: JsVal,
    close: JsVal,
    jod: JsVal,
    company: JsVal,
    gameRows: Option<seq<Row>>,
    jama: JsVal,
    chuk: JsVal,
    advanceAmount: JsVal,
    cuttingAmount: JsVal)

  /** `{}` */
  const EmptyEntry := Entry(Undefined, Undefined, Undefined, Undefined, None, Undefined, Undefined, Undefined, Undefined)

  /** `shortcutData`: the entries by customer id. */
  type ShortcutData = map<string, Entry>

  /** `prev[customerId] || {}` */
  function EntryOf(data: ShortcutData, id: string): Entry {
    if id in data then data[id] else EmptyEntry
  }

  /** `customerData.gameRows || []` */
  function RowsOf(e: Entry): seq<Row> {
    if e.gameRows.Some? then e.gameRows.value else []
  }

  /** `v || 0` */
  function OrZero(v: JsVal): (r: JsVal)
    ensures Truthy(v) ==> r == v
    ensures !Truthy(v) ==> r == Num(0.0)
  {
    if Truthy(v) then v else Num(0.0)
  }

  // ---------------------------------------------------------------------------
  // Rows

  /** A row with blank cells, `{ val1: '', val2: '' }` slots and the given
      type and multiplier. */
  function QuickRow(rowType: JsVal, m: Option<real>): Row {
    Row(Undefined, rowType, Str(""), Str(""), Str(""), Str(""),
        Obj(BlankPair(Undefined)), Obj(BlankPair(Undefined)), Obj(BlankPair(Undefined)),
        m, Absent, Absent, Absent)
  }

  /** The two rows a customer without data starts with. */
  function DefaultRows(): (rows: seq<Row>)
    ensures |rows| == 2
    ensures rows[0].rowType == Str("आ.") && rows[0].multiplier == Some(8.0)
    ensures rows[1].rowType == Str("कु.") && rows[1].multiplier == Some(9.0)
    ensures forall i :: 0 <= i < 2 ==> IsBlankRow(rows[i])
  {
    [QuickRow(Str("आ."), Some(8.0)), QuickRow(Str("कु."), Some(9.0))]
  }

  /** The default rows add nothing to any column or to the income. */
  lemma DefaultRowsAddNothing()
    ensures ColumnTotals(DefaultRows(), ParseFloatOr0) == NoColumns
    ensures TotalIncome(DefaultRows()) == 0.0
  {
    var rows := DefaultRows();
    PairOf(rows);
    BlankPairAddsNothing(rows[0], rows[1]);
  }

  /** Two blank rows add nothing to the tab's totals. */
  lemma BlankPairAddsNothing(a: Row, b: Row)
    requires IsBlankRow(a) && IsBlankRow(b)
    ensures ColumnTotals([a, b], ParseFloatOr0) == NoColumns && TotalIncome([a, b]) == 0.0
  {
    BlankQuickRowAddsNothing(a);
    BlankQuickRowAddsNothing(b);
    TwoRowTotals(a, b, ParseFloatOr0);
  }

  /** A row with every cell blank adds nothing to the tab's totals. */
  lemma BlankQuickRowAddsNothing(r: Row)
    requires IsBlankRow(r)
    ensures ColumnTotals([r], ParseFloatOr0) == NoColumns && TotalIncome([r]) == 0.0
  {
    assert ParseFloatOr0(Str("")) == 0.0;
    assert NumberOr0(Str("")) == 0.0;
    BlankRowAddsNothing(r, ParseFloatOr0);
  }

  /** `row.pan || { type: 'sp', val1: '', val2: '' }` */
  function PanOr(s: Slot): Slot { if SlotTruthy(s) then s else Obj(BlankPair(Str("sp"))) }

  /** `row.gun || { val1: '', val2: '' }` */
  function GunOr(s: Slot): Slot { if SlotTruthy(s) then s else Obj(BlankPair(Undefined)) }

  /** `row.special || { type: 'jackpot', val1: '', val2: '' }` */
  function SpecialOr(s: Slot): Slot { if SlotTruthy(s) then s else Obj(BlankPair(Str("jackpot"))) }

  /** A row copied field by field with `|| ''` on the cells and the slot
      defaults above; the legacy jackpot/berij/frak fields are not copied. */
  function FilledRow(r: Row, id: JsVal, m: Option<real>): Row {
    Row(id, OrBlank(r.rowType), OrBlank(r.income), OrBlank(r.o), OrBlank(r.jod), OrBlank(r.ko),
        PanOr(r.pan), GunOr(r.gun), SpecialOr(r.special), m, Absent, Absent, Absent)
  }

  /** The multiplier a pre-filled row gets: its own, or, when it has none
      and a type, 8 for आ./आ and 9 for कु./कु. */
  function DefaultMultiplier(r: Row): (m: Option<real>)
    ensures r.multiplier.Some? ==> m == r.multiplier
    ensures r.multiplier.None? && (r.rowType == Str("आ.") || r.rowType == Str("आ")) ==> m == Some(8.0)
    ensures r.multiplier.None? && (r.rowType == Str("कु.") || r.rowType == Str("कु")) ==> m == Some(9.0)
    ensures r.multiplier.None? && r.rowType !in {Str("आ."), Str("आ"), Str("कु."), Str("कु")} ==> m == None
  {
    if r.multiplier.Some? || !Truthy(r.rowType) then r.multiplier
    else if r.rowType == Str("आ.") || r.rowType == Str("आ") then Some(8.0)
    else if r.rowType == Str("कु.") || r.rowType == Str("कु") then Some(9.0)
    else None
  }

  /** A row of the pre-filled entry. */
  function PrefillRow(r: Row): Row {
    FilledRow(r, Undefined, DefaultMultiplier(r))
  }

  /** A falsy cell reads as 0 both as it is and as "". */
  lemma OrBlankReadsAlike(v: JsVal)
    ensures ParseFloatOr0(OrBlank(v)) == ParseFloatOr0(v)
    ensures NumberOr0(OrBlank(v)) == NumberOr0(v)
  {
    if !Truthy(v) {
      assert DigitPrefix("") == 0;
      assert ParseFloatOr0(Str("")) == 0.0;
      assert NumberOr0(Str("")) == 0.0;
    }
  }

  /** A missing slot and its default both contribute 0. */
  lemma SlotDefaultsReadAlike(s: Slot)
    ensures SlotProduct(PanOr(s)) == SlotProduct(s)
    ensures SlotProduct(GunOr(s)) == SlotProduct(s)
    ensures SlotProduct(SpecialOr(s)) == SlotProduct(s)
  {
    assert NumberOr0(Str("")) == 0.0;
  }

  /** Filling a row's defaults changes none of its amounts: with the same
      multiplier it contributes what the row itself does. */
  lemma FilledRowContribution(r: Row, id: JsVal, m: Option<real>)
    ensures RowColumns(FilledRow(r, id, m), ParseFloatOr0) == RowColumns(r.(multiplier := m), ParseFloatOr0)
    ensures NumberOr0(FilledRow(r, id, m).income) == NumberOr0(r.income)
  {
    OrBlankReadsAlike(r.o);
    OrBlankReadsAlike(r.jod);
    OrBlankReadsAlike(r.ko);
    OrBlankReadsAlike(r.income);
    SlotDefaultsReadAlike(r.pan);
    SlotDefaultsReadAlike(r.gun);
    SlotDefaultsReadAlike(r.special);
  }

  /** A pre-filled legacy row of type आ. without a multiplier counts as a
      row of multiplier 8: its o and ko are scaled by 8 and its jod by 80. */
  lemma PrefillScalesLegacyRow(r: Row)
    requires r.multiplier.None? && r.rowType == Str("आ.")
    ensures var c := RowColumns(PrefillRow(r), ParseFloatOr0);
      c.o == ParseFloatOr0(r.o) * 8.0 && c.jod == ParseFloatOr0(r.jod) * 80.0 && c.ko == ParseFloatOr0(r.ko) * 8.0
  {
    FilledRowContribution(r, Undefined, Some(8.0));
  }

  // ---------------------------------------------------------------------------
  // Pre-filling the entries for a date

  /** `new Date(r.updatedAt || r.createdAt)` */
  function ActivityKey(r: Receipt): real {
    (if r.updatedAt.Some? then r.updatedAt.value else r.createdAt) as real
  }

  /** The receipts of one customer dated on `day`, in newest-first order. */
  function DayGroup(rs: seq<Receipt>, customerId: string, day: int, cal: Calendar): seq<Receipt> {
    ReceiptsOf(ReceiptsOnDay(NewestFirst(rs), day, cal), customerId)
  }

  /** `group.sort(by updatedAt || createdAt, latest first)[0]` */
  function LatestOf(group: seq<Receipt>): Receipt
    requires group != []
  {
    group[FirstMaxIndex(group, ActivityKey)]
  }

  /** The entry made from a customer's latest receipt of the day. */
  function EntryFromReceipt(r: Receipt): (e: Entry)
    ensures e.gameRows.Some? && |e.gameRows.value| == (if r.gameRows.Some? then |r.gameRows.value| else 0)
    ensures r.gameRows.Some? ==> forall i :: 0 <= i < |r.gameRows.value| ==> e.gameRows.value[i] == PrefillRow(r.gameRows.value[i])
    ensures OpenClose(e.open, e.close, e.jod) == StoredOpenClose(r.openCloseValues)
    ensures e.company == OrBlank(r.customerCompany)
    ensures e.jama == OrZero(r.jama) && e.chuk == OrZero(r.chuk)
    ensures e.advanceAmount == OrZero(r.advanceAmount) && e.cuttingAmount == OrZero(r.cuttingAmount)
  {
    var rows := if r.gameRows.Some? then r.gameRows.value else [];
    var oc := StoredOpenClose(r.openCloseValues);
    Entry(oc.open, oc.close, oc.jod, OrBlank(r.customerCompany),
          Some(seq(|rows|, i requires 0 <= i < |rows| => PrefillRow(rows[i]))),
          OrZero(r.jama), OrZero(r.chuk), OrZero(r.advanceAmount), OrZero(r.cuttingAmount))
  }

  /** `latestFinancialData[id]`: the balance and the advance of a receipt. */
  datatype Previous = Previous(balance: JsVal, advance: JsVal)

  function PreviousOf(r: Receipt): Previous {
    Previous(OrZero(r.remainingBalance), OrZero(r.finalTotal))
  }

  /** The figures of a customer's first receipt in newest-first order, if any. */
  function PreviousFigures(rs: seq<Receipt>, customerId: string): Option<Previous> {
    var own := ReceiptsOf(NewestFirst(rs), customerId);
    if own == [] then None else Some(PreviousOf(own[0]))
  }

  /** The entry of a customer without a receipt on the date: nothing
      entered, the two default rows, jama and advance carried over. */
  function FreshEntry(p: Option<Previous>): (e: Entry)
    ensures e.gameRows == Some(DefaultRows())
    ensures e.open == Str("") && e.close == Str("") && e.jod == Str("") && e.company == Str("")
    ensures e.jama == (if p.Some? then OrZero(p.value.balance) else Num(0.0))
    ensures e.advanceAmount == (if p.Some? then OrZero(p.value.advance) else Num(0.0))
    ensures e.chuk == Num(0.0) && e.cuttingAmount == Num(0.0)
  {
    Entry(Str(""), Str(""), Str(""), Str(""), Some(DefaultRows()),
          if p.Some? then OrZero(p.value.balance) else Num(0.0), Num(0.0),
          if p.Some? then OrZero(p.value.advance) else Num(0.0), Num(0.0))
  }

  /** In a newest-first list, a customer's first receipt has the greatest
      date among that customer's receipts. */
  lemma {:induction false} FirstOwnIsNewest(s: seq<Receipt>, customerId: string)
    requires SortedBy(s, NegDate)
    requires ReceiptsOf(s, customerId) != []
    ensures forall x :: x in s && x.customerId == customerId ==> x.date <= ReceiptsOf(s, customerId)[0].date
  {
    assert s == [s[0]] + s[1..];
    if s[0].customerId == customerId {
      forall x | x in s && x.customerId == customerId
        ensures x.date <= s[0].date
      {
        var j :| 0 <= j < |s| && s[j] == x;
        if j > 0 {
          assert NegDate(s[0]) <= NegDate(s[j]);
        }
      }
    } else {
      assert SortedBy(s[1..], NegDate) by {
        forall i, j | 0 <= i < j < |s| - 1
          ensures NegDate(s[1..][i]) <= NegDate(s[1..][j])
        {
          assert s[1..][i] == s[i + 1] && s[1..][j] == s[j + 1];
        }
      }
      FirstOwnIsNewest(s[1..], customerId);
    }
  }

  /** The carried-over figures are None exactly when the customer has no
      receipt at all; otherwise they are those of a receipt of theirs with
      the greatest date. */
  lemma PreviousFiguresOfNewest(rs: seq<Receipt>, customerId: string)
    ensures PreviousFigures(rs, customerId).None? <==> forall x :: x in rs ==> x.customerId != customerId
    ensures PreviousFigures(rs, customerId).Some? ==>
      exists r :: r in rs && r.customerId == customerId
        && (forall x :: x in rs && x.customerId == customerId ==> x.date <= r.date)
        && PreviousFigures(rs, customerId) == Some(PreviousOf(r))
  {
    var s := NewestFirst(rs);
    assert forall x :: x in rs <==> x in s by {
      forall x ensures x in rs <==> x in s {
        assert x in rs <==> x in multiset(rs);
        assert x in s <==> x in multiset(s);
      }
    }
    var own := ReceiptsOf(s, customerId);
    if own != [] {
      FirstOwnIsNewest(s, customerId);
      assert own[0] in own;
    }
  }

  /** The receipt an entry is made from is one of that customer's receipts
      on the day, and none of theirs that day was updated (or, when never
      updated, created) later. */
  lemma LatestOfDayIsLatest(rs: seq<Receipt>, customerId: string, day: int, cal: Calendar)
    requires DayGroup(rs, customerId, day, cal) != []
    ensures var r := LatestOf(DayGroup(rs, customerId, day, cal));
      r in rs && r.customerId == customerId && cal.dayOf(r.date) == day
      && forall x :: x in rs && x.customerId == customerId && cal.dayOf(x.date) == day ==> ActivityKey(x) <= ActivityKey(r)
  {
    var s := NewestFirst(rs);
    var g := DayGroup(rs, customerId, day, cal);
    forall x ensures x in rs <==> x in s {
      assert x in rs <==> x in multiset(rs);
      assert x in s <==> x in multiset(s);
    }
    var k := FirstMaxIndex(g, ActivityKey);
    assert g[k] in g;
    forall x | x in rs && x.customerId == customerId && cal.dayOf(x.date) == day
      ensures ActivityKey(x) <= ActivityKey(g[k])
    {
      assert x in g;
      var j :| 0 <= j < |g| && g[j] == x;
    }
  }

  /** A customer has a receipt on the date exactly when a group exists. */
  lemma DayGroupNonEmpty(rs: seq<Receipt>, customerId: string, day: int, cal: Calendar)
    ensures DayGroup(rs, customerId, day, cal) != [] <==>
      exists x :: x in rs && x.customerId == customerId && cal.dayOf(x.date) == day
  {
    var s := NewestFirst(rs);
    var g := DayGroup(rs, customerId, day, cal);
    forall x ensures x in rs <==> x in s {
      assert x in rs <==> x in multiset(rs);
      assert x in s <==> x in multiset(s);
    }
    if g != [] {
      assert g[0] in g;
    }
  }

  /** `customerReceiptsMap`: each customer's receipts, in list order. */
  method GroupByCustomer(rs: seq<Receipt>) returns (groups: map<string, seq<Receipt>>)
    ensures forall k :: k in groups <==> ReceiptsOf(rs, k) != []
    ensures forall k :: k in groups ==> groups[k] == ReceiptsOf(rs, k)
  {
    groups := map[];
    var i := 0;
    while i < |rs|
      invariant 0 <= i <= |rs|
      invariant forall k :: k in groups <==> ReceiptsOf(rs[..i], k) != []
      invariant forall k :: k in groups ==> groups[k] == ReceiptsOf(rs[..i], k)
    {
      var r := rs[i];
      var g := if r.customerId in groups then groups[r.customerId] else [];
      GroupStep(groups, rs[..i], r);
      groups := groups[r.customerId := g + [r]];
      assert rs[..i + 1] == rs[..i] + [r];
      i := i + 1;
    }
    assert rs[..|rs|] == rs;
  }

  /** Adding one receipt to its customer's group keeps the groups equal to
      the receipts of the longer list. */
  lemma GroupStep(groups: map<string, seq<Receipt>>, prefix: seq<Receipt>, r: Receipt)
    requires forall k :: k in groups <==> ReceiptsOf(prefix, k) != []
    requires forall k :: k in groups ==> groups[k] == ReceiptsOf(prefix, k)
    ensures var g := if r.customerId in groups then groups[r.customerId] else [];
      var next := groups[r.customerId := g + [r]];
      (forall k :: k in next <==> ReceiptsOf(prefix + [r], k) != [])
      && (forall k :: k in next ==> next[k] == ReceiptsOf(prefix + [r], k))
  {
    forall k ensures ReceiptsOf(prefix + [r], k) == ReceiptsOf(prefix, k) + (if r.customerId == k then [r] else []) {
      ReceiptsOfSnoc(prefix, r, k);
    }
  }

  /** The entries of the customers that have a group, one per key. */
  method EntriesOfGroups(groups: map<string, seq<Receipt>>) returns (data: ShortcutData)
    requires forall k :: k in groups ==> groups[k] != []
    ensures data.Keys == groups.Keys
    ensures forall k :: k in data ==> data[k] == EntryFromReceipt(LatestOf(groups[k]))
  {
    data := map[];
    var pending := groups.Keys;
    while pending != {}
      invariant pending <= groups.Keys
      invariant data.Keys == groups.Keys - pending
      invariant forall k :: k in data ==> data[k] == EntryFromReceipt(LatestOf(groups[k]))
      decreases |pending|
    {
      var k :| k in pending;
      data := data[k := EntryFromReceipt(LatestOf(groups[k]))];
      pending := pending - {k};
    }
  }

  /** `latestFinancialData`: for each listed customer with a receipt, the
      figures of their first receipt in `sorted`. */
  method PreviousByCustomer(sorted: seq<Receipt>, customers: seq<Customer>) returns (previous: map<string, Previous>)
    ensures forall k :: k in previous ==> ReceiptsOf(sorted, k) != [] && previous[k] == PreviousOf(ReceiptsOf(sorted, k)[0])
    ensures forall c :: c in customers && ReceiptsOf(sorted, c.id) != [] ==> c.id in previous
  {
    previous := map[];
    var j := 0;
    while j < |customers|
      invariant 0 <= j <= |customers|
      invariant forall k :: k in previous ==> ReceiptsOf(sorted, k) != [] && previous[k] == PreviousOf(ReceiptsOf(sorted, k)[0])
      invariant forall m :: 0 <= m < j && ReceiptsOf(sorted, customers[m].id) != [] ==> customers[m].id in previous
    {
      var own := ReceiptsOf(sorted, customers[j].id);
      if |own| > 0 {
        previous := previous[customers[j].id := PreviousOf(own[0])];
      }
      j := j + 1;
    }
  }

  /** A fresh entry for every listed customer who has none yet. */
  method AddFreshEntries(start: ShortcutData, customers: seq<Customer>, previous: map<string, Previous>, receipts: seq<Receipt>)
    returns (data: ShortcutData)
    requires forall k :: k in previous ==>
      ReceiptsOf(NewestFirst(receipts), k) != [] && previous[k] == PreviousOf(ReceiptsOf(NewestFirst(receipts), k)[0])
    requires forall c :: c in customers && ReceiptsOf(NewestFirst(receipts), c.id) != [] ==> c.id in previous
    ensures forall k :: k in data <==> k in start || exists c :: c in customers && c.id == k
    ensures forall k :: k in start ==> data[k] == start[k]
    ensures forall c :: c in customers && c.id !in start ==> data[c.id] == FreshEntry(PreviousFigures(receipts, c.id))
  {
    data := start;
    var j := 0;
    while j < |customers|
      invariant 0 <= j <= |customers|
      invariant forall k :: k in data <==> k in start || exists m :: 0 <= m < j && customers[m].id == k
      invariant forall k :: k in start ==> data[k] == start[k]
      invariant forall m :: 0 <= m < j && customers[m].id !in start ==>
        customers[m].id in data && data[customers[m].id] == FreshEntry(PreviousFigures(receipts, customers[m].id))
    {
      var id := customers[j].id;
      if id !in data {
        var p := if id in previous then Some(previous[id]) else None;
        PreviousLookup(previous, customers, receipts, j);
        data := data[id := FreshEntry(p)];
      }
      j := j + 1;
    }
    FreshEntriesCover(data, start, customers, receipts);
  }

  /** The carried-over figures looked up for a listed customer are the
      figures of their newest receipt. */
  lemma PreviousLookup(previous: map<string, Previous>, customers: seq<Customer>, receipts: seq<Receipt>, j: nat)
    requires j < |customers|
    requires forall k :: k in previous ==>
      ReceiptsOf(NewestFirst(receipts), k) != [] && previous[k] == PreviousOf(ReceiptsOf(NewestFirst(receipts), k)[0])
    requires forall c :: c in customers && ReceiptsOf(NewestFirst(receipts), c.id) != [] ==> c.id in previous
    ensures (if customers[j].id in previous then Some(previous[customers[j].id]) else None)
      == PreviousFigures(receipts, customers[j].id)
  {
    assert customers[j] in customers;
  }

  /** Once every customer has been visited, the entries are the starting
      ones plus one per listed customer. */
  lemma FreshEntriesCover(data: ShortcutData, start: ShortcutData, customers: seq<Customer>, receipts: seq<Receipt>)
    requires forall k :: k in data <==> k in start || exists m :: 0 <= m < |customers| && customers[m].id == k
    requires forall m :: 0 <= m < |customers| && customers[m].id !in start ==>
      customers[m].id in data && data[customers[m].id] == FreshEntry(PreviousFigures(receipts, customers[m].id))
    ensures forall k :: k in data <==> k in start || exists c :: c in customers && c.id == k
    ensures forall c :: c in customers && c.id !in start ==> data[c.id] == FreshEntry(PreviousFigures(receipts, c.id))
  {
    forall c | c in customers && c.id !in start
      ensures data[c.id] == FreshEntry(PreviousFigures(receipts, c.id))
    {
      var m :| 0 <= m < |customers| && customers[m] == c;
    }
    forall k | k in data
      ensures k in start || exists c :: c in customers && c.id == k
    {
      if k !in start {
        var m :| 0 <= m < |customers| && customers[m].id == k;
        assert customers[m] in customers;
      }
    }
    forall k | exists c :: c in customers && c.id == k
      ensures k in data
    {
      var c :| c in customers && c.id == k;
      var m :| 0 <= m < |customers| && customers[m] == c;
    }
  }

  /** `fetchReceiptsForDate(date)` once the receipts and the customers are
      at hand: an entry from the latest receipt of the day for each
      customer who has one, and a fresh entry for every other listed
      customer. */
  method PrefillForDate(receipts: seq<Receipt>, customers: seq<Customer>, day: int, cal: Calendar)
    returns (data: ShortcutData)
    ensures forall k :: k in data <==>
      DayGroup(receipts, k, day, cal) != [] || exists c :: c in customers && c.id == k
    ensures forall k :: k in data && DayGroup(receipts, k, day, cal) != [] ==>
      data[k] == EntryFromReceipt(LatestOf(DayGroup(receipts, k, day, cal)))
    ensures forall c :: c in customers && DayGroup(receipts, c.id, day, cal) == [] ==>
      c.id in data && data[c.id] == FreshEntry(PreviousFigures(receipts, c.id))
  {
    var sorted := SortBy(receipts, NegDate);
    var forDate := ReceiptsOnDay(sorted, day, cal);
    var groups := GroupByCustomer(forDate);
    var onDate := EntriesOfGroups(groups);
    var previous := PreviousByCustomer(sorted, customers);
    data := AddFreshEntries(onDate, customers, previous, receipts);
  }

  // ---------------------------------------------------------------------------
  // calculateCustomerTotals

  /** The quick-entry chain: a fixed 10% deduction, no pending amount, and
      a final total that takes advance and cutting off the amount after
      chuk. */
  function QuickSettle(cols: Columns, income: real, jama: real, chuk: real, advance: real, cutting: real): Settlement {
    var payment := ColumnsSum(cols);
    var deduction := income * 0.1;
    var afterDeduction := income - deduction;
    var remaining := afterDeduction - payment;
    var jamaTotal := remaining - jama;
    var afterChuk := jamaTotal - chuk;
    Settlement(cols, income, payment, deduction, afterDeduction, remaining, remaining, jamaTotal, chuk,
               afterChuk, afterChuk - advance - cutting)
  }

  /** `calculateCustomerTotals(customerData)`: the o, jod and ko cells are
      read with `parseFloat`. */
  function EntryTotals(e: Entry): Settlement {
    QuickSettle(ColumnTotals(RowsOf(e), ParseFloatOr0), TotalIncome(RowsOf(e)),
                NumberOr0(e.jama), NumberOr0(e.chuk), NumberOr0(e.advanceAmount), NumberOr0(e.cuttingAmount))
  }

  /** `calculateCustomerTotals`: the row loop, the income sum and the chain. */
  method CalculateCustomerTotals(e: Entry) returns (t: Settlement)
    ensures t == EntryTotals(e)
  {
    var rows := RowsOf(e);
    var cols := SumColumns(rows, ParseFloatOr0);
    var totalIncome := SumIncome(rows);
    var payment := cols.o + cols.jod + cols.ko + cols.pan + cols.gun + cols.special;
    var deduction := totalIncome * 0.1;
    var afterDeduction := totalIncome - deduction;
    var remainingBalance := afterDeduction - payment;
    var jama := NumberOr0(e.jama);
    var totalDue := remainingBalance;
    var jamaTotal := totalDue - jama;
    var chuk := NumberOr0(e.chuk);
    var finalTotalAfterChuk := jamaTotal - chuk;
    var advanceAmount := NumberOr0(e.advanceAmount);
    var cuttingAmount := NumberOr0(e.cuttingAmount);
    var finalTotal := finalTotalAfterChuk - advanceAmount - cuttingAmount;
    t := Settlement(cols, totalIncome, payment, deduction, afterDeduction, remainingBalance, totalDue,
                    jamaTotal, chuk, finalTotalAfterChuk, finalTotal);
  }

  /** The quick chain agrees with the receipt form's at a 10% rate, no
      pending amount and chuk entered by hand, up to the amount after
      chuk; the final totals differ: the quick one is that amount less
      advance and cutting, the form's is advance less cutting alone. */
  lemma QuickChainAgainstReceiptForm(cols: Columns, income: real, jama: real, chuk: real, advance: real, cutting: real)
    ensures var q := QuickSettle(cols, income, jama, chuk, advance, cutting);
      var s := Settle(cols, income, Figures(10.0, 0.0, jama, false, 10.0, chuk, advance, cutting));
      q.payment == s.payment && q.deduction == s.deduction && q.afterDeduction == s.afterDeduction
      && q.remainingBalance == s.remainingBalance && q.totalDue == s.totalDue && q.jamaTotal == s.jamaTotal
      && q.chuk == s.chuk && q.finalTotalAfterChuk == s.finalTotalAfterChuk
      && q.finalTotal == s.finalTotalAfterChuk - advance - cutting && s.finalTotal == advance - cutting
  {
  }

  /** The quick final total in closed form: 90% of the income less the
      payment, jama, chuk, advance and cutting. */
  lemma QuickClosedForm(cols: Columns, income: real, jama: real, chuk: real, advance: real, cutting: real)
    ensures var t := QuickSettle(cols, income, jama, chuk, advance, cutting);
      t.finalTotal == 0.9 * income - ColumnsSum(cols) - jama - chuk - advance - cutting
      && t.payment == ColumnsSum(cols) && t.totalDue == t.remainingBalance
  {
  }

  /** A fresh entry starts with nothing to settle: its amount after chuk is
      the carried balance taken off 0. */
  lemma FreshEntryTotals(p: Option<Previous>)
    ensures var e := FreshEntry(p);
      EntryTotals(e).payment == 0.0 && EntryTotals(e).totalIncome == 0.0
      && EntryTotals(e).finalTotalAfterChuk == -NumberOr0(e.jama)
  {
    FreshEntryFigures(p);
  }

  lemma FreshEntryFigures(p: Option<Previous>)
    ensures var e := FreshEntry(p);
      EntryTotals(e) == QuickSettle(NoColumns, 0.0, NumberOr0(e.jama), 0.0, NumberOr0(e.advanceAmount), 0.0)
  {
    var e := FreshEntry(p);
    DefaultRowsAddNothing();
    assert RowsOf(e) == DefaultRows();
    assert NumberOr0(Num(0.0)) == 0.0;
  }

  // ---------------------------------------------------------------------------
  // Updating the entries

  /** The inputs wired to `handleInputChange`. */
  datatype EntryField =
    | OpenInput | CloseInput | JodInput | CompanyInput
    | JamaInput | ChukInput | AdvanceInput | CuttingInput

  function FieldValue(e: Entry, f: EntryField): JsVal {
    match f
    case OpenInput => e.open
    case CloseInput => e.close
    case JodInput => e.jod
    case CompanyInput => e.company
    case JamaInput => e.jama
    case ChukInput => e.chuk
    case AdvanceInput => e.advanceAmount
    case CuttingInput => e.cuttingAmount
  }

  /** `{ ...entry, [field]: value }` */
  function SetField(e: Entry, f: EntryField, v: JsVal): (g: Entry)
    ensures FieldValue(g, f) == v
    ensures forall h :: h != f ==> FieldValue(g, h) == FieldValue(e, h)
    ensures g.gameRows == e.gameRows
  {
    match f
    case OpenInput => e.(open := v)
    case CloseInput => e.(close := v)
    case JodInput => e.(jod := v)
    case CompanyInput => e.(company := v)
    case JamaInput => e.(jama := v)
    case ChukInput => e.(chuk := v)
    case AdvanceInput => e.(advanceAmount := v)
    case CuttingInput => e.(cuttingAmount := v)
  }

  /** `handleInputChange(customerId, field, value)` */
  function HandleInputChange(data: ShortcutData, id: string, f: EntryField, value: string): (d: ShortcutData)
    ensures d.Keys == data.Keys + {id}
    ensures forall k :: k in data && k != id ==> d[k] == data[k]
    ensures FieldValue(d[id], f) == Str(value)
    ensures forall h :: h != f ==> FieldValue(d[id], h) == FieldValue(EntryOf(data, id), h)
    ensures d[id].gameRows == EntryOf(data, id).gameRows
  {
    data[id := SetField(EntryOf(data, id), f, Str(value))]
  }

  datatype SlotName = PanSlot | GunSlot | SpecialSlot
  datatype SubField = Val1 | Val2

  /** The names `handleGameRowChange` is called with: a plain cell name, or
      a dotted name such as "pan.val1" for one sub-field of a slot. */
  datatype RowInput =
    | TypeInput | IncomeInput | OInput | RowJodInput | KoInput | MultiplierInput
    | SlotInput(slot: SlotName, sub: SubField)

  function SlotOf(r: Row, s: SlotName): Slot {
    match s
    case PanSlot => r.pan
    case GunSlot => r.gun
    case SpecialSlot => r.special
  }

  /** The row after one input changes: a cell is set to the value, a
      multiplier to its number, a sub-field through
      `{ ...(row[main] || {}), [sub]: value }`. */
  function EditQuickRow(r: Row, input: RowInput, value: JsVal): (e: Row)
    ensures input.TypeInput? ==> e == r.(rowType := value)
    ensures input.IncomeInput? ==> e == r.(income := value)
    ensures input.OInput? ==> e == r.(o := value)
    ensures input.RowJodInput? ==> e == r.(jod := value)
    ensures input.KoInput? ==> e == r.(ko := value)
    ensures input.MultiplierInput? ==> e == r.(multiplier := Some(NumberOr0(value)))
  {
    match input
    case TypeInput => r.(rowType := value)
    case IncomeInput => r.(income := value)
    case OInput => r.(o := value)
    case RowJodInput => r.(jod := value)
    case KoInput => r.(ko := value)
    case MultiplierInput => r.(multiplier := Some(NumberOr0(value)))
    case SlotInput(s, sub) =>
      var cur := SlotOf(r, s);
      var upd := if sub.Val1? then WithVal1(cur, value) else WithVal2(cur, value);
      match s
      case PanSlot => r.(pan := upd)
      case GunSlot => r.(gun := upd)
      case SpecialSlot => r.(special := upd)
  }

  /** A dotted name changes only that sub-field of that slot: the other
      slots, the other sub-field, the slot's type and every cell stay. */
  lemma DottedInputChangesOneSubField(r: Row, s: SlotName, sub: SubField, value: JsVal)
    ensures var e := EditQuickRow(r, SlotInput(s, sub), value);
      (sub.Val1? ==> SlotVal1(SlotOf(e, s)) == value && SlotVal2(SlotOf(e, s)) == SlotVal2(SlotOf(r, s)))
      && (sub.Val2? ==> SlotVal2(SlotOf(e, s)) == value && SlotVal1(SlotOf(e, s)) == SlotVal1(SlotOf(r, s)))
      && SlotKind(SlotOf(e, s)) == SlotKind(SlotOf(r, s))
      && (forall t :: t != s ==> SlotOf(e, t) == SlotOf(r, t))
      && e.rowType == r.rowType && e.income == r.income && e.o == r.o && e.jod == r.jod && e.ko == r.ko
      && e.multiplier == r.multiplier && e.id == r.id
  {
  }

  /** `handleGameRowChange(customerId, rowIndex, field, value)` for a row
      that exists. */
  function HandleGameRowChange(data: ShortcutData, id: string, index: nat, input: RowInput, value: JsVal): (d: ShortcutData)
    requires index < |RowsOf(EntryOf(data, id))|
    ensures d.Keys == data.Keys + {id}
    ensures forall k :: k in data && k != id ==> d[k] == data[k]
    ensures var rows := RowsOf(EntryOf(data, id));
      d[id] == EntryOf(data, id).(gameRows := Some(rows[index := EditQuickRow(rows[index], input, value)]))
  {
    var e := EntryOf(data, id);
    var rows := RowsOf(e);
    data[id := e.(gameRows := Some(rows[index := EditQuickRow(rows[index], input, value)]))]
  }

  /** An edit leaves every other row of the list as it was. */
  lemma RowChangeKeepsOtherRows(data: ShortcutData, id: string, index: nat, input: RowInput, value: JsVal)
    requires index < |RowsOf(EntryOf(data, id))|
    ensures var rows := RowsOf(EntryOf(data, id));
      var after := RowsOf(HandleGameRowChange(data, id, index, input, value)[id]);
      |after| == |rows| && forall i :: 0 <= i < |rows| && i != index ==> after[i] == rows[i]
  {
  }

  /** `addGameRow(customerId, type)`: multiplier 8 for आ., 9 for कु., none otherwise. */
  function AddGameRow(data: ShortcutData, id: string, rowType: string): (d: ShortcutData)
    ensures d.Keys == data.Keys + {id}
    ensures forall k :: k in data && k != id ==> d[k] == data[k]
    ensures var rows := RowsOf(EntryOf(data, id));
      RowsOf(d[id]) == rows + [QuickRow(Str(rowType), if rowType == "आ." then Some(8.0) else if rowType == "कु." then Some(9.0) else None)]
    ensures d[id] == EntryOf(data, id).(gameRows := d[id].gameRows)
  {
    var e := EntryOf(data, id);
    var m := if rowType == "आ." then Some(8.0) else if rowType == "कु." then Some(9.0) else None;
    data[id := e.(gameRows := Some(RowsOf(e) + [QuickRow(Str(rowType), m)]))]
  }

  /** `initializeDefaultRows(customerId)`: nothing changes once the entry
      has rows; otherwise it gets the two default rows. */
  function InitializeDefaultRows(data: ShortcutData, id: string): (d: ShortcutData)
    ensures RowsOf(EntryOf(data, id)) != [] ==> d == data
    ensures RowsOf(EntryOf(data, id)) == [] ==>
      d == data[id := EntryOf(data, id).(gameRows := Some(DefaultRows()))]
  {
    var e := EntryOf(data, id);
    if RowsOf(e) != [] then data else data[id := e.(gameRows := Some(DefaultRows()))]
  }

  /** `gameRows.filter((_, index) => index !== rowIndex)` */
  function WithoutIndex(rows: seq<Row>, index: int): (rs: seq<Row>)
    ensures !(0 <= index < |rows|) ==> rs == rows
    ensures 0 <= index < |rows| ==> rs == rows[..index] + rows[index + 1..]
  {
    if 0 <= index < |rows| then rows[..index] + rows[index + 1..] else rows
  }

  /** `removeGameRow(customerId, rowIndex)` */
  function RemoveGameRow(data: ShortcutData, id: string, index: int): (d: ShortcutData)
    ensures d.Keys == data.Keys + {id}
    ensures forall k :: k in data && k != id ==> d[k] == data[k]
    ensures d[id] == EntryOf(data, id).(gameRows := Some(WithoutIndex(RowsOf(EntryOf(data, id)), index)))
  {
    var e := EntryOf(data, id);
    data[id := e.(gameRows := Some(WithoutIndex(RowsOf(e), index)))]
  }

  /** Removing a row takes exactly its contribution off the entry's totals. */
  lemma RemoveGameRowSubtracts(data: ShortcutData, id: string, index: nat)
    requires index < |RowsOf(EntryOf(data, id))|
    ensures var rows := RowsOf(EntryOf(data, id));
      var after := RowsOf(RemoveGameRow(data, id, index)[id]);
      |after| == |rows| - 1
      && AddColumns(ColumnTotals(after, ParseFloatOr0), RowColumns(rows[index], ParseFloatOr0)) == ColumnTotals(rows, ParseFloatOr0)
      && TotalIncome(after) + NumberOr0(rows[index].income) == TotalIncome(rows)
  {
    var rows := RowsOf(EntryOf(data, id));
    RemovingRowSubtracts(rows, index, ParseFloatOr0);
    RemovingRowSubtractsIncome(rows, index);
  }

  // ---------------------------------------------------------------------------
  // Saving

  /** `data.open || data.close || (data.gameRows && data.gameRows.length > 0)` */
  predicate Qualifies(e: Entry) {
    Truthy(e.open) || Truthy(e.close) || |RowsOf(e)| > 0
  }

  /** The receipt the tab posts for one customer. */
  datatype QuickRecord = QuickRecord(
    customerId: string,
    customerName: string,
    customerCompany: JsVal,
    businessName: JsVal,
    date: int,
    day: string,
    openCloseValues: OpenClose,
    gameRows: seq<Row>,
    totalIncome: real,
    deduction: real,
    afterDeduction: real,
    payment: real,
    remainingBalance: real,
    pendingAmount: real,
    totalDue: real,
    columns: Columns,
    jama: real,
    jamaTotal: real,
    chuk: real,
    isChukEnabled: bool,
    finalTotalAfterChuk: real,
    advanceAmount: real,
    cuttingAmount: real,
    finalTotal: real)

  /** The rows of a posted receipt: ids from the clock, cells `|| ''`, the
      slot defaults, and no multiplier. */
  function RecordRows(rows: seq<Row>, now: int): (rs: seq<Row>)
    ensures |rs| == |rows|
    ensures forall i :: 0 <= i < |rows| ==> rs[i] == FilledRow(rows[i], Num((now + i) as real), None)
  {
    seq(|rows|, i requires 0 <= i < |rows| => FilledRow(rows[i], Num((now + i) as real), None))
  }

  /** The receipt posted for customer `id` from entry `e`, at time `now`;
      `company` is the company text the caller chose. */
  function BuildRecord(id: string, name: string, company: JsVal, e: Entry, businessName: JsVal, now: int, cal: Calendar)
    : (r: QuickRecord)
    ensures r.customerId == id && r.customerName == name && r.date == now
    ensures r.payment == 0.0 && r.columns == NoColumns && r.pendingAmount == 0.0 && !r.isChukEnabled
    ensures r.remainingBalance == r.afterDeduction && r.totalDue == r.afterDeduction
    ensures r.afterDeduction == EntryTotals(e).afterDeduction && r.totalIncome == EntryTotals(e).totalIncome
    ensures r.jamaTotal == EntryTotals(e).jamaTotal
    ensures r.finalTotalAfterChuk == EntryTotals(e).finalTotalAfterChuk && r.finalTotal == EntryTotals(e).finalTotal
    ensures |r.gameRows| == |RowsOf(e)| && forall i :: 0 <= i < |r.gameRows| ==> r.gameRows[i].multiplier.None?
    ensures r.openCloseValues == OpenClose(OrBlank(e.open), OrBlank(e.close), OrBlank(e.jod))
  {
    var t := EntryTotals(e);
    QuickRecord(id, name, company, OrDefault(businessName, "Game Book"), now, cal.weekdayOf(now),
                OpenClose(OrBlank(e.open), OrBlank(e.close), OrBlank(e.jod)), RecordRows(RowsOf(e), now),
                t.totalIncome, t.deduction, t.afterDeduction, 0.0, t.afterDeduction, 0.0, t.afterDeduction,
                NoColumns, NumberOr0(e.jama), t.jamaTotal, NumberOr0(e.chuk), false, t.finalTotalAfterChuk,
                NumberOr0(e.advanceAmount), NumberOr0(e.cuttingAmount), t.finalTotal)
  }

  /** The stored figures follow the quick chain (balance less jama less
      chuk is the amount after chuk) exactly when the rows' payment is 0:
      the payment is taken off the stored amounts after chuk but stored
      neither as the payment nor in the balance. */
  lemma RecordChainNeedsNoPayment(id: string, name: string, company: JsVal, e: Entry, businessName: JsVal, now: int, cal: Calendar)
    ensures var r := BuildRecord(id, name, company, e, businessName, now, cal);
      (r.totalDue - r.jama - r.chuk == r.finalTotalAfterChuk) <==> EntryTotals(e).payment == 0.0
  {
  }

  /** The ids `handleCreateReceipts` submits, in entry order. */
  function ToSubmit(data: ShortcutData, ids: seq<string>): (ks: seq<string>)
    requires forall k :: k in ids ==> k in data
    ensures forall k :: k in ks <==> k in ids && Qualifies(data[k])
    ensures |ks| <= |ids|
  {
    if ids == [] then []
    else
      var rest := ToSubmit(data, ids[1..]);
      assert ids == [ids[0]] + ids[1..];
      if Qualifies(data[ids[0]]) then [ids[0]] + rest else rest
  }

  /** The receipts posted for `ks`, skipping ids that no listed customer has. */
  function BatchRecords(ks: seq<string>, data: ShortcutData, customers: seq<Customer>, businessName: JsVal, now: int, cal: Calendar)
    : (out: seq<QuickRecord>)
    requires forall k :: k in ks ==> k in data
    ensures |out| <= |ks|
  {
    if ks == [] then []
    else
      var last := ks[|ks| - 1];
      var rest := BatchRecords(ks[..|ks| - 1], data, customers, businessName, now, cal);
      assert ks == ks[..|ks| - 1] + [last];
      match RecordFor(last, data, customers, businessName, now, cal)
      case None => rest
      case Some(r) => rest + [r]
  }

  /** The record posted for `k`, if a listed customer has that id. */
  function RecordFor(k: string, data: ShortcutData, customers: seq<Customer>, businessName: JsVal, now: int, cal: Calendar)
    : (r: Option<QuickRecord>)
    requires k in data
    ensures r.Some? <==> FindById(customers, k).Some?
    ensures r.Some? ==> r.value.customerId == k
  {
    match FindById(customers, k)
    case None => None
    case Some(c) => Some(BuildRecord(k, c.name, OrBlank(c.company), data[k], businessName, now, cal))
  }

  /** A record is posted for every submitted id a listed customer has, and
      for no other. */
  lemma {:induction false} BatchRecordsCover(ks: seq<string>, data: ShortcutData, customers: seq<Customer>,
                                             businessName: JsVal, now: int, cal: Calendar)
    requires forall k :: k in ks ==> k in data
    ensures var out := BatchRecords(ks, data, customers, businessName, now, cal);
      (forall r :: r in out ==> r.customerId in ks && FindById(customers, r.customerId).Some?)
      && (forall k :: k in ks && FindById(customers, k).Some? ==> exists r :: r in out && r.customerId == k)
    decreases |ks|
  {
    if ks != [] {
      var last := ks[|ks| - 1];
      var init := ks[..|ks| - 1];
      assert ks == init + [last];
      BatchRecordsCover(init, data, customers, businessName, now, cal);
    }
  }

  /** How many of the posts succeeded, by the outcome of each post. */
  function CountPosted(posts: seq<QuickRecord>, posted: string -> bool): (n: nat)
    ensures n <= |posts|
  {
    if posts == [] then 0
    else CountPosted(posts[..|posts| - 1], posted) + (if posted(posts[|posts| - 1].customerId) then 1 else 0)
  }

  /** What `handleCreateReceipts` did. */
  datatype BatchOutcome =
    | NothingEntered
    | NotConfirmed
    | Ran(posts: seq<QuickRecord>, successCount: nat, errorCount: nat)

  /** `handleCreateReceipts()`. `ids` lists the entries in their order,
      each once, as `Object.entries` does; `confirmed` is the answer to the confirmation, `posted(id)` whether
      the post for that customer succeeded. After a run with at least one
      success the entries are cleared. */
  method CreateReceipts(data: ShortcutData, ids: seq<string>, customers: seq<Customer>, businessName: JsVal,
                        now: int, cal: Calendar, confirmed: bool, posted: string -> bool)
    returns (o: BatchOutcome, after: ShortcutData)
    requires forall k :: k in ids <==> k in data
    requires forall i, j :: 0 <= i < j < |ids| ==> ids[i] != ids[j]
    ensures o.NothingEntered? <==> ToSubmit(data, ids) == []
    ensures o.NotConfirmed? <==> ToSubmit(data, ids) != [] && !confirmed
    ensures o.Ran? ==>
      o.posts == BatchRecords(ToSubmit(data, ids), data, customers, businessName, now, cal)
      && o.successCount == CountPosted(o.posts, posted)
      && o.successCount + o.errorCount == |o.posts|
    ensures after == (if o.Ran? && o.successCount > 0 then map[] else data)
  {
    var ks := ToSubmit(data, ids);
    if |ks| == 0 {
      return NothingEntered, data;
    }
    if !confirmed {
      return NotConfirmed, data;
    }
    var posts, successCount, errorCount := PostAll(ks, data, customers, businessName, now, cal, posted);
    o := Ran(posts, successCount, errorCount);
    after := if successCount > 0 then map[] else data;
  }

  /** The loop of `handleCreateReceipts`: a post per id some listed
      customer has, each counted as a success or an error. */
  method PostAll(ks: seq<string>, data: ShortcutData, customers: seq<Customer>, businessName: JsVal,
                 now: int, cal: Calendar, posted: string -> bool)
    returns (posts: seq<QuickRecord>, successCount: nat, errorCount: nat)
    requires forall k :: k in ks ==> k in data
    ensures posts == BatchRecords(ks, data, customers, businessName, now, cal)
    ensures successCount == CountPosted(posts, posted)
    ensures successCount + errorCount == |posts|
  {
    posts := [];
    successCount := 0;
    errorCount := 0;
    var i := 0;
    while i < |ks|
      invariant 0 <= i <= |ks|
      invariant posts == BatchRecords(ks[..i], data, customers, businessName, now, cal)
      invariant successCount == CountPosted(posts, posted)
      invariant successCount + errorCount == |posts|
    {
      posts, successCount, errorCount := PostNext(ks, i, data, customers, businessName, now, cal, posted,
                                                  posts, successCount, errorCount);
      i := i + 1;
    }
    assert ks[..|ks|] == ks;
  }

  /** One turn of that loop: the post for `ks[i]`, if a listed customer
      has that id, counted as a success or an error. */
  method PostNext(ks: seq<string>, i: nat, data: ShortcutData, customers: seq<Customer>, businessName: JsVal,
                  now: int, cal: Calendar, posted: string -> bool,
                  posts: seq<QuickRecord>, successCount: nat, errorCount: nat)
    returns (posts': seq<QuickRecord>, successCount': nat, errorCount': nat)
    requires i < |ks| && forall k :: k in ks ==> k in data
    requires posts == BatchRecords(ks[..i], data, customers, businessName, now, cal)
    requires successCount == CountPosted(posts, posted) && successCount + errorCount == |posts|
    ensures posts' == BatchRecords(ks[..i + 1], data, customers, businessName, now, cal)
    ensures successCount' == CountPosted(posts', posted) && successCount' + errorCount' == |posts'|
  {
    var k := ks[i];
    BatchRecordsStep(ks, i, data, customers, businessName, now, cal);
    posts', successCount', errorCount' := posts, successCount, errorCount;
    var rec := RecordFor(k, data, customers, businessName, now, cal);
    if rec.Some? {
      CountPostedSnoc(posts, rec.value, posted);
      posts' := posts + [rec.value];
      if posted(k) {
        successCount' := successCount + 1;
      } else {
        errorCount' := errorCount + 1;
      }
    }
  }

  lemma BatchRecordsStep(ks: seq<string>, i: nat, data: ShortcutData, customers: seq<Customer>, businessName: JsVal,
                         now: int, cal: Calendar)
    requires i < |ks| && forall k :: k in ks ==> k in data
    ensures forall k :: k in ks[..i] ==> k in data
    ensures forall k :: k in ks[..i + 1] ==> k in data
    ensures BatchRecords(ks[..i + 1], data, customers, businessName, now, cal)
      == match RecordFor(ks[i], data, customers, businessName, now, cal)
         case None => BatchRecords(ks[..i], data, customers, businessName, now, cal)
         case Some(r) => BatchRecords(ks[..i], data, customers, businessName, now, cal) + [r]
  {
    assert ks[..i + 1][..i] == ks[..i];
    assert ks[..i + 1][i] == ks[i];
  }

  lemma CountPostedSnoc(posts: seq<QuickRecord>, rec: QuickRecord, posted: string -> bool)
    ensures CountPosted(posts + [rec], posted) == CountPosted(posts, posted) + (if posted(rec.customerId) then 1 else 0)
  {
    assert (posts + [rec])[..|posts|] == posts;
  }

  /** What `handleSaveCustomer` did. */
  datatype SaveOneOutcome =
    | NothingToSave
    | UnknownCustomer
    | Posted(record: QuickRecord, succeeded: bool)

  /** `handleSaveCustomer(customerId)`: an entry with nothing entered is
      refused; an id no listed customer has fails before anything is
      posted; otherwise the record (with the entry's own company) is
      posted and, when that succeeds, only this customer's entry is
      deleted. */
  function SaveCustomer(data: ShortcutData, customers: seq<Customer>, id: string, businessName: JsVal,
                        now: int, cal: Calendar, succeeded: bool): (r: (SaveOneOutcome, ShortcutData))
    ensures r.0.NothingToSave? <==> id !in data || !Qualifies(data[id])
    ensures r.0.UnknownCustomer? <==> id in data && Qualifies(data[id]) && FindById(customers, id).None?
    ensures r.0.Posted? ==> r.0.record.customerId == id && r.0.record.customerCompany == OrBlank(data[id].company)
    ensures r.1 == (if r.0.Posted? && succeeded then data - {id} else data)
  {
    if id !in data || !Qualifies(data[id]) then (NothingToSave, data)
    else match FindById(customers, id)
      case None => (UnknownCustomer, data)
      case Some(c) =>
        var rec := BuildRecord(id, c.name, OrBlank(data[id].company), data[id], businessName, now, cal);
        (Posted(rec, succeeded), if succeeded then data - {id} else data)
  }

  /** A successful single save deletes exactly that customer's entry. */
  lemma SaveDeletesOnlyThatEntry(data: ShortcutData, customers: seq<Customer>, id: string, businessName: JsVal,
                                 now: int, cal: Calendar)
    requires id in data && Qualifies(data[id]) && FindById(customers, id).Some?
    ensures var d := SaveCustomer(data, customers, id, businessName, now, cal, true).1;
      id !in d && forall k :: k != id ==> (k in d <==> k in data) && (k in d ==> d[k] == data[k])
  {
  }
}
