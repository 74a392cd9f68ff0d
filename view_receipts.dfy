/** The receipt list: each receipt with its customer's serial number and a
    flag on every customer's latest receipt, the search and date filters,
    the column sort, local deletion, and the arithmetic of the printed
    receipt. The list's `evaluateExpression` is the receipt form's, word
    for word, and is `Expression.EvaluateExpression` here; `toNum` is
    `Number(x) || 0`, `Js.NumberOr0`. */
module ViewReceipts {
  import opened Js
  import opened Records
  import opened Ordering
  import opened Expression
  import opened RowTotals
  import opened ReceiptRows
  import opened CarryOver

  // ---------------------------------------------------------------------------
  // Serial numbers by customer

  /** The serial number of the last listed customer with id `id`, which
      is what `map.set` in list order leaves behind. */
  function LastSrNo(cs: seq<Customer>, id: string): (n: Option<int>)
    ensures n.None? <==> forall c :: c in cs ==> c.id != id
    ensures n.Some? ==> exists i :: (0 <= i < |cs| && cs[i].id == id && cs[i].srNo == n.value
      && forall j :: i < j < |cs| ==> cs[j].id != id)
  {
    if cs == [] then None
    else if cs[|cs| - 1].id == id then Some(cs[|cs| - 1].srNo)
    else
      var prefix := cs[..|cs| - 1];
      assert cs == prefix + [cs[|cs| - 1]];
      assert forall i :: 0 <= i < |prefix| ==> prefix[i] == cs[i];
      LastSrNo(prefix, id)
  }

  /** `customerSrNoMap` */
  method SrNoMap(cs: seq<Customer>) returns (m: map<string, int>)
    ensures forall id :: id in m <==> LastSrNo(cs, id).Some?
    ensures forall id :: id in m ==> m[id] == LastSrNo(cs, id).value
  {
    m := map[];
    var i := 0;
    while i < |cs|
      invariant 0 <= i <= |cs|
      invariant forall id :: id in m <==> LastSrNo(cs[..i], id).Some?
      invariant forall id :: id in m ==> m[id] == LastSrNo(cs[..i], id).value
    {
      assert cs[..i + 1][..i] == cs[..i];
      m := m[cs[i].id := cs[i].srNo];
      i := i + 1;
    }
    assert cs[..|cs|] == cs;
  }

  // ---------------------------------------------------------------------------
  // The latest receipt of each customer

  function DateKey(r: Receipt): real { r.date as real }

  /** The first receipt with the greatest date. */
  function FirstNewest(s: seq<Receipt>): Receipt
    requires s != []
  {
    s[FirstMaxIndex(s, DateKey)]
  }

  /** One more receipt replaces the candidate only when it is strictly newer. */
  lemma FirstNewestSnoc(s: seq<Receipt>, x: Receipt)
    ensures FirstNewest(s + [x]) == (if s == [] || x.date > FirstNewest(s).date then x else FirstNewest(s))
  {
    var t := s + [x];
    if s != [] {
      assert t[..|t| - 1] == s;
    }
  }

  /** The scan's map holds, for every customer seen in `prefix`, the first
      of their receipts with the greatest date. */
  ghost predicate LatestSoFar(prefix: seq<Receipt>, latest: map<string, Receipt>) {
    (forall k :: k in latest <==> ReceiptsOf(prefix, k) != [])
    && forall k :: k in latest ==> latest[k] == FirstNewest(ReceiptsOf(prefix, k))
  }

  /** One step of the scan: `r` replaces the candidate for its customer
      when there is none or when it is strictly newer. */
  function ScanStep(latest: map<string, Receipt>, r: Receipt): map<string, Receipt> {
    if r.customerId !in latest || r.date > latest[r.customerId].date then latest[r.customerId := r] else latest
  }

  lemma ScanStepKeepsLatest(prefix: seq<Receipt>, r: Receipt, latest: map<string, Receipt>)
    requires LatestSoFar(prefix, latest)
    ensures LatestSoFar(prefix + [r], ScanStep(latest, r))
  {
    var next := ScanStep(latest, r);
    forall k
      ensures k in next <==> ReceiptsOf(prefix + [r], k) != []
      ensures k in next ==> next[k] == FirstNewest(ReceiptsOf(prefix + [r], k))
    {
      ReceiptsOfSnoc(prefix, r, k);
      if k == r.customerId {
        FirstNewestSnoc(ReceiptsOf(prefix, k), r);
      } else {
        assert ReceiptsOf(prefix + [r], k) == ReceiptsOf(prefix, k);
      }
    }
  }

  /** `latestReceiptMap`: for every customer with receipts, the first of
      their receipts with the greatest date. */
  method LatestByCustomer(rs: seq<Receipt>) returns (latest: map<string, Receipt>)
    ensures LatestSoFar(rs, latest)
  {
    latest := map[];
    var i := 0;
    while i < |rs|
      invariant 0 <= i <= |rs|
      invariant LatestSoFar(rs[..i], latest)
    {
      assert rs[..i + 1] == rs[..i] + [rs[i]];
      ScanStepKeepsLatest(rs[..i], rs[i], latest);
      latest := ScanStep(latest, rs[i]);
      i := i + 1;
    }
    assert rs[..|rs|] == rs;
  }

  /** A receipt with its serial number (None stands for 'N/A') and the
      latest flag. */
  datatype Enriched = Enriched(receipt: Receipt, customerSrNo: Option<int>, isLatest: bool)

  /** `customerSrNoMap.get(customerId) || 'N/A'` */
  function SrNoOf(cs: seq<Customer>, customerId: string): Option<int> {
    var n := LastSrNo(cs, customerId);
    if n.Some? && n.value != 0 then n else None
  }

  /** `latestReceiptMap.get(r.customerId)?._id === r._id` */
  predicate IsLatest(rs: seq<Receipt>, r: Receipt) {
    ReceiptsOf(rs, r.customerId) != [] && FirstNewest(ReceiptsOf(rs, r.customerId)).id == r.id
  }

  /** The enriched `part` of the list `all`. */
  function EnrichFrom(all: seq<Receipt>, part: seq<Receipt>, cs: seq<Customer>): (es: seq<Enriched>)
    ensures |es| == |part|
    ensures forall i :: 0 <= i < |part| ==>
      es[i] == Enriched(part[i], SrNoOf(cs, part[i].customerId), IsLatest(all, part[i]))
  {
    if part == [] then []
    else
      var last := part[|part| - 1];
      var prefix := part[..|part| - 1];
      assert forall i :: 0 <= i < |prefix| ==> prefix[i] == part[i];
      EnrichFrom(all, prefix, cs) + [Enriched(last, SrNoOf(cs, last.customerId), IsLatest(all, last))]
  }

  /** `enrichedReceipts` as a function of the receipts and the customers. */
  function Enrich(rs: seq<Receipt>, cs: seq<Customer>): (es: seq<Enriched>)
    ensures |es| == |rs|
    ensures forall i :: 0 <= i < |rs| ==>
      es[i].receipt == rs[i] && es[i].customerSrNo == SrNoOf(cs, rs[i].customerId) && es[i].isLatest == IsLatest(rs, rs[i])
  {
    EnrichFrom(rs, rs, cs)
  }

  /** One element of `enrichedReceipts`, read off the two maps. */
  method EnrichOne(r: Receipt, srNos: map<string, int>, latest: map<string, Receipt>, rs: seq<Receipt>, cs: seq<Customer>)
    returns (e: Enriched)
    requires forall id :: id in srNos <==> LastSrNo(cs, id).Some?
    requires forall id :: id in srNos ==> srNos[id] == LastSrNo(cs, id).value
    requires LatestSoFar(rs, latest)
    ensures e == Enriched(r, SrNoOf(cs, r.customerId), IsLatest(rs, r))
  {
    var n := if r.customerId in srNos && srNos[r.customerId] != 0 then Some(srNos[r.customerId]) else None;
    var flag := r.customerId in latest && latest[r.customerId].id == r.id;
    e := Enriched(r, n, flag);
  }

  /** The `useMemo` of `enrichedReceipts`: the two maps, then one pass. */
  method EnrichReceipts(rs: seq<Receipt>, cs: seq<Customer>) returns (es: seq<Enriched>)
    ensures es == Enrich(rs, cs)
  {
    var srNos := SrNoMap(cs);
    var latest := LatestByCustomer(rs);
    es := [];
    var i := 0;
    while i < |rs|
      invariant 0 <= i <= |rs|
      invariant es == EnrichFrom(rs, rs[..i], cs)
    {
      var e := EnrichOne(rs[i], srNos, latest, rs, cs);
      EnrichFromStep(rs, i, cs);
      es := es + [e];
      i := i + 1;
    }
    assert rs[..|rs|] == rs;
  }

  lemma EnrichFromStep(rs: seq<Receipt>, i: nat, cs: seq<Customer>)
    requires i < |rs|
    ensures EnrichFrom(rs, rs[..i + 1], cs)
            == EnrichFrom(rs, rs[..i], cs) + [Enriched(rs[i], SrNoOf(cs, rs[i].customerId), IsLatest(rs, rs[i]))]
  {
    assert rs[..i + 1][..i] == rs[..i];
  }

  /** No two receipts share an id. */
  predicate UniqueIds(rs: seq<Receipt>) {
    forall i, j :: 0 <= i < |rs| && 0 <= j < |rs| && rs[i].id == rs[j].id ==> i == j
  }

  /** With unique ids, every customer who has receipts has exactly one
      flagged as latest; its date is the greatest among theirs, and every
      receipt of theirs listed before it is strictly older. */
  lemma ExactlyOneLatest(rs: seq<Receipt>, k: string)
    requires UniqueIds(rs)
    requires exists x :: x in rs && x.customerId == k
    ensures exists i :: 0 <= i < |rs| && rs[i].customerId == k && IsLatest(rs, rs[i])
    ensures forall i, j :: (0 <= i < |rs| && 0 <= j < |rs| && rs[i].customerId == k && rs[j].customerId == k
      && IsLatest(rs, rs[i]) && IsLatest(rs, rs[j])) ==> i == j
    ensures forall i :: 0 <= i < |rs| && rs[i].customerId == k && IsLatest(rs, rs[i]) ==>
      forall x :: x in rs && x.customerId == k ==> x.date <= rs[i].date
    ensures ReceiptsOf(rs, k) != [] &&
      var g := ReceiptsOf(rs, k);
      forall m :: 0 <= m < FirstMaxIndex(g, DateKey) ==> g[m].date < FirstNewest(g).date
  {
    var g := ReceiptsOf(rs, k);
    var x :| x in rs && x.customerId == k;
    assert x in g;
    var top := FirstNewest(g);
    assert top in g;
    var i :| 0 <= i < |rs| && rs[i] == top;
    assert IsLatest(rs, rs[i]);
    forall a, b | 0 <= a < |rs| && 0 <= b < |rs| && rs[a].customerId == k && rs[b].customerId == k
      && IsLatest(rs, rs[a]) && IsLatest(rs, rs[b])
      ensures a == b
    {
      assert rs[a].id == top.id && rs[b].id == top.id;
    }
    forall a | 0 <= a < |rs| && rs[a].customerId == k && IsLatest(rs, rs[a])
      ensures forall y :: y in rs && y.customerId == k ==> y.date <= rs[a].date
    {
      assert rs[a].id == top.id;
      assert rs[a] == top by {
        assert rs[a].id == rs[i].id;
      }
      forall y | y in rs && y.customerId == k
        ensures y.date <= top.date
      {
        assert y in g;
        var m :| 0 <= m < |g| && g[m] == y;
      }
    }
  }

  // ---------------------------------------------------------------------------
  // Search and date filter

  datatype DateFilter = AllTime | Today | LastWeek | ThisMonth

  /** `receipt.customerSrNo.toString()` */
  function SrNoText(n: Option<int>): string {
    if n.Some? then IntToString(n.value) else "N/A"
  }

  /** The search matches on a lower-case substring of the customer's or
      the business's name, or on the serial number's text exactly. */
  predicate MatchesSearch(e: Enriched, search: string) {
    var term := ToLower(search);
    term == ""
    || Contains(ToLower(TextOf(e.receipt.customerName)), term)
    || SrNoText(e.customerSrNo) == term
    || Contains(ToLower(TextOf(e.receipt.businessName)), term)
  }

  /** The date filter at time `now`: the same day, within the last seven
      days, or the same month. */
  predicate MatchesDate(e: Enriched, f: DateFilter, now: int, cal: Calendar) {
    match f
    case AllTime => true
    case Today => cal.dayOf(e.receipt.date) == cal.dayOf(now)
    case LastWeek => e.receipt.date > now - 7 * DayMillis
    case ThisMonth => cal.monthOf(e.receipt.date) == cal.monthOf(now)
  }

  /** `filteredReceipts`, in list order. */
  function FilterEnriched(es: seq<Enriched>, search: string, f: DateFilter, now: int, cal: Calendar): (out: seq<Enriched>)
    ensures forall x :: x in out <==> x in es && MatchesSearch(x, search) && MatchesDate(x, f, now, cal)
    ensures |out| <= |es|
  {
    if es == [] then []
    else
      var rest := FilterEnriched(es[1..], search, f, now, cal);
      assert es == [es[0]] + es[1..];
      if MatchesSearch(es[0], search) && MatchesDate(es[0], f, now, cal) then [es[0]] + rest else rest
  }

  /** Filtering keeps the order: the matching receipts, in their order in the list, since filtering a
      concatenation filters each part. */
  lemma {:induction false} FilterEnrichedAppend(a: seq<Enriched>, b: seq<Enriched>, search: string, f: DateFilter, now: int, cal: Calendar)
    ensures FilterEnriched(a + b, search, f, now, cal) == FilterEnriched(a, search, f, now, cal) + FilterEnriched(b, search, f, now, cal)
    decreases |a|
  {
    if a == [] {
      assert a + b == b;
    } else {
      assert (a + b)[0] == a[0] && (a + b)[1..] == a[1..] + b;
      FilterEnrichedAppend(a[1..], b, search, f, now, cal);
    }
  }

  /** An empty search with the all-time filter keeps the whole list. */
  lemma {:induction false} EmptySearchKeepsAll(es: seq<Enriched>, now: int, cal: Calendar)
    ensures FilterEnriched(es, "", AllTime, now, cal) == es
  {
    if es != [] {
      EmptySearchKeepsAll(es[1..], now, cal);
      assert es == [es[0]] + es[1..];
    }
  }

  /** The serial-number match never picks a receipt without a number: the
      search text is lower-cased and 'N/A' is not. */
  lemma NoSrNoNeverMatchesBySrNo(search: string)
    ensures SrNoText(None) != ToLower(search)
  {
    if |search| == 3 {
      assert ToLower(search)[0] == LowerChar(search[0]);
    }
  }

  // ---------------------------------------------------------------------------
  // Sorting

  datatype SortField = BySrNo | ByName | ByDate | ByIncome | ByFinal
  /** `handleSort(field)` on the state `(sortBy, sortOrder)`: the same field
      flips the order, a new field starts descending. */
  function NextSort(sortBy: SortField, order: SortOrder, field: SortField): (r: (SortField, SortOrder))
    ensures r.0 == field
    ensures sortBy == field ==> r.1 == Flip(order)
    ensures sortBy != field ==> r.1 == Desc
  {
    if sortBy == field then (sortBy, Flip(order)) else (field, Desc)
  }

  /** Two clicks on the field already sorted by give back the same state. */
  lemma SortTwiceRestores(sortBy: SortField, order: SortOrder)
    ensures var s := NextSort(sortBy, order, sortBy); NextSort(s.0, s.1, sortBy) == (sortBy, order)
  {
  }

  /** `String(v || '').toLowerCase()` for the text columns. */
  function TextKey(v: JsVal): string { ToLower(TextOf(v)) }

  /** The numeric value the comparator reads: the timestamp, or
      `Number(v) || 0` for the amounts and, as corrected, the serial number. */
  function NumKey(f: SortField, e: Enriched): real {
    match f
    case ByDate => e.receipt.date as real
    case ByIncome => NumberOr0(e.receipt.totalIncome)
    case ByFinal => NumberOr0(e.receipt.finalTotalAfterChuk)
    case BySrNo => if e.customerSrNo.Some? then e.customerSrNo.value as real else 0.0
    case ByName => 0.0
  }

  /** The comparator as written: the serial number falls into the text
      branch, so it is compared as text. */
  function CompareAsWritten(f: SortField, o: SortOrder, x: Enriched, y: Enriched): (c: int)
    ensures c == 1 || c == -1
  {
    match f
    case ByName => CompareText(TextKey(x.receipt.customerName), TextKey(y.receipt.customerName), o)
    case BySrNo => CompareText(ToLower(SrNoText(x.customerSrNo)), ToLower(SrNoText(y.customerSrNo)), o)
    case _ => CompareNum(NumKey(f, x), NumKey(f, y), o)
  }

  /** The comparator with the serial number compared as a number. */
  function Compare(f: SortField, o: SortOrder, x: Enriched, y: Enriched): (c: int)
    ensures c == 1 || c == -1
    ensures !f.ByName? ==> c == CompareNum(NumKey(f, x), NumKey(f, y), o)
    ensures f != BySrNo ==> c == CompareAsWritten(f, o, x, y)
  {
    if f.ByName? then CompareText(TextKey(x.receipt.customerName), TextKey(y.receipt.customerName), o)
    else CompareNum(NumKey(f, x), NumKey(f, y), o)
  }

  /** As written, sorting by serial number ascending puts customer 10
      before customer 9, because "10" < "9" as text. */
  lemma SrNoSortsAsText(x: Enriched, y: Enriched)
    requires x.customerSrNo == Some(9) && y.customerSrNo == Some(10)
    ensures CompareAsWritten(BySrNo, Asc, x, y) == 1
    ensures Compare(BySrNo, Asc, x, y) == -1
  {
    assert SrNoText(Some(9)) == "9";
    assert NatToString(10) == NatToString(1) + [DigitChar(0)];
    assert SrNoText(Some(10)) == "10";
    assert ToLower("9") == "9";
    assert ToLower("10") == "10";
    assert StringLess("10", "9");
  }

  /** The sorted list: a permutation of the filtered one in which the
      comparator asks for no pair to be swapped. The browser's order among
      receipts with equal keys is left to the engine; the model picks one. */
  function SortEnriched(es: seq<Enriched>, f: SortField, o: SortOrder): (r: seq<Enriched>)
    ensures multiset(r) == multiset(es) && |r| == |es|
    ensures forall i, j :: 0 <= i < j < |r| ==> Compare(f, o, r[i], r[j]) == -1
  {
    if f.ByName? then SortByName(es, o) else SortByNumber(es, f, o)
  }

  function SortByName(es: seq<Enriched>, o: SortOrder): (r: seq<Enriched>)
    ensures multiset(r) == multiset(es) && |r| == |es|
    ensures forall i, j :: 0 <= i < j < |r| ==> Compare(ByName, o, r[i], r[j]) == -1
  {
    if o.Asc? then SortByNameAsc(es) else SortByNameDesc(es)
  }

  function SortByNameAsc(es: seq<Enriched>): (r: seq<Enriched>)
    ensures multiset(r) == multiset(es) && |r| == |es|
    ensures forall i, j :: 0 <= i < j < |r| ==> Compare(ByName, Asc, r[i], r[j]) == -1
  {
    var key := (e: Enriched) => TextKey(e.receipt.customerName);
    var r := SortByText(es, key);
    assert forall i, j :: 0 <= i < j < |r| ==> !StringLess(key(r[j]), key(r[i]));
    r
  }

  function SortByNameDesc(es: seq<Enriched>): (r: seq<Enriched>)
    ensures multiset(r) == multiset(es) && |r| == |es|
    ensures forall i, j :: 0 <= i < j < |r| ==> Compare(ByName, Desc, r[i], r[j]) == -1
  {
    var key := (e: Enriched) => TextKey(e.receipt.customerName);
    var r := SortByTextDesc(es, key);
    assert forall i, j :: 0 <= i < j < |r| ==> !StringLess(key(r[i]), key(r[j]));
    r
  }

  function SortByNumber(es: seq<Enriched>, f: SortField, o: SortOrder): (r: seq<Enriched>)
    requires !f.ByName?
    ensures multiset(r) == multiset(es) && |r| == |es|
    ensures forall i, j :: 0 <= i < j < |r| ==> Compare(f, o, r[i], r[j]) == -1
  {
    if o.Asc? then
      var key := (e: Enriched) => NumKey(f, e);
      var r := SortBy(es, key);
      assert forall i, j :: 0 <= i < j < |r| ==> key(r[i]) <= key(r[j]);
      r
    else
      var key := (e: Enriched) => -NumKey(f, e);
      var r := SortBy(es, key);
      assert forall i, j :: 0 <= i < j < |r| ==> key(r[i]) <= key(r[j]);
      r
  }

  // ---------------------------------------------------------------------------
  // Deleting

  /** `prev.filter((r) => r._id !== id)` */
  function WithoutId(rs: seq<Receipt>, id: string): (out: seq<Receipt>)
    ensures forall x :: x in out <==> x in rs && x.id != id
    ensures |out| <= |rs|
  {
    if rs == [] then []
    else
      var rest := WithoutId(rs[1..], id);
      assert rs == [rs[0]] + rs[1..];
      if rs[0].id != id then [rs[0]] + rest else rest
  }

  lemma {:induction false} WithoutAbsentId(rs: seq<Receipt>, id: string)
    requires forall x :: x in rs ==> x.id != id
    ensures WithoutId(rs, id) == rs
  {
    if rs != [] {
      assert rs == [rs[0]] + rs[1..];
      WithoutAbsentId(rs[1..], id);
    }
  }

  /** With unique ids, deleting a listed receipt removes exactly it and
      keeps the rest in order. */
  lemma {:induction false} DeleteRemovesExactlyOne(rs: seq<Receipt>, i: nat)
    requires UniqueIds(rs) && i < |rs|
    ensures WithoutId(rs, rs[i].id) == rs[..i] + rs[i + 1..]
  {
    var id := rs[i].id;
    var t := rs[1..];
    assert rs == [rs[0]] + t;
    if i == 0 {
      HeadIdNotInTail(rs);
      WithoutAbsentId(t, id);
    } else {
      assert rs[0].id != id;
      UniqueTail(rs);
      assert t[i - 1].id == id;
      DeleteRemovesExactlyOne(t, i - 1);
      assert WithoutId(rs, id) == [rs[0]] + WithoutId(t, id);
      SplitAfterHead(rs, i);
    }
  }

  lemma SplitAfterHead(rs: seq<Receipt>, i: nat)
    requires 0 < i < |rs|
    ensures rs[..i] + rs[i + 1..] == [rs[0]] + (rs[1..][..i - 1] + rs[1..][i..])
  {
    assert rs[..i] == [rs[0]] + rs[1..][..i - 1];
    assert rs[i + 1..] == rs[1..][i..];
  }

  lemma HeadIdNotInTail(rs: seq<Receipt>)
    requires UniqueIds(rs) && rs != []
    ensures forall x :: x in rs[1..] ==> x.id != rs[0].id
  {
    forall x | x in rs[1..] ensures x.id != rs[0].id {
      var j :| 0 <= j < |rs[1..]| && rs[1..][j] == x;
      assert rs[j + 1] == x;
    }
  }

  lemma UniqueTail(rs: seq<Receipt>)
    requires UniqueIds(rs) && rs != []
    ensures UniqueIds(rs[1..])
  {
    var t := rs[1..];
    forall a, b | 0 <= a < |t| && 0 <= b < |t| && t[a].id == t[b].id ensures a == b {
      assert rs[a + 1].id == rs[b + 1].id;
    }
  }

  // ---------------------------------------------------------------------------
  // The list's state

  /** The component's state. Derived lists are computed from it. */
  class ReceiptsView {
    var receipts: seq<Receipt>
    var customerList: seq<Customer>
    var search: string
    var sortBy: SortField
    var sortOrder: SortOrder
    var dateFilter: DateFilter

    constructor()
      ensures receipts == [] && customerList == [] && search == ""
      ensures sortBy == ByDate && sortOrder == Desc && dateFilter == AllTime
    {
      receipts := [];
      customerList := [];
      search := "";
      sortBy := ByDate;
      sortOrder := Desc;
      dateFilter := AllTime;
    }

    /** `fetchReceipts`: newest date first. */
    method ReceiptsLoaded(fetched: seq<Receipt>)
      modifies this
      ensures receipts == NewestFirst(fetched)
      ensures customerList == old(customerList) && search == old(search)
      ensures sortBy == old(sortBy) && sortOrder == old(sortOrder) && dateFilter == old(dateFilter)
    {
      receipts := NewestFirst(fetched);
    }

    /** `fetchCustomers`: ordered by serial number and renumbered from 1. */
    method CustomersLoaded(fetched: seq<Customer>)
      modifies this
      ensures customerList == Renumber(fetched)
      ensures receipts == old(receipts) && search == old(search)
      ensures sortBy == old(sortBy) && sortOrder == old(sortOrder) && dateFilter == old(dateFilter)
    {
      customerList := Renumber(fetched);
    }

    method SetSearch(text: string)
      modifies this
      ensures search == text
      ensures receipts == old(receipts) && customerList == old(customerList)
      ensures sortBy == old(sortBy) && sortOrder == old(sortOrder) && dateFilter == old(dateFilter)
    {
      search := text;
    }

    method SetDateFilter(f: DateFilter)
      modifies this
      ensures dateFilter == f
      ensures receipts == old(receipts) && customerList == old(customerList)
      ensures sortBy == old(sortBy) && sortOrder == old(sortOrder) && search == old(search)
    {
      dateFilter := f;
    }

    /** `handleSort(field)` */
    method HandleSort(field: SortField)
      modifies this
      ensures (sortBy, sortOrder) == NextSort(old(sortBy), old(sortOrder), field)
      ensures receipts == old(receipts) && customerList == old(customerList)
      ensures search == old(search) && dateFilter == old(dateFilter)
    {
      if sortBy == field {
        sortOrder := if sortOrder == Asc then Desc else Asc;
      } else {
        sortBy := field;
        sortOrder := Desc;
      }
    }

    /** The local update after a successful delete of receipt `id`. */
    method DeletedLocally(id: string)
      modifies this
      ensures receipts == WithoutId(old(receipts), id)
      ensures customerList == old(customerList) && search == old(search)
      ensures sortBy == old(sortBy) && sortOrder == old(sortOrder) && dateFilter == old(dateFilter)
    {
      receipts := WithoutId(receipts, id);
    }

    /** The list on screen at time `now`. */
    function Shown(now: int, cal: Calendar): seq<Enriched>
      reads this
    {
      SortEnriched(FilterEnriched(Enrich(receipts, customerList), search, dateFilter, now, cal), sortBy, sortOrder)
    }

    /** Computes the list on screen, changing nothing. */
    method Displayed(now: int, cal: Calendar) returns (es: seq<Enriched>)
      ensures es == Shown(now, cal)
    {
      var enriched := EnrichReceipts(receipts, customerList);
      es := SortEnriched(FilterEnriched(enriched, search, dateFilter, now, cal), sortBy, sortOrder);
    }
  }
}
