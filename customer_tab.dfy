/** The customer list: customers numbered by their position in the list,
    the search over name, number and address, the column sort, the summary
    figures, the details of one customer with totals over their receipts,
    and the local updates after adding, editing and deleting a customer. */
module CustomerTab {
  import opened Js
  import opened Records
  import opened Ordering
  import opened CarryOver
  import Report

  // ---------------------------------------------------------------------------
  // Numbering on screen

  /** A customer with the number shown in the first column. */
  datatype Listed = Listed(customer: Customer, displaySrNo: nat)

  /** `customers.map((customer, index) => ({ ...customer, displaySrNo: index + 1 }))` */
  function WithDisplaySrNo(cs: seq<Customer>): (ls: seq<Listed>)
    ensures |ls| == |cs|
    ensures forall i :: 0 <= i < |cs| ==> ls[i].customer == cs[i] && ls[i].displaySrNo == i + 1
  {
    seq(|cs|, i requires 0 <= i < |cs| => Listed(cs[i], i + 1))
  }

  // ---------------------------------------------------------------------------
  // Search

  /** A customer matches when the lower-cased search text occurs in the
      lower-cased name, in the displayed number, or in the lower-cased
      address when there is one. */
  predicate Matches(l: Listed, search: string) {
    var term := ToLower(search);
    Contains(ToLower(l.customer.name), term)
    || Contains(NatToString(l.displaySrNo), term)
    || (l.customer.address.Str? && l.customer.address.s != "" && Contains(ToLower(l.customer.address.s), term))
  }

  /** The customers the search keeps, in list order. */
  function FilterListed(ls: seq<Listed>, search: string): (r: seq<Listed>)
    ensures forall l :: l in r <==> l in ls && Matches(l, search)
    ensures |r| <= |ls|
  {
    if ls == [] then []
    else
      var rest := FilterListed(ls[1..], search);
      assert ls == [ls[0]] + ls[1..];
      if Matches(ls[0], search) then [ls[0]] + rest else rest
  }

  /** Filtering keeps the order: the matching customers, in their order in the list, since filtering a
      concatenation filters each part. */
  lemma {:induction false} FilterListedAppend(a: seq<Listed>, b: seq<Listed>, search: string)
    ensures FilterListed(a + b, search) == FilterListed(a, search) + FilterListed(b, search)
    decreases |a|
  {
    if a == [] {
      assert a + b == b;
    } else {
      assert (a + b)[0] == a[0] && (a + b)[1..] == a[1..] + b;
      FilterListedAppend(a[1..], b, search);
    }
  }

  /** An empty search shows every customer. */
  lemma {:induction false} EmptySearchShowsAll(ls: seq<Listed>)
    ensures FilterListed(ls, "") == ls
  {
    if ls != [] {
      ContainsEmpty(ToLower(ls[0].customer.name));
      EmptySearchShowsAll(ls[1..]);
      assert ls == [ls[0]] + ls[1..];
    }
  }

  lemma DigitsAreLowerCase(s: string)
    requires AllDigits(s)
    ensures ToLower(s) == s
  {
    assert forall i :: 0 <= i < |s| ==> ToLower(s)[i] == s[i];
  }

  /** Typing a customer's displayed number finds that customer. */
  lemma SearchByNumberFinds(cs: seq<Customer>, i: nat)
    requires i < |cs|
    ensures WithDisplaySrNo(cs)[i] in FilterListed(WithDisplaySrNo(cs), NatToString(i + 1))
  {
    var ls := WithDisplaySrNo(cs);
    DigitsAreLowerCase(NatToString(i + 1));
    ContainsItself(NatToString(i + 1));
    assert Matches(ls[i], NatToString(i + 1));
  }

  // ---------------------------------------------------------------------------
  // Sorting

  datatype SortField = BySrNo | ByDisplaySrNo | ByName | ByAddress | ByBalance

  predicate IsTextField(f: SortField) { f.ByName? || f.ByAddress? }

  /** `Number(v)`, with `Number(v) || 0` for the balance. */
  function NumKey(f: SortField, l: Listed): real {
    match f
    case BySrNo => l.customer.srNo as real
    case ByDisplaySrNo => l.displaySrNo as real
    case ByBalance => NumberOr0(l.customer.latestBalance)
    case _ => 0.0
  }

  /** `String(v || '').toLowerCase()` */
  function TextKey(f: SortField, l: Listed): string {
    if f.ByName? then ToLower(l.customer.name) else ToLower(TextOf(l.customer.address))
  }

  /** The list's comparator: numbers for the number and balance columns,
      lower-cased text for name and address. */
  function Compare(f: SortField, o: SortOrder, x: Listed, y: Listed): (c: int)
    ensures c == 1 || c == -1
    ensures IsTextField(f) ==> (c == 1 <==> (if o.Asc? then StringLess(TextKey(f, y), TextKey(f, x)) else StringLess(TextKey(f, x), TextKey(f, y))))
    ensures !IsTextField(f) ==> (c == 1 <==> (if o.Asc? then NumKey(f, x) > NumKey(f, y) else NumKey(f, x) < NumKey(f, y)))
  {
    if IsTextField(f) then CompareText(TextKey(f, x), TextKey(f, y), o)
    else CompareNum(NumKey(f, x), NumKey(f, y), o)
  }

  /** The sorted list: a permutation of the filtered one in which the
      comparator asks for no pair to be swapped. The browser's order among
      customers with equal keys is left to the engine; the model picks one. */
  function SortListed(ls: seq<Listed>, f: SortField, o: SortOrder): (r: seq<Listed>)
    ensures multiset(r) == multiset(ls) && |r| == |ls|
    ensures forall i, j :: 0 <= i < j < |r| ==> Compare(f, o, r[i], r[j]) == -1
  {
    if IsTextField(f) then
      var key := (l: Listed) => TextKey(f, l);
      if o.Asc? then
        var r := SortByText(ls, key);
        assert forall i, j :: 0 <= i < j < |r| ==> !StringLess(key(r[j]), key(r[i]));
        r
      else
        var r := SortByTextDesc(ls, key);
        assert forall i, j :: 0 <= i < j < |r| ==> !StringLess(key(r[i]), key(r[j]));
        r
    else if o.Asc? then
      var key := (l: Listed) => NumKey(f, l);
      var r := SortBy(ls, key);
      assert forall i, j :: 0 <= i < j < |r| ==> key(r[i]) <= key(r[j]);
      r
    else
      var key := (l: Listed) => -NumKey(f, l);
      var r := SortBy(ls, key);
      assert forall i, j :: 0 <= i < j < |r| ==> key(r[i]) <= key(r[j]);
      r
  }

  /** `handleSort(field)`: the same field flips the order, a new field
      starts ascending. */
  function NextSort(sortBy: SortField, order: SortOrder, field: SortField): (r: (SortField, SortOrder))
    ensures r.0 == field
    ensures sortBy == field ==> r.1 == Flip(order)
    ensures sortBy != field ==> r.1 == Asc
  {
    if sortBy == field then (sortBy, Flip(order)) else (field, Asc)
  }

  /** Two clicks on the field already sorted by give back the same state,
      and a click on another field and back sorts descending. */
  lemma SortClicks(sortBy: SortField, order: SortOrder, other: SortField)
    ensures var s := NextSort(sortBy, order, sortBy); NextSort(s.0, s.1, sortBy) == (sortBy, order)
    ensures other != sortBy ==>
      var s := NextSort(sortBy, order, other); NextSort(s.0, s.1, other) == (other, Desc)
  {
  }

  // ---------------------------------------------------------------------------
  // Summary figures

  /** A customer with a positive balance counts as active. */
  predicate IsActive(c: Customer) { Report.Balance(c) > 0.0 }

  function CountActive(cs: seq<Customer>): (n: nat)
    ensures n <= |cs|
  {
    if cs == [] then 0
    else CountActive(cs[..|cs| - 1]) + (if IsActive(cs[|cs| - 1]) then 1 else 0)
  }

  datatype ListStats = ListStats(totalCustomers: nat, activeCustomers: nat, totalBalance: real)

  /** The three figures above the list, over all customers whatever the
      search. */
  function StatsOfList(cs: seq<Customer>): (s: ListStats)
    ensures s.totalCustomers == |cs|
    ensures s.activeCustomers <= s.totalCustomers
    ensures s.totalBalance == Report.SumBalances(cs)
  {
    ListStats(|cs|, CountActive(cs), Report.SumBalances(cs))
  }

  /** With no active customer the total balance is not positive; with every
      customer active (and at least one) it is positive. */
  lemma {:induction false} ActiveAndTotal(cs: seq<Customer>)
    ensures CountActive(cs) == 0 ==> Report.SumBalances(cs) <= 0.0
    ensures cs != [] && CountActive(cs) == |cs| ==> Report.SumBalances(cs) > 0.0
  {
    if cs != [] {
      var init := cs[..|cs| - 1];
      ActiveAndTotal(init);
      assert CountActive(init) <= |init|;
    }
  }

  // ---------------------------------------------------------------------------
  // One customer's details

  function IncomeOf(r: Receipt): JsVal { r.totalIncome }
  function PaymentOf(r: Receipt): JsVal { r.payment }
  function DeductionOf(r: Receipt): JsVal { r.deduction }

  /** `rs.reduce((sum, r) => sum + (field(r) || 0), 0)` */
  function SumOf(rs: seq<Receipt>, field: Receipt -> JsVal): real {
    if rs == [] then 0.0 else NumOrZero(field(rs[0])) + SumOf(rs[1..], field)
  }

  lemma {:induction false} SumOfRemove(rs: seq<Receipt>, k: nat, field: Receipt -> JsVal)
    requires k < |rs|
    ensures SumOf(rs, field) == NumOrZero(field(rs[k])) + SumOf(rs[..k] + rs[k + 1..], field)
  {
    if k == 0 {
      assert rs[..0] + rs[1..] == rs[1..];
    } else {
      SumOfRemove(rs[1..], k - 1, field);
      assert rs[1..][..k - 1] + rs[1..][k..] == (rs[..k] + rs[k + 1..])[1..];
    }
  }

  /** A sum does not depend on the order of the receipts. */
  lemma {:induction false} SumOfPermutation(a: seq<Receipt>, b: seq<Receipt>, field: Receipt -> JsVal)
    requires multiset(a) == multiset(b)
    ensures SumOf(a, field) == SumOf(b, field)
  {
    if a != [] {
      assert a[0] in multiset(b);
      var k :| 0 <= k < |b| && b[k] == a[0];
      var rest := b[..k] + b[k + 1..];
      RemoveMatching(a, b, k);
      SumOfPermutation(a[1..], rest, field);
      SumOfRemove(b, k, field);
    }
  }

  /** Taking the head of one list and a matching element of a
      permutation of it leaves two permutations of each other. */
  lemma RemoveMatching(a: seq<Receipt>, b: seq<Receipt>, k: nat)
    requires multiset(a) == multiset(b) && a != [] && k < |b| && b[k] == a[0]
    ensures multiset(a[1..]) == multiset(b[..k] + b[k + 1..])
  {
    assert a == [a[0]] + a[1..];
    assert b == b[..k] + [b[k]] + b[k + 1..];
    assert multiset(a[1..]) == multiset(a) - multiset{a[0]};
    assert multiset(b[..k] + b[k + 1..]) == multiset(b) - multiset{b[k]};
  }

  datatype CustomerStats = CustomerStats(
    totalReceipts: nat,
    totalIncome: real,
    totalPayment: real,
    totalDeduction: real,
    avgIncome: real,
    balance: real,
    recentReceipts: seq<Receipt>,
    allReceipts: seq<Receipt>)

  /** `count > 0 ? total / count : 0` */
  function Average(total: real, count: nat): (a: real)
    ensures count > 0 ==> a * (count as real) == total
    ensures count == 0 ==> a == 0.0
  {
    if count > 0 then total / (count as real) else 0.0
  }

  /** The details panel of customer `c` over all receipts `rs`. */
  function StatsFor(c: Customer, rs: seq<Receipt>): CustomerStats {
    var all := NewestFirst(ReceiptsOf(rs, c.id));
    var n := |all|;
    var income := SumOf(all, IncomeOf);
    CustomerStats(
      n,
      income,
      SumOf(all, PaymentOf),
      SumOf(all, DeductionOf),
      Average(income, n),
      Report.Balance(c),
      Take(all, 10),
      all)
  }

  /** The panel lists exactly the customer's receipts, newest first, and
      the ten newest of them. */
  lemma StatsListsOwnReceipts(c: Customer, rs: seq<Receipt>)
    ensures var s := StatsFor(c, rs);
      (forall r :: r in s.allReceipts <==> r in rs && r.customerId == c.id)
      && (forall i, j :: 0 <= i < j < |s.allReceipts| ==> s.allReceipts[i].date >= s.allReceipts[j].date)
      && s.totalReceipts == |ReceiptsOf(rs, c.id)| == |s.allReceipts|
      && |s.recentReceipts| == (if |s.allReceipts| < 10 then |s.allReceipts| else 10)
      && s.recentReceipts == s.allReceipts[..|s.recentReceipts|]
  {
    var own := ReceiptsOf(rs, c.id);
    var all := NewestFirst(own);
    assert forall i, j :: 0 <= i < j < |all| ==> NegDate(all[i]) <= NegDate(all[j]);
    assert forall r :: r in all <==> r in multiset(own);
  }

  /** The totals are sums over exactly the customer's receipts: sorting
      them first changes no sum. */
  lemma StatsTotals(c: Customer, rs: seq<Receipt>)
    ensures StatsFor(c, rs).totalIncome == SumOf(ReceiptsOf(rs, c.id), IncomeOf)
    ensures StatsFor(c, rs).totalPayment == SumOf(ReceiptsOf(rs, c.id), PaymentOf)
    ensures StatsFor(c, rs).totalDeduction == SumOf(ReceiptsOf(rs, c.id), DeductionOf)
  {
    var own := ReceiptsOf(rs, c.id);
    var all := NewestFirst(own);
    SumOfPermutation(all, own, IncomeOf);
    SumOfPermutation(all, own, PaymentOf);
    SumOfPermutation(all, own, DeductionOf);
  }

  // ---------------------------------------------------------------------------
  // Local list updates

  predicate UniqueIds(cs: seq<Customer>) {
    forall i, j :: 0 <= i < |cs| && 0 <= j < |cs| && cs[i].id == cs[j].id ==> i == j
  }

  /** `prev.map((customer) => customer._id === id ? updated : customer)` */
  function ReplaceById(cs: seq<Customer>, id: string, updated: Customer): (r: seq<Customer>)
    ensures |r| == |cs|
    ensures forall i :: 0 <= i < |cs| ==> r[i] == if cs[i].id == id then updated else cs[i]
  {
    seq(|cs|, i requires 0 <= i < |cs| => if cs[i].id == id then updated else cs[i])
  }

  /** With unique ids, saving an edit replaces exactly the edited customer;
      an id not in the list changes nothing. */
  lemma ReplaceOnlyThatOne(cs: seq<Customer>, k: nat, updated: Customer, id: string)
    requires UniqueIds(cs) && k < |cs|
    ensures ReplaceById(cs, cs[k].id, updated) == cs[..k] + [updated] + cs[k + 1..]
    ensures (forall i :: 0 <= i < |cs| ==> cs[i].id != id) ==> ReplaceById(cs, id, updated) == cs
  {
    var r := ReplaceById(cs, cs[k].id, updated);
    var want := cs[..k] + [updated] + cs[k + 1..];
    assert |r| == |want|;
    forall i | 0 <= i < |r| ensures r[i] == want[i] {
      if i < k {
        assert cs[i].id != cs[k].id;
      } else if i > k {
        assert cs[i].id != cs[k].id;
      }
    }
  }

  /** `prev.filter((c) => c._id !== id)` */
  function WithoutId(cs: seq<Customer>, id: string): (out: seq<Customer>)
    ensures forall x :: x in out <==> x in cs && x.id != id
    ensures |out| <= |cs|
  {
    if cs == [] then []
    else
      var rest := WithoutId(cs[1..], id);
      assert cs == [cs[0]] + cs[1..];
      if cs[0].id != id then [cs[0]] + rest else rest
  }

  lemma {:induction false} WithoutAbsentId(cs: seq<Customer>, id: string)
    requires forall i :: 0 <= i < |cs| ==> cs[i].id != id
    ensures WithoutId(cs, id) == cs
  {
    if cs != [] {
      assert cs == [cs[0]] + cs[1..];
      WithoutAbsentId(cs[1..], id);
    }
  }

  /** With unique ids, deleting a listed customer removes exactly them and
      keeps the rest in order. */
  lemma {:induction false} DeleteRemovesExactlyOne(cs: seq<Customer>, k: nat)
    requires UniqueIds(cs) && k < |cs|
    ensures WithoutId(cs, cs[k].id) == cs[..k] + cs[k + 1..]
  {
    var id := cs[k].id;
    var t := cs[1..];
    assert cs == [cs[0]] + t;
    if k == 0 {
      HeadIdNotInTail(cs);
      WithoutAbsentId(t, id);
    } else {
      assert cs[0].id != id;
      UniqueTail(cs);
      assert t[k - 1].id == id;
      DeleteRemovesExactlyOne(t, k - 1);
      assert WithoutId(cs, id) == [cs[0]] + WithoutId(t, id);
      SplitAfterHead(cs, k);
    }
  }

  lemma SplitAfterHead(cs: seq<Customer>, k: nat)
    requires 0 < k < |cs|
    ensures cs[..k] + cs[k + 1..] == [cs[0]] + (cs[1..][..k - 1] + cs[1..][k..])
  {
    assert cs[..k] == [cs[0]] + cs[1..][..k - 1];
    assert cs[k + 1..] == cs[1..][k..];
  }

  lemma HeadIdNotInTail(cs: seq<Customer>)
    requires UniqueIds(cs) && cs != []
    ensures forall j :: 0 <= j < |cs[1..]| ==> cs[1..][j].id != cs[0].id
  {
    forall j | 0 <= j < |cs[1..]| ensures cs[1..][j].id != cs[0].id {
      assert cs[1..][j] == cs[j + 1];
    }
  }

  lemma UniqueTail(cs: seq<Customer>)
    requires UniqueIds(cs) && cs != []
    ensures UniqueIds(cs[1..])
  {
    var t := cs[1..];
    forall a, b | 0 <= a < |t| && 0 <= b < |t| && t[a].id == t[b].id ensures a == b {
      assert cs[a + 1].id == cs[b + 1].id;
    }
  }

  /** What the customer request returned. */
  datatype Fetched = List(customers: seq<Customer>) | NotAList | Failed

  /** The customer list screen's state. */
  class CustomerList {
    var customers: seq<Customer>
    var search: string
    var sortBy: SortField
    var sortOrder: SortOrder
    var newName: string
    var newAddress: string
    var showAddForm: bool
    var editingId: Option<string>
    var editName: string
    var editAddress: string
    var showDetails: bool
    var selected: Option<Customer>
    var stats: Option<CustomerStats>

    constructor ()
      ensures customers == [] && search == ""
      ensures sortBy == BySrNo && sortOrder == Asc
      ensures newName == "" && newAddress == "" && !showAddForm
      ensures editingId == None
      ensures !showDetails && selected == None && stats == None
    {
      customers := [];
      search := "";
      sortBy := BySrNo;
      sortOrder := Asc;
      newName := "";
      newAddress := "";
      showAddForm := false;
      editingId := None;
      editName := "";
      editAddress := "";
      showDetails := false;
      selected := None;
      stats := None;
    }

    /** `fetchCustomers`: a list is kept sorted by stored serial number, a
        reply that is not a list empties the screen, a failed request (or
        no token) leaves it as it was. */
    method Loaded(reply: Fetched)
      modifies this
      ensures reply.List? ==> customers == SortBy(reply.customers, SrNoKey)
      ensures reply.NotAList? ==> customers == []
      ensures reply.Failed? ==> customers == old(customers)
      ensures search == old(search) && sortBy == old(sortBy) && sortOrder == old(sortOrder)
      ensures newName == old(newName) && newAddress == old(newAddress) && showAddForm == old(showAddForm)
      ensures editingId == old(editingId) && editName == old(editName) && editAddress == old(editAddress)
      ensures showDetails == old(showDetails) && selected == old(selected) && stats == old(stats)
    {
      match reply
      case List(cs) => customers := SortBy(cs, SrNoKey);
      case NotAList => customers := [];
      case Failed =>
    }

    /** `handleAddCustomer`: a blank name is refused before any request;
        otherwise, when the server returns the new customer, it is appended
        and the form is cleared and closed. Returns whether a request was
        sent. */
    method AddCustomer(created: Option<Customer>) returns (sent: bool)
      modifies this
      ensures sent <==> old(newName) != ""
      ensures sent && created.Some? ==>
        customers == old(customers) + [created.value] && newName == "" && newAddress == "" && !showAddForm
      ensures !(sent && created.Some?) ==>
        customers == old(customers) && newName == old(newName) && newAddress == old(newAddress) && showAddForm == old(showAddForm)
      ensures search == old(search) && sortBy == old(sortBy) && sortOrder == old(sortOrder)
      ensures editingId == old(editingId) && editName == old(editName) && editAddress == old(editAddress)
      ensures showDetails == old(showDetails) && selected == old(selected) && stats == old(stats)
    {
      if newName == "" {
        return false;
      }
      sent := true;
      if created.Some? {
        customers := customers + [created.value];
        newName := "";
        newAddress := "";
        showAddForm := false;
      }
    }

    /** `startEdit(customer)`: the edit row opens with the name and the
        address, a missing address as "". */
    method StartEdit(c: Customer)
      modifies this
      ensures editingId == Some(c.id) && editName == c.name
      ensures editAddress == (if Truthy(c.address) then TextOf(c.address) else "")
      ensures customers == old(customers) && search == old(search) && sortBy == old(sortBy) && sortOrder == old(sortOrder)
      ensures newName == old(newName) && newAddress == old(newAddress) && showAddForm == old(showAddForm)
      ensures showDetails == old(showDetails) && selected == old(selected) && stats == old(stats)
    {
      editingId := Some(c.id);
      editName := c.name;
      editAddress := if Truthy(c.address) then TextOf(c.address) else "";
    }

    /** `saveEdit(id)`: when the server returns the updated customer, it
        takes the place of every customer with that id and the edit row
        closes; a failed request changes nothing. */
    method SaveEdit(id: string, updated: Option<Customer>)
      modifies this
      ensures updated.Some? ==> customers == ReplaceById(old(customers), id, updated.value) && editingId == None
      ensures updated.None? ==> customers == old(customers) && editingId == old(editingId)
      ensures editName == old(editName) && editAddress == old(editAddress)
      ensures search == old(search) && sortBy == old(sortBy) && sortOrder == old(sortOrder)
      ensures newName == old(newName) && newAddress == old(newAddress) && showAddForm == old(showAddForm)
      ensures showDetails == old(showDetails) && selected == old(selected) && stats == old(stats)
    {
      if updated.Some? {
        customers := ReplaceById(customers, id, updated.value);
        editingId := None;
      }
    }

    /** `handleDeleteCustomer`: only a confirmed deletion that the server
        accepted removes the customer from the list. */
    method DeleteCustomer(target: Option<Customer>, confirmed: bool, succeeded: bool)
      modifies this
      ensures target.Some? && confirmed && succeeded ==> customers == WithoutId(old(customers), target.value.id)
      ensures !(target.Some? && confirmed && succeeded) ==> customers == old(customers)
      ensures search == old(search) && sortBy == old(sortBy) && sortOrder == old(sortOrder)
      ensures newName == old(newName) && newAddress == old(newAddress) && showAddForm == old(showAddForm)
      ensures editingId == old(editingId) && editName == old(editName) && editAddress == old(editAddress)
      ensures showDetails == old(showDetails) && selected == old(selected) && stats == old(stats)
    {
      if target.Some? && confirmed && succeeded {
        customers := WithoutId(customers, target.value.id);
      }
    }

    method SetSearch(s: string)
      modifies this
      ensures search == s
      ensures customers == old(customers) && sortBy == old(sortBy) && sortOrder == old(sortOrder)
      ensures newName == old(newName) && newAddress == old(newAddress) && showAddForm == old(showAddForm)
      ensures editingId == old(editingId) && editName == old(editName) && editAddress == old(editAddress)
      ensures showDetails == old(showDetails) && selected == old(selected) && stats == old(stats)
    {
      search := s;
    }

    method HandleSort(field: SortField)
      modifies this
      ensures (sortBy, sortOrder) == NextSort(old(sortBy), old(sortOrder), field)
      ensures customers == old(customers) && search == old(search)
      ensures newName == old(newName) && newAddress == old(newAddress) && showAddForm == old(showAddForm)
      ensures editingId == old(editingId) && editName == old(editName) && editAddress == old(editAddress)
      ensures showDetails == old(showDetails) && selected == old(selected) && stats == old(stats)
    {
      var next := NextSort(sortBy, sortOrder, field);
      sortBy := next.0;
      sortOrder := next.1;
    }

    /** The effect of the address bar on the details panel. With a customer
        id and a loaded list: a known customer opens with the totals over
        the fetched receipts (none when the request failed), an unknown one
        is reported and the screen goes back to the list (`true` is
        returned). Without an id an open panel closes. */
    method DetailsFromUrl(urlId: Option<string>, receipts: Option<seq<Receipt>>) returns (redirect: bool)
      modifies this
      ensures urlId.Some? && urlId.value != "" && customers != [] ==>
        match FindById(customers, urlId.value)
        case Some(c) =>
          !redirect && showDetails && selected == Some(c)
          && stats == (if receipts.Some? then Some(StatsFor(c, receipts.value)) else old(stats))
        case None =>
          redirect && showDetails == old(showDetails) && selected == old(selected) && stats == old(stats)
      ensures (urlId.None? || urlId.value == "") && old(showDetails) ==>
        !redirect && !showDetails && selected == None && stats == None
      ensures !(urlId.Some? && urlId.value != "" && customers != []) && !((urlId.None? || urlId.value == "") && old(showDetails)) ==>
        !redirect && showDetails == old(showDetails) && selected == old(selected) && stats == old(stats)
      ensures customers == old(customers) && search == old(search) && sortBy == old(sortBy) && sortOrder == old(sortOrder)
      ensures newName == old(newName) && newAddress == old(newAddress) && showAddForm == old(showAddForm)
      ensures editingId == old(editingId) && editName == old(editName) && editAddress == old(editAddress)
    {
      redirect := false;
      if urlId.Some? && urlId.value != "" && customers != [] {
        var found := FindById(customers, urlId.value);
        if found.Some? {
          selected := found;
          showDetails := true;
          if receipts.Some? {
            stats := Some(StatsFor(found.value, receipts.value));
          }
        } else {
          redirect := true;
        }
      } else if (urlId.None? || urlId.value == "") && showDetails {
        showDetails := false;
        selected := None;
        stats := None;
      }
    }

    /** The rows on screen: numbered in list order, searched, sorted. */
    function Shown(): (ls: seq<Listed>)
      reads this
      ensures forall l :: l in ls <==> l in WithDisplaySrNo(customers) && Matches(l, search)
      ensures forall i, j :: 0 <= i < j < |ls| ==> Compare(sortBy, sortOrder, ls[i], ls[j]) == -1
    {
      var r := SortListed(FilterListed(WithDisplaySrNo(customers), search), sortBy, sortOrder);
      assert forall l :: l in r <==> l in multiset(FilterListed(WithDisplaySrNo(customers), search));
      r
    }
  }

  /** After a load, the displayed numbers follow the stored serial numbers:
      a customer shown with a smaller number never has a larger stored one. */
  lemma LoadedNumbersFollowSrNo(fetched: seq<Customer>, i: nat, j: nat)
    requires i < j < |fetched|
    ensures var ls := WithDisplaySrNo(SortBy(fetched, SrNoKey));
      ls[i].displaySrNo < ls[j].displaySrNo && ls[i].customer.srNo <= ls[j].customer.srNo
  {
    var s := SortBy(fetched, SrNoKey);
    assert SrNoKey(s[i]) <= SrNoKey(s[j]);
  }
}
