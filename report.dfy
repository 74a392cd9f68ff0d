/** The balance report: every customer's latest balance split into येणे
    (yene, owed to the vendor) and देणे (dene, owed by the vendor), the
    report totals, the inline balance editor, the customer search, the
    ten-per-page table and the top-ten lists. */
module Report {
  import opened Js
  import opened Records
  import opened Ordering

  const ItemsPerPage := 10

  /** `c.latestBalance || 0`. Balances arrive as numbers; anything else
      reads as 0. */
  function Balance(c: Customer): real { NumOrZero(c.latestBalance) }

  /** `c.advanceAmount || 0` */
  function AdvanceOf(c: Customer): real { NumOrZero(c.advanceAmount) }

  // ---------------------------------------------------------------------------
  // The yene/dene split

  datatype Split = Split(yene: real, dene: real)

  /** A positive balance is yene, a negative one is dene in magnitude. */
  function SplitBalance(b: real): (s: Split)
    ensures s.yene >= 0.0 && s.dene >= 0.0
    ensures s.yene == 0.0 || s.dene == 0.0
    ensures s.yene - s.dene == b
  {
    Split(if b > 0.0 then b else 0.0, if b < 0.0 then -b else 0.0)
  }

  /** The split is the only pair of non-negative amounts, at most one of
      them non-zero, whose difference is the balance. */
  lemma SplitIsUnique(b: real, s: Split)
    requires s.yene >= 0.0 && s.dene >= 0.0 && (s.yene == 0.0 || s.dene == 0.0)
    requires s.yene - s.dene == b
    ensures s == SplitBalance(b)
  {
  }

  // ---------------------------------------------------------------------------
  // Report totals

  function TotalYene(cs: seq<Customer>): real {
    if cs == [] then 0.0 else TotalYene(cs[..|cs| - 1]) + SplitBalance(Balance(cs[|cs| - 1])).yene
  }

  function TotalDene(cs: seq<Customer>): real {
    if cs == [] then 0.0 else TotalDene(cs[..|cs| - 1]) + SplitBalance(Balance(cs[|cs| - 1])).dene
  }

  /** Only a positive advance counts (`c.advanceAmount && c.advanceAmount > 0`). */
  function TotalAdvance(cs: seq<Customer>): real {
    if cs == [] then 0.0
    else
      var a := AdvanceOf(cs[|cs| - 1]);
      TotalAdvance(cs[..|cs| - 1]) + (if a > 0.0 then a else 0.0)
  }

  function SumBalances(cs: seq<Customer>): real {
    if cs == [] then 0.0 else SumBalances(cs[..|cs| - 1]) + Balance(cs[|cs| - 1])
  }

  /** Both totals are non-negative and the net balance (yene − dene) is the
      sum of all balances; the advance total is non-negative. */
  lemma {:induction false} TotalsAgree(cs: seq<Customer>)
    ensures TotalYene(cs) >= 0.0 && TotalDene(cs) >= 0.0 && TotalAdvance(cs) >= 0.0
    ensures TotalYene(cs) - TotalDene(cs) == SumBalances(cs)
  {
    if cs != [] {
      TotalsAgree(cs[..|cs| - 1]);
    }
  }

  datatype Totals = Totals(netBalance: real, totalYene: real, totalDene: real, totalAdvance: real)

  /** The totals `useMemo`: one pass over the customers. */
  method ComputeTotals(cs: seq<Customer>) returns (t: Totals)
    ensures t == Totals(TotalYene(cs) - TotalDene(cs), TotalYene(cs), TotalDene(cs), TotalAdvance(cs))
  {
    var yene, dene, advance := 0.0, 0.0, 0.0;
    var i := 0;
    while i < |cs|
      invariant 0 <= i <= |cs|
      invariant yene == TotalYene(cs[..i]) && dene == TotalDene(cs[..i]) && advance == TotalAdvance(cs[..i])
    {
      assert cs[..i + 1][..i] == cs[..i];
      var balance := Balance(cs[i]);
      if balance > 0.0 {
        yene := yene + balance;
      } else if balance < 0.0 {
        dene := dene + (-balance);
      }
      var a := AdvanceOf(cs[i]);
      if a > 0.0 {
        advance := advance + a;
      }
      i := i + 1;
    }
    assert cs[..|cs|] == cs;
    t := Totals(yene - dene, yene, dene, advance);
  }

  // ---------------------------------------------------------------------------
  // The balance editor

  datatype EditValues = EditValues(yene: real, dene: real, advance: real)

  const NoEdit := EditValues(0.0, 0.0, 0.0)

  datatype EditField = YeneField | DeneField | AdvanceField

  /** The editor's starting values: the split of the balance and the advance. */
  function StartValues(c: Customer): (v: EditValues)
    ensures v.yene >= 0.0 && v.dene >= 0.0 && (v.yene == 0.0 || v.dene == 0.0)
    ensures v.yene - v.dene == Balance(c)
    ensures v.advance == AdvanceOf(c)
  {
    var s := SplitBalance(Balance(c));
    EditValues(s.yene, s.dene, AdvanceOf(c))
  }

  /** `handleInputChange(field, value)`: the text is read with
      `parseFloat(value) || 0`; a positive yene clears dene and a positive
      dene clears yene, anything else sets only its own field. */
  function InputChange(v: EditValues, field: EditField, text: JsVal): (w: EditValues)
    ensures var x := ParseFloatOr0(text);
      (field.YeneField? && x > 0.0 ==> w == EditValues(x, 0.0, v.advance))
      && (field.DeneField? && x > 0.0 ==> w == EditValues(0.0, x, v.advance))
      && (field.AdvanceField? ==> w == v.(advance := x))
      && (field.YeneField? && x <= 0.0 ==> w == v.(yene := x))
      && (field.DeneField? && x <= 0.0 ==> w == v.(dene := x))
  {
    var x := ParseFloatOr0(text);
    if field.YeneField? && x > 0.0 then v.(yene := x, dene := 0.0)
    else if field.DeneField? && x > 0.0 then v.(dene := x, yene := 0.0)
    else
      match field
      case YeneField => v.(yene := x)
      case DeneField => v.(dene := x)
      case AdvanceField => v.(advance := x)
  }

  /** After a positive amount is typed into either side, the other side is
      zero; text that does not parse sets its field to 0. */
  lemma InputKeepsSidesExclusive(v: EditValues, field: EditField, text: JsVal)
    ensures !field.AdvanceField? && ParseFloatOr0(text) > 0.0 ==>
      InputChange(v, field, text).yene == 0.0 || InputChange(v, field, text).dene == 0.0
    ensures ParseFloat(text).None? ==> InputChange(v, field, text) == (match field
      case YeneField => v.(yene := 0.0)
      case DeneField => v.(dene := 0.0)
      case AdvanceField => v.(advance := 0.0))
  {
  }

  /** `handleBalanceUpdate` throws only when a token is present and the
      request fails; with no token it reports the error and returns. */
  function BalanceUpdateThrows(hasToken: bool, requestSucceeded: bool): (throws: bool)
    ensures throws <==> hasToken && !requestSucceeded
  {
    if !hasToken then false else !requestSucceeded
  }

  /** The editing state one customer table (list or grid) keeps. */
  class BalanceEditor {
    var editingRow: Option<string>
    var editValues: EditValues
    var saving: bool

    constructor()
      ensures editingRow == None && editValues == NoEdit && !saving
    {
      editingRow := None;
      editValues := NoEdit;
      saving := false;
    }

    /** `handleEditClick(customer)` */
    method EditClick(c: Customer)
      modifies this
      ensures editingRow == Some(c.id) && editValues == StartValues(c) && saving == old(saving)
    {
      editingRow := Some(c.id);
      editValues := StartValues(c);
    }

    /** `handleCancelEdit()` */
    method CancelEdit()
      modifies this
      ensures editingRow == None && editValues == NoEdit && saving == old(saving)
    {
      editingRow := None;
      editValues := NoEdit;
    }

    /** `handleInputChange(field, value)` */
    method InputChanged(field: EditField, text: JsVal)
      modifies this
      ensures editValues == InputChange(old(editValues), field, text)
      ensures editingRow == old(editingRow) && saving == old(saving)
    {
      var x := ParseFloatOr0(text);
      if field == YeneField && x > 0.0 {
        editValues := editValues.(yene := x, dene := 0.0);
      } else if field == DeneField && x > 0.0 {
        editValues := editValues.(dene := x, yene := 0.0);
      } else if field == YeneField {
        editValues := editValues.(yene := x);
      } else if field == DeneField {
        editValues := editValues.(dene := x);
      } else {
        editValues := editValues.(advance := x);
      }
    }

    /** `handleSaveEdit(customerId)`: sends the values being edited; a save
      that does not throw leaves edit mode and clears the values, one that
      throws keeps both. `saving` is false again either way. */
    method SaveEdit(hasToken: bool, requestSucceeded: bool) returns (sent: EditValues)
      modifies this
      ensures sent == old(editValues)
      ensures !BalanceUpdateThrows(hasToken, requestSucceeded) ==> editingRow == None && editValues == NoEdit
      ensures BalanceUpdateThrows(hasToken, requestSucceeded) ==>
        editingRow == old(editingRow) && editValues == old(editValues)
      ensures !saving
    {
      saving := true;
      sent := editValues;
      if !BalanceUpdateThrows(hasToken, requestSucceeded) {
        editingRow := None;
        editValues := NoEdit;
      }
      saving := false;
    }
  }

  // ---------------------------------------------------------------------------
  // Search and pagination

  /** An empty search keeps everyone; otherwise a customer is kept on a
      lower-case substring of the name or on the serial number's text
      equal to the trimmed search. */
  predicate ReportMatches(c: Customer, search: string) {
    (c.name != "" && Contains(ToLower(c.name), ToLower(search)))
    || (c.srNo != 0 && IntToString(c.srNo) == Trim(search))
  }

  function FilterCustomers(cs: seq<Customer>, search: string): (r: seq<Customer>)
    ensures search == "" ==> r == cs
    ensures search != "" ==> forall c :: c in r <==> c in cs && ReportMatches(c, search)
    ensures |r| <= |cs|
  {
    if search == "" then cs else Where(cs, c => ReportMatches(c, search))
  }

  /** Filtering keeps the order of the customer list. */
  lemma FilterCustomersAppend(a: seq<Customer>, b: seq<Customer>, search: string)
    ensures FilterCustomers(a + b, search) == FilterCustomers(a, search) + FilterCustomers(b, search)
  {
    if search != "" {
      WhereAppend(a, b, c => ReportMatches(c, search));
    }
  }

  /** `Math.ceil(n / 10)` */
  function TotalPages(n: nat): (p: nat)
    ensures p * ItemsPerPage >= n
    ensures p == 0 || (p - 1) * ItemsPerPage < n
  {
    (n + ItemsPerPage - 1) / ItemsPerPage
  }

  /** The pagination control is hidden exactly when everything fits on one page. */
  lemma PaginationHiddenIffOnePage(n: nat)
    ensures TotalPages(n) <= 1 <==> n <= ItemsPerPage
  {
  }

  function PageStart(page: int): int { (page - 1) * ItemsPerPage }

  /** `list.slice(pageStartIndex, pageStartIndex + 10)` for a page from 1 on. */
  function PageOf<T>(list: seq<T>, page: int): (r: seq<T>)
    requires page >= 1
    ensures |r| <= ItemsPerPage
    ensures forall k :: 0 <= k < |r| ==> PageStart(page) + k < |list| && r[k] == list[PageStart(page) + k]
    ensures PageStart(page) + ItemsPerPage <= |list| ==> |r| == ItemsPerPage
  {
    var start := PageStart(page);
    if start >= |list| then []
    else if start + ItemsPerPage <= |list| then list[start..start + ItemsPerPage]
    else list[start..]
  }

  /** Every customer of the filtered list is on exactly one page, and that
      page is one the control can reach. */
  lemma EveryCustomerOnItsPage<T>(list: seq<T>, i: nat)
    requires i < |list|
    ensures var p := i / ItemsPerPage + 1;
      1 <= p <= TotalPages(|list|) && i % ItemsPerPage < |PageOf(list, p)| && PageOf(list, p)[i % ItemsPerPage] == list[i]
  {
    var p := i / ItemsPerPage + 1;
    assert PageStart(p) + i % ItemsPerPage == i;
    assert PageStart(p) <= i;
  }

  /** The report's own state: the customers with balances, the search and
      the page. */
  class ReportView {
    var allCustomers: seq<Customer>
    var search: string
    var currentPage: int

    ghost predicate Valid()
      reads this
    {
      currentPage >= 1
    }

    constructor()
      ensures Valid() && allCustomers == [] && search == "" && currentPage == 1
    {
      allCustomers := [];
      search := "";
      currentPage := 1;
    }

    function PageCount(): nat
      reads this
    {
      TotalPages(|FilterCustomers(allCustomers, search)|)
    }

    /** The customers shown on the current page. */
    function Shown(): seq<Customer>
      reads this
      requires Valid()
    {
      PageOf(FilterCustomers(allCustomers, search), currentPage)
    }

    method Loaded(cs: seq<Customer>)
      modifies this
      requires Valid()
      ensures Valid() && allCustomers == cs && search == old(search) && currentPage == old(currentPage)
    {
      allCustomers := cs;
    }

    /** A new search returns to page 1. */
    method SearchChanged(text: string)
      modifies this
      ensures Valid() && search == text && currentPage == 1 && allCustomers == old(allCustomers)
    {
      search := text;
      currentPage := 1;
    }

    /** "Previous": disabled on page 1, absent when there is one page or none. */
    method PreviousPage()
      modifies this
      requires Valid()
      ensures Valid() && allCustomers == old(allCustomers) && search == old(search)
      ensures currentPage == if PageCount() > 1 && old(currentPage) != 1 then old(currentPage) - 1 else old(currentPage)
    {
      if PageCount() > 1 && currentPage != 1 {
        currentPage := currentPage - 1;
      }
    }

    /** "Next": disabled on the last page, absent when there is one page or none. */
    method NextPage()
      modifies this
      requires Valid()
      ensures Valid() && allCustomers == old(allCustomers) && search == old(search)
      ensures currentPage == if PageCount() > 1 && old(currentPage) != PageCount() then old(currentPage) + 1 else old(currentPage)
    {
      if PageCount() > 1 && currentPage != PageCount() {
        currentPage := currentPage + 1;
      }
    }

    /** The page on screen, computed without changing anything. */
    method CurrentCustomersOnPage() returns (page: seq<Customer>)
      requires Valid()
      ensures page == Shown()
    {
      var filtered := FilterCustomers(allCustomers, search);
      page := PageOf(filtered, currentPage);
    }
  }

  // ---------------------------------------------------------------------------
  // Top-ten lists

  function NegBalance(c: Customer): real { -Balance(c) }

  predicate Owes(c: Customer) { Balance(c) > 0.0 }

  predicate IsOwed(c: Customer) { Balance(c) < 0.0 }

  /** "Top 10 customers owing money": positive balances, largest first. */
  function Owing(cs: seq<Customer>): seq<Customer> {
    Take(SortBy(Where(cs, Owes), NegBalance), 10)
  }

  /** "Top 10 customers you owe": negative balances, most negative first. */
  function Owed(cs: seq<Customer>): seq<Customer> {
    Take(SortBy(Where(cs, IsOwed), Balance), 10)
  }

  /** The owing list holds at most ten customers of the list, all with a
      positive balance, in non-increasing order, and no customer with a
      positive balance left out has more than any customer listed. */
  lemma OwingIsTopTen(cs: seq<Customer>)
    ensures |Owing(cs)| == if |Where(cs, Owes)| < 10 then |Where(cs, Owes)| else 10
    ensures forall i :: 0 <= i < |Owing(cs)| ==> Owing(cs)[i] in cs && Balance(Owing(cs)[i]) > 0.0
    ensures forall i, j :: 0 <= i < j < |Owing(cs)| ==> Balance(Owing(cs)[i]) >= Balance(Owing(cs)[j])
    ensures forall k, i :: 0 <= k < |cs| && Balance(cs[k]) > 0.0 && cs[k] !in Owing(cs) && 0 <= i < |Owing(cs)| ==>
      Balance(cs[k]) <= Balance(Owing(cs)[i])
  {
    OwingFacts(cs, Owing(cs));
  }

  lemma OwingFacts(cs: seq<Customer>, top: seq<Customer>)
    requires top == Take(SortBy(Where(cs, Owes), NegBalance), 10)
    ensures |top| == if |Where(cs, Owes)| < 10 then |Where(cs, Owes)| else 10
    ensures forall i :: 0 <= i < |top| ==> top[i] in cs && Balance(top[i]) > 0.0
    ensures forall i, j :: 0 <= i < j < |top| ==> Balance(top[i]) >= Balance(top[j])
    ensures forall k, i :: 0 <= k < |cs| && Balance(cs[k]) > 0.0 && cs[k] !in top && 0 <= i < |top| ==>
      Balance(cs[k]) <= Balance(top[i])
  {
    TopByKey(cs, Owes, NegBalance, 10, top);
    forall i, j | 0 <= i < j < |top| ensures Balance(top[i]) >= Balance(top[j]) {
      assert NegBalance(top[i]) <= NegBalance(top[j]);
    }
    forall k, i | 0 <= k < |cs| && Balance(cs[k]) > 0.0 && cs[k] !in top && 0 <= i < |top|
      ensures Balance(cs[k]) <= Balance(top[i])
    {
      assert Owes(cs[k]);
    }
  }

  /** The owed list: at most ten customers of the list, all with a negative
      balance, ascending, and none left out owes more than any listed. */
  lemma OwedIsTopTen(cs: seq<Customer>)
    ensures |Owed(cs)| == if |Where(cs, IsOwed)| < 10 then |Where(cs, IsOwed)| else 10
    ensures forall i :: 0 <= i < |Owed(cs)| ==> Owed(cs)[i] in cs && Balance(Owed(cs)[i]) < 0.0
    ensures forall i, j :: 0 <= i < j < |Owed(cs)| ==> Balance(Owed(cs)[i]) <= Balance(Owed(cs)[j])
    ensures forall k, i :: 0 <= k < |cs| && Balance(cs[k]) < 0.0 && cs[k] !in Owed(cs) && 0 <= i < |Owed(cs)| ==>
      Balance(cs[k]) >= Balance(Owed(cs)[i])
  {
    OwedFacts(cs, Owed(cs));
  }

  lemma OwedFacts(cs: seq<Customer>, top: seq<Customer>)
    requires top == Take(SortBy(Where(cs, IsOwed), Balance), 10)
    ensures |top| == if |Where(cs, IsOwed)| < 10 then |Where(cs, IsOwed)| else 10
    ensures forall i :: 0 <= i < |top| ==> top[i] in cs && Balance(top[i]) < 0.0
    ensures forall i, j :: 0 <= i < j < |top| ==> Balance(top[i]) <= Balance(top[j])
    ensures forall k, i :: 0 <= k < |cs| && Balance(cs[k]) < 0.0 && cs[k] !in top && 0 <= i < |top| ==>
      Balance(cs[k]) >= Balance(top[i])
  {
    TopByKey(cs, IsOwed, Balance, 10, top);
    forall k, i | 0 <= k < |cs| && Balance(cs[k]) < 0.0 && cs[k] !in top && 0 <= i < |top|
      ensures Balance(cs[k]) >= Balance(top[i])
    {
      assert IsOwed(cs[k]);
    }
  }
}
