/** The receipt form's state and its event handlers. Every `setState` of
    the component is an update of one field of `Editor`; the refs
    `isEditingRef` and `prevSerialNumberRef` are the fields `editing` and
    `prevSerial`. */
module ReceiptEditor {
  import opened Js
  import opened Records
  import opened Ordering
  import opened ReceiptRows
  import opened ReceiptForm
  import opened CarryOver

  /** The inputs wired to `handleChange` that hold text. */
  datatype FormField =
    | CustomerCompany | Day | DeductionRate | PendingAmount | Jama
    | ChukPercentage | Chuk | AdvanceAmount | CuttingAmount

  /** `{ ...prev, [name]: value }` */
  function SetFormField(f: FormData, name: FormField, value: string): (g: FormData)
    ensures name.CustomerCompany? ==> g == f.(customerCompany := Str(value))
    ensures name.Day? ==> g == f.(day := value)
    ensures name.DeductionRate? ==> g == f.(deductionRate := Str(value))
    ensures name.PendingAmount? ==> g == f.(pendingAmount := Str(value))
    ensures name.Jama? ==> g == f.(jama := Str(value))
    ensures name.ChukPercentage? ==> g == f.(chukPercentage := Str(value))
    ensures name.Chuk? ==> g == f.(chuk := Str(value))
    ensures name.AdvanceAmount? ==> g == f.(advanceAmount := Str(value))
    ensures name.CuttingAmount? ==> g == f.(cuttingAmount := Str(value))
  {
    match name
    case CustomerCompany => f.(customerCompany := Str(value))
    case Day => f.(day := value)
    case DeductionRate => f.(deductionRate := Str(value))
    case PendingAmount => f.(pendingAmount := Str(value))
    case Jama => f.(jama := Str(value))
    case ChukPercentage => f.(chukPercentage := Str(value))
    case Chuk => f.(chuk := Str(value))
    case AdvanceAmount => f.(advanceAmount := Str(value))
    case CuttingAmount => f.(cuttingAmount := Str(value))
  }

  /** Editing a text field never touches the customer, the dates or the
      LD box, so the settlement sees only that one figure change. */
  lemma SetFormFieldKeepsCustomer(f: FormData, name: FormField, value: string)
    ensures var g := SetFormField(f, name, value);
      g.id == f.id && g.customerId == f.customerId && g.customerName == f.customerName
      && g.actualDate == f.actualDate && g.isChukEnabled == f.isChukEnabled
  {
  }

  /** The three inputs wired to `handleOpenCloseChange`. */
  datatype OpenCloseField = Open | Close | OpenCloseJod

  function SetOpenClose(oc: OpenClose, name: OpenCloseField, value: string): (r: OpenClose)
    ensures name.Open? ==> r == oc.(open := Str(value))
    ensures name.Close? ==> r == oc.(close := Str(value))
    ensures name.OpenCloseJod? ==> r == oc.(jod := Str(value))
  {
    match name
    case Open => oc.(open := Str(value))
    case Close => oc.(close := Str(value))
    case OpenCloseJod => oc.(jod := Str(value))
  }

  /** `filteredReceipts`: the name contains the search text, ignoring case,
      and, when a company is picked, the company is exactly that one. */
  predicate ReceiptShown(r: Receipt, searchTerm: string, company: string) {
    Contains(ToLower(TextOf(r.customerName)), ToLower(searchTerm))
    && (company == "" || TextOf(r.customerCompany) == company)
  }

  function FilteredReceipts(rs: seq<Receipt>, searchTerm: string, company: string): (out: seq<Receipt>)
    ensures |out| <= |rs|
    ensures forall x :: x in out <==> x in rs && ReceiptShown(x, searchTerm, company)
  {
    if rs == [] then []
    else
      var rest := FilteredReceipts(rs[1..], searchTerm, company);
      assert rs == [rs[0]] + rs[1..];
      if ReceiptShown(rs[0], searchTerm, company) then [rs[0]] + rest else rest
  }

  /** Filtering keeps the order: the shown receipts, in their order in the list, since filtering a
      concatenation filters each part. */
  lemma {:induction false} FilteredReceiptsAppend(a: seq<Receipt>, b: seq<Receipt>, searchTerm: string, company: string)
    ensures FilteredReceipts(a + b, searchTerm, company) == FilteredReceipts(a, searchTerm, company) + FilteredReceipts(b, searchTerm, company)
    decreases |a|
  {
    if a == [] {
      assert a + b == b;
    } else {
      assert (a + b)[0] == a[0] && (a + b)[1..] == a[1..] + b;
      FilteredReceiptsAppend(a[1..], b, searchTerm, company);
    }
  }

  /** Blank search terms show every receipt. */
  lemma EmptySearchShowsAll(rs: seq<Receipt>)
    ensures FilteredReceipts(rs, "", "") == rs
  {
    if rs != [] {
      ContainsEmpty(ToLower(TextOf(rs[0].customerName)));
      EmptySearchShowsAll(rs[1..]);
      assert rs == [rs[0]] + rs[1..];
    }
  }

  /** `filteredCustomerList`: a blank search shows everybody; otherwise the
      lower-cased name or the serial number's text contains the lower-cased
      search. */
  predicate CustomerShown(c: Customer, search: string) {
    var s := ToLower(search);
    s == "" || Contains(ToLower(c.name), s) || Contains(IntToString(c.srNo), s)
  }

  function FilteredCustomers(cs: seq<Customer>, search: string): (out: seq<Customer>)
    ensures |out| <= |cs|
    ensures forall c :: c in out <==> c in cs && CustomerShown(c, search)
    ensures search == "" ==> out == cs
  {
    if cs == [] then []
    else
      var rest := FilteredCustomers(cs[1..], search);
      assert cs == [cs[0]] + cs[1..];
      if CustomerShown(cs[0], search) then [cs[0]] + rest else rest
  }

  /** Filtering keeps the order: the shown customers, in their order in the list, since filtering a
      concatenation filters each part. */
  lemma {:induction false} FilteredCustomersAppend(a: seq<Customer>, b: seq<Customer>, search: string)
    ensures FilteredCustomers(a + b, search) == FilteredCustomers(a, search) + FilteredCustomers(b, search)
    decreases |a|
  {
    if a == [] {
      assert a + b == b;
    } else {
      assert (a + b)[0] == a[0] && (a + b)[1..] == a[1..] + b;
      FilteredCustomersAppend(a[1..], b, search);
    }
  }

  /** `getCustomerSrNo(customerId)` in the saved-receipts table: the
      serial number of the first customer with that id, else the serial
      box, else "N/A". */
  function CustomerSrNo(cs: seq<Customer>, customerId: string, serialInput: string): (r: JsVal)
    ensures (exists c :: c in cs && c.id == customerId) ==> r.Num?
    ensures forall i :: 0 <= i < |cs| && cs[i].id == customerId && (forall j :: 0 <= j < i ==> cs[j].id != customerId)
              ==> r == Num(cs[i].srNo as real)
    ensures (forall c :: c in cs ==> c.id != customerId) ==> r == Str(if serialInput != "" then serialInput else "N/A")
  {
    if cs == [] then Str(if serialInput != "" then serialInput else "N/A")
    else if cs[0].id == customerId then Num(cs[0].srNo as real)
    else
      assert cs == [cs[0]] + cs[1..];
      CustomerSrNo(cs[1..], customerId, serialInput)
  }

  /** `receipts.find((r) => r._id === id)` */
  function FindReceipt(rs: seq<Receipt>, id: string): (r: Option<Receipt>)
    ensures r.None? <==> forall x :: x in rs ==> x.id != id
    ensures r.Some? ==> r.value in rs && r.value.id == id
  {
    if rs == [] then None
    else if rs[0].id == id then Some(rs[0])
    else
      assert rs == [rs[0]] + rs[1..];
      FindReceipt(rs[1..], id)
  }

  function ReceiptId(r: Receipt): string { r.id }

  class Editor {
    var form: FormData
    var rows: seq<Row>
    var openClose: OpenClose
    var customers: seq<Customer>
    var receipts: seq<Receipt>
    var serialInput: string
    var prevSerial: Option<string>
    var customerSearch: string
    var customerDropdownOpen: bool
    var globalSpecialType: JsVal
    var specialDropdownOpen: bool
    var editing: bool

    /** The row list stays between the two default rows and ten. */
    predicate RowsInBounds()
      reads this
    {
      2 <= |rows| <= MaxRows
    }

    /** The component's first render. */
    constructor(businessName: JsVal, now: int, cal: Calendar)
      ensures form == InitialFormData(businessName, Undefined, now, cal)
      ensures rows == InitialGameRows() && RowsInBounds()
      ensures openClose == BlankOpenClose && customers == [] && receipts == []
      ensures serialInput == "" && prevSerial == None && customerSearch == ""
      ensures !customerDropdownOpen && globalSpecialType == Str("jackpot") && !specialDropdownOpen && !editing
    {
      form := InitialFormData(businessName, Undefined, now, cal);
      rows := InitialGameRows();
      openClose := BlankOpenClose;
      customers := [];
      receipts := [];
      serialInput := "";
      prevSerial := None;
      customerSearch := "";
      customerDropdownOpen := false;
      globalSpecialType := Str("jackpot");
      specialDropdownOpen := false;
      editing := false;
    }

    /** `clearForm`: a fresh form that keeps the business name and the
      company, the two default rows, an empty serial box and search, and
      edit mode off. The open/close values stay. */
    method ClearForm(now: int, cal: Calendar)
      modifies this
      ensures form == InitialFormData(old(form).businessName, old(form).customerCompany, now, cal)
      ensures form.businessName == old(form).businessName || !Truthy(old(form).businessName)
      ensures rows == InitialGameRows() && RowsInBounds()
      ensures serialInput == "" && customerSearch == "" && !customerDropdownOpen
      ensures globalSpecialType == Str("jackpot") && !specialDropdownOpen && !editing
      ensures openClose == old(openClose) && customers == old(customers) && receipts == old(receipts)
      ensures prevSerial == old(prevSerial)
    {
      form := InitialFormData(form.businessName, form.customerCompany, now, cal);
      rows := InitialGameRows();
      serialInput := "";
      customerSearch := "";
      customerDropdownOpen := false;
      globalSpecialType := Str("jackpot");
      specialDropdownOpen := false;
      editing := false;
    }

    /** `handleChange` for a text input: only that field changes. */
    method HandleChange(name: FormField, value: string)
      modifies this`form
      ensures form == SetFormField(old(form), name, value)
    {
      form := SetFormField(form, name, value);
    }

    /** `handleChange` for the LD box: it is set and the chuk amount is
      cleared. */
    method HandleChukToggle(checked: bool)
      modifies this`form
      ensures form == old(form).(isChukEnabled := checked, chuk := Str(""))
    {
      form := form.(isChukEnabled := checked, chuk := Str(""));
    }

    method HandleOpenCloseChange(name: OpenCloseField, value: string)
      modifies this`openClose
      ensures openClose == SetOpenClose(old(openClose), name, value)
    {
      openClose := SetOpenClose(openClose, name, value);
    }

    /** `handleRowChange(index, e)`: only row `index` changes, as `EditRow`
      says. */
    method HandleRowChange(index: nat, field: RowField, value: string)
      requires index < |rows|
      modifies this`rows
      ensures |rows| == |old(rows)|
      ensures rows[index] == EditRow(old(rows)[index], field, value)
      ensures forall i :: 0 <= i < |rows| && i != index ==> rows[i] == old(rows)[i]
    {
      rows := rows[index := EditRow(rows[index], field, value)];
    }

    /** `handleMultiplierChange(index, value)`: the multiplier becomes
      `Number(value) || 0`; nothing else changes. */
    method HandleMultiplierChange(index: nat, value: string)
      requires index < |rows|
      modifies this`rows
      ensures rows == old(rows)[index := old(rows)[index].(multiplier := Some(NumberOr0(Str(value))))]
    {
      rows := rows[index := rows[index].(multiplier := Some(NumberOr0(Str(value))))];
    }

    method AddRow(now: int)
      modifies this`rows
      ensures rows == ReceiptRows.AddRow(old(rows), now, globalSpecialType)
      ensures old(RowsInBounds()) ==> RowsInBounds()
    {
      rows := ReceiptRows.AddRow(rows, now, globalSpecialType);
    }

    method RemoveRow(index: int)
      modifies this`rows
      ensures rows == ReceiptRows.RemoveRow(old(rows), index)
      ensures old(RowsInBounds()) ==> RowsInBounds()
    {
      rows := ReceiptRows.RemoveRow(rows, index);
    }

    /** `handleGlobalSpecialTypeChange(newType)`: the column-wide type, the
      closed dropdown, and every row's special type. */
    method HandleGlobalSpecialTypeChange(newType: string)
      modifies this`rows, this`globalSpecialType, this`specialDropdownOpen
      ensures globalSpecialType == Str(newType) && !specialDropdownOpen
      ensures rows == SetSpecialTypeAll(old(rows), Str(newType))
      ensures |rows| == |old(rows)|
    {
      globalSpecialType := Str(newType);
      specialDropdownOpen := false;
      rows := SetSpecialTypeAll(rows, Str(newType));
    }

    /** `handleCustomerSearchChange` */
    method CustomerSearchChange(text: string)
      modifies this`editing, this`customerSearch, this`customerDropdownOpen, this`serialInput
      ensures !editing && customerSearch == text && customerDropdownOpen && serialInput == ""
    {
      editing := false;
      customerSearch := text;
      customerDropdownOpen := true;
      if serialInput != "" {
        serialInput := "";
      }
    }

    /** `handleCustomerSelect(customer)` */
    method CustomerSelect(c: Customer)
      modifies this`editing, this`customerSearch, this`customerDropdownOpen, this`serialInput
      ensures !editing && serialInput == IntToString(c.srNo) && customerSearch == "" && !customerDropdownOpen
    {
      editing := false;
      serialInput := IntToString(c.srNo);
      customerSearch := "";
      customerDropdownOpen := false;
    }

    /** `fetchCustomers`: the list is stored sorted and renumbered. */
    method CustomersLoaded(fetched: seq<Customer>)
      modifies this`customers
      ensures customers == Renumber(fetched)
    {
      customers := Renumber(fetched);
    }

    /** `fetchReceipts`: the list is stored newest id first, and a new
      receipt (no id yet) takes the open/close values of the day. */
    method ReceiptsLoaded(fetched: seq<Receipt>, now: int, cal: Calendar)
      modifies this`receipts, this`openClose
      ensures receipts == SortByTextDesc(fetched, ReceiptId)
      ensures old(form).id.None? ==> openClose == LatestOpenClose(fetched, now, cal)
      ensures old(form).id.Some? ==> openClose == old(openClose)
    {
      receipts := SortByTextDesc(fetched, ReceiptId);
      if form.id.None? {
        openClose := LatestOpenClose(fetched, now, cal);
      }
    }

    /** The customer named by the `customerId` query parameter, when listed,
      is written into the serial box. */
    method QueryCustomer(customerId: string)
      modifies this`serialInput, this`customerSearch, this`customerDropdownOpen
      ensures customerId == "" || customers == [] || FindById(customers, customerId).None? ==>
        serialInput == old(serialInput) && customerSearch == old(customerSearch)
        && customerDropdownOpen == old(customerDropdownOpen)
      ensures customerId != "" && customers != [] && FindById(customers, customerId).Some? ==>
        serialInput == IntToString(FindById(customers, customerId).value.srNo)
        && customerSearch == "" && !customerDropdownOpen
    {
      if customerId != "" && customers != [] {
        var found := FindById(customers, customerId);
        if found.Some? {
          serialInput := IntToString(found.value.srNo);
          customerSearch := "";
          customerDropdownOpen := false;
        }
      }
    }

    /** `loadReceiptForEdit` once receipt `r` is found: edit mode is on, the
      serial box shows its customer's number (blank when the customer is no
      longer listed), the rows are normalised, the column-wide special type
      is the first row's, and the form is filled from the receipt. Its
      open/close values replace the current ones when it has them. */
    method LoadReceipt(r: Receipt, cal: Calendar)
      modifies this`form, this`rows, this`openClose, this`serialInput, this`customerSearch,
               this`customerDropdownOpen, this`globalSpecialType, this`editing
      ensures var c := FindById(customers, r.customerId);
        editing && form == FormFromReceipt(r, c, cal)
        && rows == NormalizeRows(r.gameRows) && globalSpecialType == LoadedSpecialType(rows)
        && serialInput == (if c.Some? then IntToString(c.value.srNo) else "")
        && customerSearch == "" && !customerDropdownOpen
        && openClose == (if r.openCloseValues.Some? then r.openCloseValues.value else old(openClose))
    {
      editing := true;
      var c := FindById(customers, r.customerId);
      serialInput := if c.Some? then IntToString(c.value.srNo) else "";
      customerSearch := "";
      customerDropdownOpen := false;
      LoadContents(r, c, cal);
    }

    /** The rows, their special type, the form and the open/close values of
      a loaded receipt. */
    method LoadContents(r: Receipt, c: Option<Customer>, cal: Calendar)
      modifies this`form, this`rows, this`openClose, this`globalSpecialType
      ensures form == FormFromReceipt(r, c, cal)
      ensures rows == NormalizeRows(r.gameRows) && globalSpecialType == LoadedSpecialType(rows)
      ensures openClose == (if r.openCloseValues.Some? then r.openCloseValues.value else old(openClose))
    {
      var sanitized := NormalizeRows(r.gameRows);
      globalSpecialType := LoadedSpecialType(sanitized);
      form := FormFromReceipt(r, c, cal);
      rows := sanitized;
      if r.openCloseValues.Some? {
        openClose := r.openCloseValues.value;
      }
    }

    /** `loadReceiptForEdit` with the list `fetched` from the server: once
      the customer list is loaded, the receipt with id `receiptId` is
      loaded for editing. Returns false, changing nothing, while the
      customer list is empty or when the receipt is not there (the
      component then leaves for the dashboard). */
    method LoadForEdit(receiptId: string, fetched: seq<Receipt>, cal: Calendar) returns (found: bool)
      modifies this`form, this`rows, this`openClose, this`serialInput, this`customerSearch,
               this`customerDropdownOpen, this`globalSpecialType, this`editing
      ensures found <==> customers != [] && FindReceipt(fetched, receiptId).Some?
      ensures !found ==> form == old(form) && rows == old(rows) && openClose == old(openClose)
                         && serialInput == old(serialInput) && customerSearch == old(customerSearch)
                         && customerDropdownOpen == old(customerDropdownOpen)
                         && globalSpecialType == old(globalSpecialType) && editing == old(editing)
      ensures found ==> var r := FindReceipt(fetched, receiptId).value;
        var c := FindById(customers, r.customerId);
        r.id == receiptId && editing && form.id == Some(receiptId) && form == FormFromReceipt(r, c, cal)
        && rows == NormalizeRows(r.gameRows) && globalSpecialType == LoadedSpecialType(rows)
        && serialInput == (if c.Some? then IntToString(c.value.srNo) else "")
        && customerSearch == "" && !customerDropdownOpen
        && openClose == (if r.openCloseValues.Some? then r.openCloseValues.value else old(openClose))
    {
      if customers == [] {
        return false;
      }
      var lookup := FindReceipt(fetched, receiptId);
      if lookup.None? {
        return false;
      }
      LoadReceipt(lookup.value, cal);
      return true;
    }

    /** The effect run when the edit route's receipt id is cleared: a form
      that was in edit mode is cleared, and nothing happens otherwise. */
    method EditRouteLeft(now: int, cal: Calendar)
      modifies this
      ensures old(editing) ==>
        form == InitialFormData(old(form).businessName, old(form).customerCompany, now, cal)
        && rows == InitialGameRows() && serialInput == "" && customerSearch == "" && !customerDropdownOpen
        && globalSpecialType == Str("jackpot") && !specialDropdownOpen && !editing
        && openClose == old(openClose) && customers == old(customers) && receipts == old(receipts)
        && prevSerial == old(prevSerial)
      ensures !old(editing) ==> unchanged(this)
    {
      if editing {
        editing := false;
        ClearForm(now, cal);
      }
    }

    /** The serial-number effect: nothing when the serial is the one it last
      saw; in edit mode it only records the serial; otherwise the form and
      rows take what `SelectSerial` gives. A throwing run leaves the
      recorded serial as it was. */
    method SerialChanged() returns (o: SerialOutcome)
      modifies this`form, this`rows, this`prevSerial
      ensures prevSerial == Some(old(serialInput)) || prevSerial == old(prevSerial)
      ensures old(prevSerial) == Some(serialInput) ==>
        o == Keep && form == old(form) && rows == old(rows) && prevSerial == old(prevSerial)
      ensures old(prevSerial) != Some(serialInput) && old(editing) ==>
        o == Keep && form == old(form) && rows == old(rows) && prevSerial == Some(serialInput)
      ensures old(prevSerial) != Some(serialInput) && !old(editing) ==>
        o == SelectSerial(old(form), serialInput, customers, receipts)
        && (o.Seed? ==> form == o.form && rows == o.rows)
        && (!o.Seed? ==> form == old(form) && rows == old(rows))
        && (o.Throws? <==> prevSerial == old(prevSerial))
    {
      if prevSerial == Some(serialInput) {
        o := Keep;
      } else if editing {
        prevSerial := Some(serialInput);
        o := Keep;
      } else {
        o := SelectSerial(form, serialInput, customers, receipts);
        ApplySelection(o);
      }
    }

    /** Takes in what the serial-number effect selected: a seeded form and
      rows replace the current ones, and every run that does not throw
      records the serial. */
    method ApplySelection(o: SerialOutcome)
      modifies this`form, this`rows, this`prevSerial
      ensures o.Seed? ==> form == o.form && rows == o.rows
      ensures !o.Seed? ==> form == old(form) && rows == old(rows)
      ensures prevSerial == if o.Throws? then old(prevSerial) else Some(serialInput)
    {
      if o.Throws? {
        return;
      }
      if o.Seed? {
        form := o.form;
        rows := o.rows;
      }
      prevSerial := Some(serialInput);
    }

    /** What `handleSave` does once the record is accepted: the list
      `fetched` the server then returns is loaded (with the open/close
      values of the day for a new receipt), and the form is cleared when
      `clear` is set. The customer list and the recorded serial stay. */
    method AfterSave(clear: bool, fetched: seq<Receipt>, now: int, cal: Calendar)
      modifies this
      ensures receipts == SortByTextDesc(fetched, ReceiptId)
      ensures openClose == if old(form).id.None? then LatestOpenClose(fetched, now, cal) else old(openClose)
      ensures customers == old(customers) && prevSerial == old(prevSerial)
      ensures clear ==>
        form == InitialFormData(old(form).businessName, old(form).customerCompany, now, cal)
        && rows == InitialGameRows() && serialInput == "" && customerSearch == "" && !customerDropdownOpen
        && globalSpecialType == Str("jackpot") && !specialDropdownOpen && !editing
      ensures !clear ==>
        form == old(form) && rows == old(rows) && serialInput == old(serialInput)
        && customerSearch == old(customerSearch) && customerDropdownOpen == old(customerDropdownOpen)
        && globalSpecialType == old(globalSpecialType) && specialDropdownOpen == old(specialDropdownOpen)
        && editing == old(editing)
    {
      ReceiptsLoaded(fetched, now, cal);
      if clear {
        ClearForm(now, cal);
      }
    }

    /** `handleSave(clear)`: without a customer nothing is sent and nothing
      changes; otherwise the record is sent, and `accepted` is whether the
      server took it. A refused request changes nothing; an accepted one is
      followed by `AfterSave`. Returns the record built from the form (sent
      only when there is a customer) and whether the save succeeded. */
    method Save(clear: bool, newId: string, stamp: int, accepted: bool, fetched: seq<Receipt>, now: int, cal: Calendar)
      returns (o: SaveOutcome, succeeded: bool)
      modifies this
      ensures o == SaveRecord(old(form), old(rows), old(openClose), newId, stamp)
      ensures succeeded <==> old(form).customerId != "" && accepted
      ensures !succeeded ==> unchanged(this)
      ensures succeeded ==>
        receipts == SortByTextDesc(fetched, ReceiptId)
        && openClose == (if old(form).id.None? then LatestOpenClose(fetched, now, cal) else old(openClose))
        && customers == old(customers) && prevSerial == old(prevSerial)
        && (clear ==>
              form == InitialFormData(old(form).businessName, old(form).customerCompany, now, cal)
              && rows == InitialGameRows() && serialInput == "" && customerSearch == "" && !customerDropdownOpen
              && globalSpecialType == Str("jackpot") && !specialDropdownOpen && !editing)
        && (!clear ==>
              form == old(form) && rows == old(rows) && serialInput == old(serialInput)
              && customerSearch == old(customerSearch) && customerDropdownOpen == old(customerDropdownOpen)
              && globalSpecialType == old(globalSpecialType) && specialDropdownOpen == old(specialDropdownOpen)
              && editing == old(editing))
    {
      o := SaveRecord(form, rows, openClose, newId, stamp);
      if form.customerId == "" || !accepted {
        return o, false;
      }
      AfterSave(clear, fetched, now, cal);
      return o, true;
    }
  }
}
