/** The admin dashboard: vendors split by approval status, the checks
    before adding or editing a vendor or setting a vendor's password, and
    the search by business name. */
module AdminDashboard {
  import opened Js

  datatype Vendor = Vendor(
    id: string,
    name: string,
    businessName: string,
    mobile: string,
    email: string,
    address: string,
    status: string)

  /** `all.filter((v) => v.status === status)`: the vendors with that
      status, in their order. */
  function WithStatus(vs: seq<Vendor>, status: string): (r: seq<Vendor>)
    ensures forall v :: v in r <==> v in vs && v.status == status
    ensures forall i :: 0 <= i < |r| ==> r[i].status == status
    ensures |r| <= |vs|
  {
    if vs == [] then []
    else
      var rest := WithStatus(vs[1..], status);
      assert vs == [vs[0]] + vs[1..];
      if vs[0].status == status then [vs[0]] + rest else rest
  }

  /** Filtering keeps the order: the vendors with that status, in their order in the list, since filtering a
      concatenation filters each part. */
  lemma {:induction false} WithStatusAppend(a: seq<Vendor>, b: seq<Vendor>, status: string)
    ensures WithStatus(a + b, status) == WithStatus(a, status) + WithStatus(b, status)
    decreases |a|
  {
    if a == [] {
      assert a + b == b;
    } else {
      assert (a + b)[0] == a[0] && (a + b)[1..] == a[1..] + b;
      WithStatusAppend(a[1..], b, status);
    }
  }

  const Pending := "pending"
  const Approved := "approved"
  const Rejected := "rejected"

  /** No vendor is in two of the three status lists, so together they hold
      no more vendors than the whole list. */
  lemma {:induction false} StatusListsFit(vs: seq<Vendor>)
    ensures |WithStatus(vs, Pending)| + |WithStatus(vs, Approved)| + |WithStatus(vs, Rejected)| <= |vs|
  {
    if vs != [] {
      StatusListsFit(vs[1..]);
    }
  }

  /** `vendor.businessName.toLowerCase().includes(searchTerm.toLowerCase())` */
  predicate Matches(v: Vendor, search: string) {
    Contains(ToLower(v.businessName), ToLower(search))
  }

  function FilterVendors(vs: seq<Vendor>, search: string): (r: seq<Vendor>)
    ensures forall v :: v in r <==> v in vs && Matches(v, search)
    ensures |r| <= |vs|
  {
    if vs == [] then []
    else
      var rest := FilterVendors(vs[1..], search);
      assert vs == [vs[0]] + vs[1..];
      if Matches(vs[0], search) then [vs[0]] + rest else rest
  }

  /** Filtering keeps the order: the matching vendors, in their order in the list, since filtering a
      concatenation filters each part. */
  lemma {:induction false} FilterVendorsAppend(a: seq<Vendor>, b: seq<Vendor>, search: string)
    ensures FilterVendors(a + b, search) == FilterVendors(a, search) + FilterVendors(b, search)
    decreases |a|
  {
    if a == [] {
      assert a + b == b;
    } else {
      var h, t := a[0], a[1..];
      assert a == [h] + t && a + b == [h] + (t + b);
      FilterVendorsCons(h, t + b, search);
      FilterVendorsCons(h, t, search);
      FilterVendorsAppend(t, b, search);
    }
  }

  lemma FilterVendorsCons(v: Vendor, t: seq<Vendor>, search: string)
    ensures FilterVendors([v] + t, search) == (if Matches(v, search) then [v] else []) + FilterVendors(t, search)
  {
    assert ([v] + t)[0] == v && ([v] + t)[1..] == t;
  }

  /** An empty search lists every vendor. */
  lemma {:induction false} EmptySearchListsAll(vs: seq<Vendor>)
    ensures FilterVendors(vs, "") == vs
  {
    if vs != [] {
      ContainsEmpty(ToLower(vs[0].businessName));
      EmptySearchListsAll(vs[1..]);
      assert vs == [vs[0]] + vs[1..];
    }
  }

  /** Lower-cased search text finds the same vendors as the text as
      typed. */
  lemma SearchIgnoresCase(vs: seq<Vendor>, search: string)
    ensures FilterVendors(vs, ToLower(search)) == FilterVendors(vs, search)
  {
    LowerIsIdempotent(search);
    SameMatchesSameFilter(vs, ToLower(search), search);
  }

  lemma LowerIsIdempotent(s: string)
    ensures ToLower(ToLower(s)) == ToLower(s)
  {
    assert forall i :: 0 <= i < |s| ==> LowerChar(LowerChar(s[i])) == LowerChar(s[i]);
  }

  lemma {:induction false} SameMatchesSameFilter(vs: seq<Vendor>, s: string, t: string)
    requires ToLower(s) == ToLower(t)
    ensures FilterVendors(vs, s) == FilterVendors(vs, t)
  {
    if vs != [] {
      SameMatchesSameFilter(vs[1..], s, t);
    }
  }

  // ---------------------------------------------------------------------------
  // Required fields

  /** Adding a vendor needs all six fields. */
  predicate CanAdd(name: string, businessName: string, mobile: string, email: string, address: string, password: string) {
    name != "" && businessName != "" && mobile != "" && email != "" && address != "" && password != ""
  }

  /** Saving an edit needs the five profile fields; the password is not
      checked. */
  predicate CanSaveEdit(v: Vendor) {
    v.name != "" && v.businessName != "" && v.mobile != "" && v.email != "" && v.address != ""
  }

  /** The dashboard's state. */
  class Admin {
    var vendors: seq<Vendor>
    var pending: seq<Vendor>
    var approved: seq<Vendor>
    var rejected: seq<Vendor>
    var name: string
    var businessName: string
    var mobile: string
    var email: string
    var address: string
    var password: string
    var searchTerm: string
    var editVendor: Option<Vendor>
    var showEditModal: bool
    var showPasswordModal: bool
    var newPassword: string

    constructor ()
      ensures vendors == [] && pending == [] && approved == [] && rejected == []
      ensures name == "" && businessName == "" && mobile == "" && email == "" && address == "" && password == ""
      ensures searchTerm == "" && editVendor == None && !showEditModal && !showPasswordModal && newPassword == ""
    {
      vendors, pending, approved, rejected := [], [], [], [];
      name, businessName, mobile, email, address, password := "", "", "", "", "", "";
      searchTerm := "";
      editVendor := None;
      showEditModal, showPasswordModal := false, false;
      newPassword := "";
    }

    /** `fetchVendors`: the whole list and its three order-preserving
        status filters. */
    method VendorsLoaded(all: seq<Vendor>)
      modifies this
      ensures vendors == all
      ensures pending == WithStatus(all, Pending) && approved == WithStatus(all, Approved) && rejected == WithStatus(all, Rejected)
      ensures name == old(name) && businessName == old(businessName) && mobile == old(mobile)
      ensures email == old(email) && address == old(address) && password == old(password)
      ensures searchTerm == old(searchTerm) && editVendor == old(editVendor)
      ensures showEditModal == old(showEditModal) && showPasswordModal == old(showPasswordModal) && newPassword == old(newPassword)
    {
      vendors, pending, approved, rejected :=
        all, WithStatus(all, Pending), WithStatus(all, Approved), WithStatus(all, Rejected);
    }

    /** `handleAddVendor`: with a field empty nothing is sent; a request
        the server accepts clears the six fields. Returns whether the
        request was sent. */
    method AddVendor(succeeded: bool) returns (sent: bool)
      modifies this
      ensures sent <==> CanAdd(old(name), old(businessName), old(mobile), old(email), old(address), old(password))
      ensures sent && succeeded ==>
        name == "" && businessName == "" && mobile == "" && email == "" && address == "" && password == ""
      ensures !(sent && succeeded) ==>
        name == old(name) && businessName == old(businessName) && mobile == old(mobile)
        && email == old(email) && address == old(address) && password == old(password)
      ensures vendors == old(vendors) && pending == old(pending) && approved == old(approved) && rejected == old(rejected)
      ensures searchTerm == old(searchTerm) && editVendor == old(editVendor)
      ensures showEditModal == old(showEditModal) && showPasswordModal == old(showPasswordModal) && newPassword == old(newPassword)
    {
      if !CanAdd(name, businessName, mobile, email, address, password) {
        return false;
      }
      sent := true;
      if succeeded {
        name, businessName, mobile, email, address, password := "", "", "", "", "", "";
      }
    }

    /** `handleEdit(vendor)` */
    method StartEdit(v: Vendor)
      modifies this
      ensures editVendor == Some(v) && showEditModal
      ensures showPasswordModal == old(showPasswordModal) && newPassword == old(newPassword)
      ensures vendors == old(vendors) && pending == old(pending) && approved == old(approved) && rejected == old(rejected)
      ensures name == old(name) && businessName == old(businessName) && mobile == old(mobile)
      ensures email == old(email) && address == old(address) && password == old(password) && searchTerm == old(searchTerm)
    {
      editVendor := Some(v);
      showEditModal := true;
    }

    /** `saveEdit`: the vendor being edited is sent only when its five
        profile fields are filled; an accepted update closes the modal. */
    method SaveEdit(succeeded: bool) returns (sent: bool)
      requires editVendor.Some?
      modifies this
      ensures sent <==> CanSaveEdit(old(editVendor).value)
      ensures showEditModal == if sent && succeeded then false else old(showEditModal)
      ensures editVendor == old(editVendor) && showPasswordModal == old(showPasswordModal) && newPassword == old(newPassword)
      ensures vendors == old(vendors) && pending == old(pending) && approved == old(approved) && rejected == old(rejected)
      ensures name == old(name) && businessName == old(businessName) && mobile == old(mobile)
      ensures email == old(email) && address == old(address) && password == old(password) && searchTerm == old(searchTerm)
    {
      sent := CanSaveEdit(editVendor.value);
      if sent && succeeded {
        showEditModal := false;
      }
    }

    /** `handleChangePassword(vendor)`: the password modal opens empty. */
    method StartPasswordChange(v: Vendor)
      modifies this
      ensures editVendor == Some(v) && newPassword == "" && showPasswordModal
      ensures showEditModal == old(showEditModal)
      ensures vendors == old(vendors) && pending == old(pending) && approved == old(approved) && rejected == old(rejected)
      ensures name == old(name) && businessName == old(businessName) && mobile == old(mobile)
      ensures email == old(email) && address == old(address) && password == old(password) && searchTerm == old(searchTerm)
    {
      editVendor := Some(v);
      newPassword := "";
      showPasswordModal := true;
    }

    /** `savePassword`: an empty password is refused before any request;
        an accepted change closes the modal. */
    method SavePassword(succeeded: bool) returns (sent: bool)
      requires editVendor.Some?
      modifies this
      ensures sent <==> old(newPassword) != ""
      ensures showPasswordModal == if sent && succeeded then false else old(showPasswordModal)
      ensures editVendor == old(editVendor) && newPassword == old(newPassword) && showEditModal == old(showEditModal)
      ensures vendors == old(vendors) && pending == old(pending) && approved == old(approved) && rejected == old(rejected)
      ensures name == old(name) && businessName == old(businessName) && mobile == old(mobile)
      ensures email == old(email) && address == old(address) && password == old(password) && searchTerm == old(searchTerm)
    {
      sent := newPassword != "";
      if sent && succeeded {
        showPasswordModal := false;
      }
    }

    /** The vendors the table shows. */
    function Shown(): (r: seq<Vendor>)
      reads this
      ensures forall v :: v in r <==> v in vendors && Matches(v, searchTerm)
    {
      FilterVendors(vendors, searchTerm)
    }
  }
}
