/** The vendor's profile page: the profile form with its edit mode, and
    the password change with its checks, its messages and its reset. */
module ProfilePage {
  import opened Js

  /** The vendor record as the dashboard passes it; a field may be
      missing. */
  datatype Vendor = Vendor(businessName: JsVal, name: JsVal, email: JsVal, mobile: JsVal, address: JsVal)

  /** The profile form's five fields. */
  datatype ProfileField = BusinessName | Name | Email | Mobile | Address

  datatype PasswordField = Current | New | Confirm

  /** `v || ""` */
  function OrEmpty(v: JsVal): (r: JsVal)
    ensures Truthy(v) ==> r == v
    ensures !Truthy(v) ==> r == Str("")
  {
    if Truthy(v) then v else Str("")
  }

  function FieldOf(v: Vendor, f: ProfileField): JsVal {
    match f
    case BusinessName => v.businessName
    case Name => v.name
    case Email => v.email
    case Mobile => v.mobile
    case Address => v.address
  }

  /** The messages the password checks give, in the order they are made. */
  const FillAll := "Please fill all password fields"
  const Mismatch := "New passwords do not match"
  const TooShort := "New password must be at least 6 characters"
  const NotLoggedIn := "Not logged in!"
  const Changed := "Password changed successfully!"
  const MinPasswordLength := 6

  /** The first failed check of a password change, or `None` when the
      request may be sent. */
  function PasswordProblem(current: string, next: string, confirm: string, hasToken: bool): (e: Option<string>)
    ensures e.None? <==> current != "" && next != "" && confirm != "" && next == confirm && |next| >= MinPasswordLength && hasToken
    ensures (current == "" || next == "" || confirm == "") ==> e == Some(FillAll)
    ensures (current != "" && next != "" && confirm != "" && next != confirm) ==> e == Some(Mismatch)
    ensures (current != "" && next != "" && next == confirm && |next| < MinPasswordLength) ==> e == Some(TooShort)
    ensures (current != "" && next != "" && next == confirm && |next| >= MinPasswordLength && !hasToken) ==> e == Some(NotLoggedIn)
  {
    if current == "" || next == "" || confirm == "" then Some(FillAll)
    else if next != confirm then Some(Mismatch)
    else if |next| < MinPasswordLength then Some(TooShort)
    else if !hasToken then Some(NotLoggedIn)
    else None
  }

  /** What the password request came back with. */
  datatype PasswordReply = Accepted | Refused(message: string) | Threw(message: string)

  class Profile {
    var vendor: Option<Vendor>
    var form: map<ProfileField, JsVal>
    var editMode: bool
    var showPasswordChange: bool
    var passwordError: string
    var passwordSuccess: string
    var isChangingPassword: bool
    var passwords: map<PasswordField, string>

    /** The three password fields always have a value. */
    predicate Valid()
      reads this
    {
      Current in passwords && New in passwords && Confirm in passwords
    }

    /** The form starts from the vendor's fields, a missing one as "". */
    constructor (v: Option<Vendor>)
      ensures Valid()
      ensures vendor == v && !editMode && !showPasswordChange && !isChangingPassword
      ensures passwordError == "" && passwordSuccess == ""
      ensures passwords == map[Current := "", New := "", Confirm := ""]
      ensures form == map f: ProfileField | true :: if v.Some? then OrEmpty(FieldOf(v.value, f)) else Str("")
    {
      vendor := v;
      form := map f: ProfileField | true :: if v.Some? then OrEmpty(FieldOf(v.value, f)) else Str("");
      editMode := false;
      showPasswordChange := false;
      passwordError := "";
      passwordSuccess := "";
      isChangingPassword := false;
      passwords := map[Current := "", New := "", Confirm := ""];
    }

    /** `handleEditClick`: with a vendor, the form takes the vendor's
        fields as they are and edit mode starts; without one nothing
        changes. */
    method EditClick()
      modifies this
      ensures vendor.Some? ==> editMode && form == map f: ProfileField | true :: FieldOf(vendor.value, f)
      ensures vendor.None? ==> editMode == old(editMode) && form == old(form)
      ensures vendor == old(vendor) && showPasswordChange == old(showPasswordChange)
      ensures passwordError == old(passwordError) && passwordSuccess == old(passwordSuccess)
      ensures isChangingPassword == old(isChangingPassword) && passwords == old(passwords)
    {
      if vendor.Some? {
        form := map f: ProfileField | true :: FieldOf(vendor.value, f);
        editMode := true;
      }
    }

    /** The Cancel button of the profile form: edit mode ends and the
        typed values stay in the form. */
    method CancelEdit()
      modifies this`editMode
      ensures !editMode
    {
      editMode := false;
    }

    /** `handleChange`: only the named field changes. */
    method ChangeField(f: ProfileField, value: string)
      modifies this
      ensures form == old(form)[f := Str(value)]
      ensures vendor == old(vendor) && editMode == old(editMode) && showPasswordChange == old(showPasswordChange)
      ensures passwordError == old(passwordError) && passwordSuccess == old(passwordSuccess)
      ensures isChangingPassword == old(isChangingPassword) && passwords == old(passwords)
    {
      form := form[f := Str(value)];
    }

    /** `handlePasswordChange`: only the named field changes. */
    method ChangePassword(f: PasswordField, value: string)
      requires Valid()
      modifies this
      ensures Valid()
      ensures passwords == old(passwords)[f := value]
      ensures vendor == old(vendor) && form == old(form) && editMode == old(editMode)
      ensures showPasswordChange == old(showPasswordChange) && isChangingPassword == old(isChangingPassword)
      ensures passwordError == old(passwordError) && passwordSuccess == old(passwordSuccess)
    {
      passwords := passwords[f := value];
    }

    /** `handlePasswordSave`: both messages are cleared, then the checks run
        in order and the first failure is shown; only when all pass is the
        request sent (`sent`). The server's refusal shows its message (or a
        default), an accepted change shows the success message and waits
        for `ChangeShown`. */
    method SavePassword(hasToken: bool, reply: PasswordReply) returns (sent: bool)
      requires Valid()
      modifies this
      ensures var problem := PasswordProblem(old(passwords[Current]), old(passwords[New]), old(passwords[Confirm]), hasToken);
        (sent <==> problem.None?)
        && (problem.Some? ==> passwordError == problem.value && passwordSuccess == "" && isChangingPassword == old(isChangingPassword))
      ensures sent && reply.Accepted? ==> passwordError == "" && passwordSuccess == Changed && isChangingPassword
      ensures sent && reply.Refused? ==>
        passwordError == (if reply.message != "" then reply.message else "Failed to change password")
        && passwordSuccess == "" && !isChangingPassword
      ensures sent && reply.Threw? ==>
        passwordError == (if reply.message != "" then reply.message else "An error occurred")
        && passwordSuccess == "" && !isChangingPassword
      ensures vendor == old(vendor) && form == old(form) && editMode == old(editMode)
      ensures showPasswordChange == old(showPasswordChange) && passwords == old(passwords)
    {
      passwordError := "";
      passwordSuccess := "";
      var problem := PasswordProblem(passwords[Current], passwords[New], passwords[Confirm], hasToken);
      if problem.Some? {
        passwordError := problem.value;
        return false;
      }
      sent := true;
      isChangingPassword := true;
      match reply
      case Accepted =>
        passwordSuccess := Changed;
      case Refused(m) =>
        passwordError := if m != "" then m else "Failed to change password";
        isChangingPassword := false;
      case Threw(m) =>
        passwordError := if m != "" then m else "An error occurred";
        isChangingPassword := false;
    }

    /** Two seconds after a successful change: the panel closes and the
        fields and messages are cleared. */
    method ChangeShown()
      modifies this
      ensures !showPasswordChange && !isChangingPassword
      ensures passwords == map[Current := "", New := "", Confirm := ""]
      ensures passwordError == "" && passwordSuccess == ""
      ensures vendor == old(vendor) && form == old(form) && editMode == old(editMode)
    {
      showPasswordChange := false;
      passwords := map[Current := "", New := "", Confirm := ""];
      passwordSuccess := "";
      passwordError := "";
      isChangingPassword := false;
    }

    /** The "Change Password" button opens the panel. */
    method OpenPasswordPanel()
      requires Valid()
      modifies this
      ensures Valid() && showPasswordChange
      ensures vendor == old(vendor) && form == old(form) && editMode == old(editMode)
      ensures passwordError == old(passwordError) && passwordSuccess == old(passwordSuccess)
      ensures isChangingPassword == old(isChangingPassword) && passwords == old(passwords)
    {
      showPasswordChange := true;
    }

    /** The cancel button of the password panel, disabled while a change is
        being made: otherwise it closes the panel and clears the fields and
        the messages. */
    method CancelPassword()
      modifies this
      ensures old(isChangingPassword) ==>
        showPasswordChange == old(showPasswordChange) && passwords == old(passwords)
        && passwordError == old(passwordError) && passwordSuccess == old(passwordSuccess)
      ensures !old(isChangingPassword) ==>
        !showPasswordChange && passwords == map[Current := "", New := "", Confirm := ""]
        && passwordError == "" && passwordSuccess == ""
      ensures vendor == old(vendor) && form == old(form) && editMode == old(editMode)
      ensures isChangingPassword == old(isChangingPassword)
    {
      if !isChangingPassword {
        showPasswordChange := false;
        passwords := map[Current := "", New := "", Confirm := ""];
        passwordError := "";
        passwordSuccess := "";
      }
    }

    /** `handleSave`: without a token nothing is sent; an accepted update
        hands the returned vendor to the dashboard (the result) and leaves
        edit mode, a failed one changes nothing. */
    method SaveProfile(hasToken: bool, updated: Option<Vendor>) returns (handedBack: Option<Vendor>)
      modifies this
      ensures hasToken && updated.Some? ==> handedBack == updated && !editMode
      ensures !(hasToken && updated.Some?) ==> handedBack == None && editMode == old(editMode)
      ensures vendor == old(vendor) && form == old(form) && showPasswordChange == old(showPasswordChange)
      ensures passwordError == old(passwordError) && passwordSuccess == old(passwordSuccess)
      ensures isChangingPassword == old(isChangingPassword) && passwords == old(passwords)
    {
      handedBack := None;
      if hasToken && updated.Some? {
        handedBack := updated;
        editMode := false;
      }
    }
  }
}
