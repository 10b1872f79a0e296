/** The new-administrator form (src/components/admin/forms/AdminForm.tsx):
    the form record, its update handlers, the select-all toggle over the
    permission map, and the password confirmation that gates submission. */
module AdminForm {
  import opened Wrappers

  /** `formData`. */
  datatype AdminData = AdminData(
    name: string, email: string, password: string, confirmPassword: string,
    role: string, phone: string, department: string,
    isActive: bool, permissions: map<string, bool>)

  /** The inputs wired to `handleInputChange`: the seven text inputs and
      selects, and the active switch. */
  datatype TextField = Name | Email | Password | ConfirmPassword | Role | Phone | Department

  /** The text a field holds. */
  function TextOf(d: AdminData, field: TextField): string {
    match field
    case Name => d.name
    case Email => d.email
    case Password => d.password
    case ConfirmPassword => d.confirmPassword
    case Role => d.role
    case Phone => d.phone
    case Department => d.department
  }

  datatype Input = TextInput(field: TextField, value: string) | ActiveSwitch(on: bool)

  /** The ten permission keys, in the order the form lists them. */
  const PermissionKeys: seq<string> := ["dashboard", "orders", "restaurants", "users", "deliverers",
                                        "ads", "promotions", "financial", "settings", "admins"]

  /** The form as it opens: empty texts, active, and every permission off. */
  function InitialData(): (d: AdminData)
    ensures d.permissions.Keys == set k | k in PermissionKeys
    ensures forall k :: k in d.permissions ==> !d.permissions[k]
    ensures d.isActive
    ensures forall f :: TextOf(d, f) == ""
  {
    AdminData("", "", "", "", "", "", "", true, map k | k in PermissionKeys :: false)
  }

  /** `handleInputChange(field, value)`: `{...prev, [field]: value}`. */
  function WithInput(d: AdminData, input: Input): (r: AdminData)
    ensures r.permissions == d.permissions
    ensures input.ActiveSwitch? ==> r == d.(isActive := input.on)
    ensures input.TextInput? ==> r.isActive == d.isActive
    ensures input.TextInput? ==> TextOf(r, input.field) == input.value
    ensures input.TextInput? ==> forall f :: f != input.field ==> TextOf(r, f) == TextOf(d, f)
  {
    match input
    case ActiveSwitch(on) => d.(isActive := on)
    case TextInput(field, v) =>
      match field
      case Name => d.(name := v)
      case Email => d.(email := v)
      case Password => d.(password := v)
      case ConfirmPassword => d.(confirmPassword := v)
      case Role => d.(role := v)
      case Phone => d.(phone := v)
      case Department => d.(department := v)
  }

  /** `handlePermissionChange(key, checked)`. */
  function WithPermission(d: AdminData, key: string, checked: bool): (r: AdminData)
    ensures key in r.permissions && r.permissions[key] == checked
    ensures r.permissions.Keys == d.permissions.Keys + {key}
    ensures forall k :: k in d.permissions && k != key ==> r.permissions[k] == d.permissions[k]
    ensures r.(permissions := d.permissions) == d
  {
    d.(permissions := d.permissions[key := checked])
  }

  /** `Object.values(permissions).every(p => p)`. */
  predicate AllGranted(perms: map<string, bool>) {
    forall k :: k in perms ==> perms[k]
  }

  /** The map `selectAllPermissions` builds: the same keys, every one set to
      `value`. */
  function AllSetTo(perms: map<string, bool>, value: bool): (r: map<string, bool>)
    ensures r.Keys == perms.Keys
    ensures forall k :: k in r ==> r[k] == value
  {
    map k | k in perms :: value
  }

  /** `selectAllPermissions` as a function of the form: every permission
      becomes false when all were true, and true otherwise. */
  function SelectedAll(d: AdminData): (r: AdminData)
    ensures r.permissions.Keys == d.permissions.Keys
    ensures AllGranted(d.permissions) ==> forall k :: k in r.permissions ==> !r.permissions[k]
    ensures !AllGranted(d.permissions) ==> AllGranted(r.permissions)
    ensures r.(permissions := d.permissions) == d
  {
    d.(permissions := AllSetTo(d.permissions, !AllGranted(d.permissions)))
  }

  /** After one select-all every permission holds the same value, so a
      second one flips them all: the button toggles between all-on and
      all-off. */
  lemma SelectAllTwiceFlips(d: AdminData)
    requires d.permissions != map[]
    ensures var once := SelectedAll(d);
            var twice := SelectedAll(once);
            twice.permissions.Keys == d.permissions.Keys
            && forall k :: k in twice.permissions ==> twice.permissions[k] == !once.permissions[k]
  {
    var once := SelectedAll(d);
    var k0 :| k0 in d.permissions;
    assert k0 in once.permissions;
    if AllGranted(once.permissions) {
      assert once.permissions[k0];
    } else {
      assert forall k :: k in once.permissions ==> !once.permissions[k];
    }
  }

  /** From the opening form, select-all turns all ten permissions on. */
  lemma SelectAllFromInitial()
    ensures AllGranted(SelectedAll(InitialData()).permissions)
    ensures SelectedAll(InitialData()).permissions.Keys == set k | k in PermissionKeys
  {
    var d := InitialData();
    assert "dashboard" in d.permissions && !d.permissions["dashboard"];
  }

  /** `handleSubmit`: the form is handed to `onSubmit`, unchanged, exactly
      when the two password fields agree; otherwise nothing is submitted. */
  function Submitted(d: AdminData): (r: Option<AdminData>)
    ensures r.Some? <==> d.password == d.confirmPassword
    ensures r.Some? ==> r.value == d
  {
    if d.password != d.confirmPassword then None else Some(d)
  }

  /** Ticking permissions, the active switch, select-all and typing into
      any field but the two password fields never change whether the form
      may be submitted; only the two password fields do. */
  lemma OnlyPasswordsGateSubmit(d: AdminData, key: string, checked: bool, on: bool, field: TextField, text: string)
    ensures Submitted(WithPermission(d, key, checked)).Some? == Submitted(d).Some?
    ensures field != Password && field != ConfirmPassword
            ==> Submitted(WithInput(d, TextInput(field, text))).Some? == Submitted(d).Some?
    ensures Submitted(WithInput(d, ActiveSwitch(on))).Some? == Submitted(d).Some?
    ensures Submitted(SelectedAll(d)).Some? == Submitted(d).Some?
  {
    assert WithPermission(d, key, checked).password == d.password;
    assert WithPermission(d, key, checked).confirmPassword == d.confirmPassword;
    assert SelectedAll(d).password == d.password;
    assert SelectedAll(d).confirmPassword == d.confirmPassword;
  }

  /** Typing the same text into both password fields makes the form
      submittable, whatever it held before. */
  lemma MatchingPasswordsSubmit(d: AdminData, secret: string)
    ensures Submitted(WithInput(WithInput(d, TextInput(Password, secret)), TextInput(ConfirmPassword, secret))).Some?
  {
  }

  /** The form's state: `formData`, replaced by each handler. */
  class AdminFormScreen {
    var formData: AdminData

    constructor ()
      ensures formData == InitialData()
    {
      formData := InitialData();
    }

    method InputChange(input: Input)
      modifies this
      ensures formData == WithInput(old(formData), input)
    {
      formData := WithInput(formData, input);
    }

    method PermissionChange(key: string, checked: bool)
      modifies this
      ensures formData == WithPermission(old(formData), key, checked)
    {
      formData := WithPermission(formData, key, checked);
    }

    /** `selectAllPermissions`: decide from the current values, then build
        the new map key by key in an accumulator. */
    method SelectAllPermissions()
      modifies this
      ensures formData == SelectedAll(old(formData))
    {
      var perms := formData.permissions;
      var allSelected := AllGranted(perms);
      var acc: map<string, bool> := map[];
      var remaining := perms.Keys;
      while remaining != {}
        invariant remaining <= perms.Keys
        invariant acc.Keys == perms.Keys - remaining
        invariant forall k :: k in acc ==> acc[k] == !allSelected
        decreases remaining
      {
        var key :| key in remaining;
        acc := acc[key := !allSelected];
        remaining := remaining - {key};
      }
      assert acc == AllSetTo(perms, !allSelected);
      formData := formData.(permissions := acc);
    }

    /** `handleSubmit`: what reaches `onSubmit`, if anything. The form is
        left as it is. */
    method Submit() returns (submitted: Option<AdminData>)
      ensures submitted.Some? <==> formData.password == formData.confirmPassword
      ensures submitted.Some? ==> submitted.value == formData
    {
      if formData.password != formData.confirmPassword {
        return None;
      }
      submitted := Some(formData);
    }
  }
}
