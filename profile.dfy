/**
 * The customer profile page (src/pages/dashboard/Profile.tsx): the form
 * fields derived from the loaded profile, and the edit mode that the Edit,
 * Save and Cancel buttons switch.
 */
module ProfilePage {
  import opened Wrappers
  import Text

  /** The loaded profile; any field may be missing. */
  datatype UserData = UserData(name: Option<string>, email: Option<string>, phone: Option<string>, address: Option<string>)

  datatype FormData = FormData(firstName: string, lastName: string, email: string, phone: string, address: string)

  datatype Field = FirstName | LastName | Email | Phone | Address

  /** `name?.split(' ')[0] || ''`. */
  function FirstNameOf(name: Option<string>): (r: string)
    ensures name.None? ==> r == ""
    ensures name.Some? ==> r == name.value[..Text.IndexOf(name.value, ' ')]
  {
    match name
    case None => ""
    case Some(n) => Text.Split(n, ' ')[0]
  }

  /** `name?.split(' ').slice(1).join(' ') || ''`. */
  function LastNameOf(name: Option<string>): (r: string)
    ensures name.None? ==> r == ""
    ensures name.Some? && ' ' !in name.value ==> r == ""
    ensures name.Some? && ' ' in name.value ==> r == name.value[Text.IndexOf(name.value, ' ') + 1..]
  {
    match name
    case None => ""
    case Some(n) =>
      var i := Text.IndexOf(n, ' ');
      if i == |n| then
        Text.SplitWithoutSeparator(n, ' ');
        Text.Join(Text.Split(n, ' ')[1..], ' ')
      else
        Text.SplitAtFirst(n, ' ');
        Text.JoinSplit(n[i + 1..], ' ');
        assert Text.Split(n, ' ')[1..] == Text.Split(n[i + 1..], ' ');
        Text.Join(Text.Split(n, ' ')[1..], ' ')
  }

  /**
   * The two fields give the name back: with a space, first name, one space
   * and last name make the whole name (the last name keeping any further
   * spaces); without one, the first name is the whole name and the last name
   * is empty.
   */
  lemma NameRoundTrip(name: string)
    ensures ' ' in name ==> FirstNameOf(Some(name)) + " " + LastNameOf(Some(name)) == name
    ensures ' ' !in name ==> FirstNameOf(Some(name)) == name && LastNameOf(Some(name)) == ""
  {
    var i := Text.IndexOf(name, ' ');
    if ' ' in name {
      assert name[..i] + " " + name[i + 1..] == name;
    }
  }

  /** The form's initial values, which Cancel restores; every missing field becomes `''`. */
  function Derived(u: Option<UserData>): (f: FormData)
    ensures u.None? ==> f == FormData("", "", "", "", "")
    ensures u.Some? ==> f.firstName == FirstNameOf(u.value.name) && f.lastName == LastNameOf(u.value.name)
    ensures u.Some? ==>
      f.email == u.value.email.GetOr("") && f.phone == u.value.phone.GetOr("") && f.address == u.value.address.GetOr("")
  {
    match u
    case None => FormData("", "", "", "", "")
    case Some(d) => FormData(FirstNameOf(d.name), LastNameOf(d.name), d.email.GetOr(""), d.phone.GetOr(""), d.address.GetOr(""))
  }

  function WithField(f: FormData, field: Field, value: string): (r: FormData) {
    match field
    case FirstName => f.(firstName := value)
    case LastName => f.(lastName := value)
    case Email => f.(email := value)
    case Phone => f.(phone := value)
    case Address => f.(address := value)
  }

  class ProfileForm {
    var isEditing: bool
    var formData: FormData
    /** The profile the page was opened with. */
    const userData: Option<UserData>

    constructor (userData: Option<UserData>)
      ensures !isEditing && formData == Derived(userData) && this.userData == userData
    {
      isEditing := false;
      formData := Derived(userData);
      this.userData := userData;
    }

    method StartEditing()
      modifies this
      ensures isEditing && formData == old(formData)
    {
      isEditing := true;
    }

    /** Typing into a field, which is enabled only in edit mode. */
    method Edit(field: Field, value: string)
      requires isEditing
      modifies this
      ensures isEditing && formData == WithField(old(formData), field, value)
    {
      formData := WithField(formData, field, value);
    }

    /** `handleSave`: only leaves edit mode; the edited values stay and nothing is sent. */
    method Save()
      modifies this
      ensures !isEditing && formData == old(formData)
    {
      isEditing := false;
    }

    /** `handleCancel`: the derived values come back and edit mode ends. */
    method Cancel()
      modifies this
      ensures !isEditing && formData == Derived(userData)
    {
      formData := Derived(userData);
      isEditing := false;
    }
  }
}
