/**
 * The buyer's profile editor (ProfileForm.tsx): five text fields prefilled
 * from the current user, updated one at a time, and merged back into the
 * user on submit.
 */
module ProfileForm {
  import opened Types

  datatype ProfileFields = ProfileFields(name: string, email: string, street: string, city: string, zipCode: string)

  /** The `name` attribute of each input. */
  datatype ProfileField = NameField | EmailField | StreetField | CityField | ZipCodeField

  const BlankProfile := ProfileFields("", "", "", "", "")

  function FieldValue(f: ProfileFields, field: ProfileField): string
  {
    match field
    case NameField => f.name
    case EmailField => f.email
    case StreetField => f.street
    case CityField => f.city
    case ZipCodeField => f.zipCode
  }

  /** `handleChange`: the named field takes the new text, every other field keeps its text. */
  function WithField(f: ProfileFields, field: ProfileField, value: string): (r: ProfileFields)
    ensures FieldValue(r, field) == value
    ensures forall other :: other != field ==> FieldValue(r, other) == FieldValue(f, other)
  {
    match field
    case NameField => f.(name := value)
    case EmailField => f.(email := value)
    case StreetField => f.(street := value)
    case CityField => f.(city := value)
    case ZipCodeField => f.(zipCode := value)
  }

  /** The form prefilled from a user. */
  function FieldsOf(u: User): ProfileFields
  {
    ProfileFields(u.name, u.email, u.address.street, u.address.city, u.address.zipCode)
  }

  /**
   * `handleSubmit`: the user with name and email from the form and the address
   * replaced as a whole by the three address fields; the id is kept.
   */
  function Submit(f: ProfileFields, currentUser: User): (r: User)
    ensures r.id == currentUser.id
    ensures FieldsOf(r) == f
  {
    currentUser.(name := f.name, email := f.email, address := Address(f.street, f.city, f.zipCode))
  }

  /** Only an open form can be submitted: a closed one renders nothing. */
  function SaveRequest(isOpen: bool, f: ProfileFields, currentUser: User): (r: Option<User>)
    ensures r.Some? <==> isOpen
    ensures r.Some? ==> r.value == Submit(f, currentUser)
  {
    if isOpen then Some(Submit(f, currentUser)) else None
  }

  /** Saving the prefilled form without edits gives the current user back. */
  lemma ProfileRoundTrip(u: User)
    ensures Submit(FieldsOf(u), u) == u
  {
  }

  /** A user is determined by its id and its form fields: two submits agree exactly when their fields do. */
  lemma SubmitInjective(f: ProfileFields, g: ProfileFields, u: User)
    ensures Submit(f, u) == Submit(g, u) <==> f == g
  {
    if Submit(f, u) == Submit(g, u) {
      assert FieldsOf(Submit(f, u)) == FieldsOf(Submit(g, u));
    }
  }

  /** Editing one field and saving changes the user in that field alone. */
  lemma OneFieldEdit(u: User, field: ProfileField, value: string)
    ensures FieldsOf(Submit(WithField(FieldsOf(u), field, value), u)) == WithField(FieldsOf(u), field, value)
    ensures Submit(WithField(FieldsOf(u), field, value), u).id == u.id
    ensures forall other :: other != field ==>
      FieldValue(FieldsOf(Submit(WithField(FieldsOf(u), field, value), u)), other) == FieldValue(FieldsOf(u), other)
  {
  }

  /** The form's state slot. */
  class ProfileFormState {
    var formData: ProfileFields

    constructor()
      ensures formData == BlankProfile
    {
      formData := BlankProfile;
    }

    /** The effect: prefill from the current user when there is one, otherwise leave the fields alone. */
    method Sync(currentUser: Option<User>)
      modifies this
      ensures currentUser.Some? ==> formData == FieldsOf(currentUser.value)
      ensures currentUser.None? ==> formData == old(formData)
    {
      if currentUser.Some? {
        formData := FieldsOf(currentUser.value);
      }
    }

    /** `handleChange`: one input changed. */
    method HandleChange(field: ProfileField, value: string)
      modifies this
      ensures formData == WithField(old(formData), field, value)
    {
      formData := WithField(formData, field, value);
    }
  }
}
