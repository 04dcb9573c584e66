/** The create wizard's client form and its validation. */
module ClientForm {
  import opened Results
  import opened Text
  import opened Patterns

  datatype Form = Form(
    firstName: string,
    lastName: string,
    email: string,
    phoneNumber: string,
    streetAddress: string,
    city: string,
    postalCode: string,
    country: string,
    notes: string
  )

  /** The empty form the wizard starts from and returns to on close. */
  const EmptyForm := Form("", "", "", "", "", "", "", "", "")

  /** The fields that can carry an error; the notes are never checked. */
  datatype Field = FirstName | LastName | Email | PhoneNumber | StreetAddress | City | PostalCode | Country

  const FirstNameRequired := "First name is required"
  const LastNameRequired := "Last name is required"
  const EmailRequired := "Email is required"
  const EmailInvalid := "Please enter a valid email"
  const PhoneRequired := "Phone number is required"
  const StreetRequired := "Street address is required"
  const CityRequired := "City is required"
  const PostalCodeRequired := "Postal code is required"
  const CountryRequired := "Country is required"

  /** The error of one field: each must be filled in once trimmed, and the
      e-mail, checked as typed, must also have the `local@domain.tld`
      shape. */
  function FieldError(f: Form, field: Field): (r: Option<string>)
    ensures field == Email ==> (r.Some? <==> IsBlank(f.email) || !EmailSpec(f.email))
    ensures field == Email && r.Some? ==> r.value == (if IsBlank(f.email) then EmailRequired else EmailInvalid)
  {
    match field
    case FirstName => if IsBlank(f.firstName) then Some(FirstNameRequired) else None
    case LastName => if IsBlank(f.lastName) then Some(LastNameRequired) else None
    case Email =>
      if IsBlank(f.email) then Some(EmailRequired)
      else if !MatchesEmail(f.email) then Some(EmailInvalid)
      else None
    case PhoneNumber => if IsBlank(f.phoneNumber) then Some(PhoneRequired) else None
    case StreetAddress => if IsBlank(f.streetAddress) then Some(StreetRequired) else None
    case City => if IsBlank(f.city) then Some(CityRequired) else None
    case PostalCode => if IsBlank(f.postalCode) then Some(PostalCodeRequired) else None
    case Country => if IsBlank(f.country) then Some(CountryRequired) else None
  }

  const AllFields: set<Field> := {FirstName, LastName, Email, PhoneNumber, StreetAddress, City, PostalCode, Country}

  lemma EveryField(field: Field)
    ensures field in AllFields
  {
    match field
    case FirstName =>
    case LastName =>
    case Email =>
    case PhoneNumber =>
    case StreetAddress =>
    case City =>
    case PostalCode =>
    case Country =>
  }

  /** `validateClientForm`: the error object, with a key for each field
      that has an error, holding that field's message. */
  function Validate(f: Form): (errors: map<Field, string>)
    ensures forall field :: field in errors <==> FieldError(f, field).Some?
    ensures forall field :: field in errors ==> errors[field] == FieldError(f, field).value
  {
    forall field ensures field in AllFields {
      EveryField(field);
    }
    map field | field in AllFields && FieldError(f, field).Some? :: FieldError(f, field).value
  }

  /** The value of a field is acceptable: filled in, and for the e-mail of
      the `local@domain.tld` shape. */
  ghost predicate FieldAcceptable(f: Form, field: Field) {
    match field
    case FirstName => Filled(f.firstName)
    case LastName => Filled(f.lastName)
    case Email => EmailSpec(f.email)
    case PhoneNumber => Filled(f.phoneNumber)
    case StreetAddress => Filled(f.streetAddress)
    case City => Filled(f.city)
    case PostalCode => Filled(f.postalCode)
    case Country => Filled(f.country)
  }

  ghost predicate Acceptable(f: Form) {
    forall field :: FieldAcceptable(f, field)
  }

  /** A field has no error exactly when its value is acceptable. */
  lemma FieldErrorIff(f: Form, field: Field)
    ensures FieldError(f, field).None? <==> FieldAcceptable(f, field)
  {
    match field
    case FirstName => BlankIffNotFilled(f.firstName);
    case LastName => BlankIffNotFilled(f.lastName);
    case Email =>
      if EmailSpec(f.email) {
        EmailNotBlank(f.email);
      }
    case PhoneNumber => BlankIffNotFilled(f.phoneNumber);
    case StreetAddress => BlankIffNotFilled(f.streetAddress);
    case City => BlankIffNotFilled(f.city);
    case PostalCode => BlankIffNotFilled(f.postalCode);
    case Country => BlankIffNotFilled(f.country);
  }

  /** The form validates (no error at all) exactly when it is acceptable. */
  lemma ValidIffAcceptable(f: Form)
    ensures Validate(f) == map[] <==> Acceptable(f)
  {
    forall field ensures FieldError(f, field).None? <==> FieldAcceptable(f, field) {
      FieldErrorIff(f, field);
    }
    var errors := Validate(f);
    if errors != map[] {
      var field :| field in errors;
    }
  }

  /** The empty form reports every field as missing. */
  lemma EmptyFormReportsAll(field: Field)
    ensures field in Validate(EmptyForm)
  {
    FieldErrorIff(EmptyForm, field);
    assert !FieldAcceptable(EmptyForm, field);
  }
}
