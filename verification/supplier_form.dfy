/** The supplier edit form's validation and submit gate. */
module SupplierForm {
  import opened Results
  import opened Text
  import opened Patterns
  import opened SupplierTypes

  /** The fields that can carry an error. IF, RC, website, payment terms,
      currency, country and notes are never checked. */
  datatype Field = CompanyName | Ice | Address | City | ContactPerson | Phone | Email | Rating

  const CompanyNameRequired := "Company name is required"
  const IceRequired := "ICE is required"
  const IceFormat := "ICE must be 15 digits"
  const AddressRequired := "Address is required"
  const CityRequired := "City is required"
  const ContactRequired := "Contact person is required"
  const PhoneRequired := "Phone is required"
  const EmailRequired := "Email is required"
  const EmailFormat := "Invalid email format"
  const RatingRange := "Rating must be between 1 and 5"

  /** `formData.rating && (rating < 1 || rating > 5)`: an absent or zero
      rating is falsy and skips the range check. */
  predicate RatingOutOfRange(rating: Option<real>) {
    rating.Some? && rating.value != 0.0 && (rating.value < 1.0 || rating.value > 5.0)
  }

  /** The error one field of the form gets, if any; one `if` of
      `validateForm` each. The ICE and the e-mail are tested untrimmed once
      they are found not to be blank. */
  function FieldError(f: UpdateSupplierRequest, field: Field): (r: Option<string>)
    ensures field == Ice ==> (r.Some? <==> MissingText(f.ice) || !IcePattern(f.ice.value))
    ensures field == Ice && r.Some? ==> r.value == (if MissingText(f.ice) then IceRequired else IceFormat)
    ensures field == Email ==> (r.Some? <==> MissingText(f.email) || !EmailSpec(f.email.value))
    ensures field == Email && r.Some? ==> r.value == (if MissingText(f.email) then EmailRequired else EmailFormat)
  {
    match field
    case CompanyName => if MissingText(f.companyName) then Some(CompanyNameRequired) else None
    case Ice =>
      if MissingText(f.ice) then Some(IceRequired)
      else if !IcePattern(f.ice.value) then Some(IceFormat)
      else None
    case Address => if MissingText(f.address) then Some(AddressRequired) else None
    case City => if MissingText(f.city) then Some(CityRequired) else None
    case ContactPerson => if MissingText(f.contactPerson) then Some(ContactRequired) else None
    case Phone => if MissingText(f.phone) then Some(PhoneRequired) else None
    case Email =>
      if MissingText(f.email) then Some(EmailRequired)
      else if !MatchesEmail(f.email.value) then Some(EmailFormat)
      else None
    case Rating => if RatingOutOfRange(f.rating) then Some(RatingRange) else None
  }

  const AllFields: set<Field> := {CompanyName, Ice, Address, City, ContactPerson, Phone, Email, Rating}

  lemma EveryField(field: Field)
    ensures field in AllFields
  {
    match field
    case CompanyName =>
    case Ice =>
    case Address =>
    case City =>
    case ContactPerson =>
    case Phone =>
    case Email =>
    case Rating =>
  }

  /** `validateForm`: the error object, with a key for each field that
      has an error, holding that field's message. */
  function Validate(f: UpdateSupplierRequest): (errors: map<Field, string>)
    ensures forall field :: field in errors <==> FieldError(f, field).Some?
    ensures forall field :: field in errors ==> errors[field] == FieldError(f, field).value
  {
    forall field ensures field in AllFields {
      EveryField(field);
    }
    map field | field in AllFields && FieldError(f, field).Some? :: FieldError(f, field).value
  }

  /** What an acceptable value of one field is, stated without the
      checks' order: the five text fields hold some character that is not
      white space, the ICE is fifteen digits, the e-mail has the
      `local@domain.tld` shape, and the rating is absent, 0, or between 1
      and 5. */
  ghost predicate FieldAcceptable(f: UpdateSupplierRequest, field: Field) {
    match field
    case CompanyName => HasText(f.companyName)
    case Ice => f.ice.Some? && IcePattern(f.ice.value)
    case Address => HasText(f.address)
    case City => HasText(f.city)
    case ContactPerson => HasText(f.contactPerson)
    case Phone => HasText(f.phone)
    case Email => f.email.Some? && EmailSpec(f.email.value)
    case Rating => f.rating.None? || f.rating.value == 0.0 || 1.0 <= f.rating.value <= 5.0
  }

  ghost predicate Acceptable(f: UpdateSupplierRequest) {
    forall field :: FieldAcceptable(f, field)
  }

  /** A field has no error exactly when its value is acceptable. */
  lemma FieldErrorIff(f: UpdateSupplierRequest, field: Field)
    ensures FieldError(f, field).None? <==> FieldAcceptable(f, field)
  {
    match field
    case CompanyName => MissingTextIff(f.companyName);
    case Address => MissingTextIff(f.address);
    case City => MissingTextIff(f.city);
    case ContactPerson => MissingTextIff(f.contactPerson);
    case Phone => MissingTextIff(f.phone);
    case Ice =>
      if f.ice.Some? && IcePattern(f.ice.value) {
        IceNotBlank(f.ice.value);
      }
    case Email =>
      if f.email.Some? && EmailSpec(f.email.value) {
        EmailNotBlank(f.email.value);
      }
    case Rating =>
  }

  /** The form validates (no error at all) exactly when it is
      acceptable. */
  lemma ValidIffAcceptable(f: UpdateSupplierRequest)
    ensures Validate(f) == map[] <==> Acceptable(f)
  {
    forall field ensures FieldError(f, field).None? <==> FieldAcceptable(f, field) {
      FieldErrorIff(f, field);
    }
    var errors := Validate(f);
    if errors != map[] {
      var field :| field in errors;
    }
  }

  /** A zero rating passes although it lies outside 1..5: the check is
      skipped for a falsy rating. */
  lemma ZeroRatingPasses(f: UpdateSupplierRequest)
    requires f.rating == Some(0.0)
    ensures Rating !in Validate(f)
  {
  }

  /** `handleSubmit`: the form is handed to `onSave` only when it
      validates. */
  function Submit(f: UpdateSupplierRequest): (r: Option<UpdateSupplierRequest>)
    ensures r.Some? ==> r.value == f
    ensures r.Some? <==> Acceptable(f)
  {
    ValidIffAcceptable(f);
    if Validate(f) == map[] then Some(f) else None
  }
}
