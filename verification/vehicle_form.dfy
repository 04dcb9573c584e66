/** The vehicle form shared by the vehicle edit modal and the vehicle step
    of the create wizard: its validation, which differs between the two only
    in the client check, and the edit modal's input handling and submit. */
module VehicleForm {
  import opened Results
  import opened Text
  import opened NumberParsing
  import opened VehicleTypes

  /** The form's fields: the vehicle without its id. */
  datatype Form = Form(
    make: string,
    model: string,
    year: int,
    licensePlate: string,
    vin: string,
    horsePower: int,
    kilometrage: int,
    fuelType: FuelType,
    transmissionType: TransmissionType,
    clientId: string,
    lastServiceDate: string,
    nextServiceDue: string,
    notes: string
  )

  /** The inputs, by their `name`; also the keys of the error object. */
  datatype Field =
    | Make | Model | Year | LicensePlate | Vin | HorsePower | Kilometrage
    | Fuel | Transmission | ClientId | LastServiceDate | NextServiceDue | Notes

  /** Which modal validates: the create wizard trims the client id, the
      edit modal only tests it for emptiness. */
  datatype Modal = CreateModal | EditModal

  const MakeRequired := "Make is required"
  const ModelRequired := "Model is required"
  const YearInvalid := "Please enter a valid year"
  const PlateRequired := "License plate is required"
  const VinRequired := "VIN is required"
  const VinLength := "VIN must be 17 characters"
  const HorsePowerPositive := "Horse power must be greater than 0"
  const KilometrageNegative := "Kilometrage cannot be negative"
  const ClientIdRequired := "Client ID is required"
  const SelectClient := "Please select a client"
  const LastServiceRequired := "Last service date is required"
  const NextServiceRequired := "Next service due date is required"

  const VinSize := 17
  const FirstYear := 1900

  /** The client check of each modal. */
  predicate MissingClient(f: Form, modal: Modal) {
    match modal
    case CreateModal => IsBlank(f.clientId)
    case EditModal => f.clientId == ""
  }

  /** The error one field ends up with. The VIN has two checks and the
      length check, coming second, overwrites the "required" message. The
      year window ends one year after `currentYear`. */
  function FieldError(f: Form, field: Field, currentYear: int, modal: Modal): (r: Option<string>)
    ensures field == Vin ==> (r.Some? <==> IsBlank(f.vin) || |f.vin| != VinSize)
    ensures field == Vin && r.Some? ==> r.value == (if |f.vin| != VinSize then VinLength else VinRequired)
    ensures field == Year ==> (r.Some? <==> !(FirstYear <= f.year <= currentYear + 1))
    ensures field == ClientId && modal == CreateModal ==> (r.Some? <==> IsBlank(f.clientId))
    ensures field == ClientId && modal == EditModal ==> (r.Some? <==> f.clientId == "")
    ensures field == Fuel || field == Transmission || field == Notes ==> r.None?
  {
    match field
    case Make => if IsBlank(f.make) then Some(MakeRequired) else None
    case Model => if IsBlank(f.model) then Some(ModelRequired) else None
    case Year => if f.year < FirstYear || f.year > currentYear + 1 then Some(YearInvalid) else None
    case LicensePlate => if IsBlank(f.licensePlate) then Some(PlateRequired) else None
    case Vin =>
      if |f.vin| != VinSize then Some(VinLength)
      else if IsBlank(f.vin) then Some(VinRequired)
      else None
    case HorsePower => if f.horsePower <= 0 then Some(HorsePowerPositive) else None
    case Kilometrage => if f.kilometrage < 0 then Some(KilometrageNegative) else None
    case ClientId =>
      if MissingClient(f, modal) then Some(if modal == CreateModal then SelectClient else ClientIdRequired)
      else None
    case LastServiceDate => if f.lastServiceDate == "" then Some(LastServiceRequired) else None
    case NextServiceDue => if f.nextServiceDue == "" then Some(NextServiceRequired) else None
    case Fuel => None
    case Transmission => None
    case Notes => None
  }

  const AllFields: set<Field> :=
    {Make, Model, Year, LicensePlate, Vin, HorsePower, Kilometrage,
     Fuel, Transmission, ClientId, LastServiceDate, NextServiceDue, Notes}

  lemma EveryField(field: Field)
    ensures field in AllFields
  {
    match field
    case Make =>
    case Model =>
    case Year =>
    case LicensePlate =>
    case Vin =>
    case HorsePower =>
    case Kilometrage =>
    case Fuel =>
    case Transmission =>
    case ClientId =>
    case LastServiceDate =>
    case NextServiceDue =>
    case Notes =>
  }

  /** `validateForm` / `validateVehicleForm`: the error object, with a key
      for each field that has an error, holding that field's message. */
  function Validate(f: Form, currentYear: int, modal: Modal): (errors: map<Field, string>)
    ensures forall field :: field in errors <==> FieldError(f, field, currentYear, modal).Some?
    ensures forall field :: field in errors ==> errors[field] == FieldError(f, field, currentYear, modal).value
  {
    forall field ensures field in AllFields {
      EveryField(field);
    }
    map field | field in AllFields && FieldError(f, field, currentYear, modal).Some?
      :: FieldError(f, field, currentYear, modal).value
  }

  /** What an acceptable value of each field is, stated without the order
      of the checks: make, model and plate are filled in, the year lies in
      the window, the VIN has seventeen characters not all white space, the
      power is positive, the mileage not negative, the client is chosen (a
      filled-in id for the wizard, any non-empty id for the edit modal) and
      both dates are given. */
  ghost predicate FieldAcceptable(f: Form, field: Field, currentYear: int, modal: Modal) {
    match field
    case Make => Filled(f.make)
    case Model => Filled(f.model)
    case Year => FirstYear <= f.year <= currentYear + 1
    case LicensePlate => Filled(f.licensePlate)
    case Vin => |f.vin| == VinSize && Filled(f.vin)
    case HorsePower => f.horsePower > 0
    case Kilometrage => f.kilometrage >= 0
    case ClientId => if modal == CreateModal then Filled(f.clientId) else |f.clientId| > 0
    case LastServiceDate => |f.lastServiceDate| > 0
    case NextServiceDue => |f.nextServiceDue| > 0
    case Fuel => true
    case Transmission => true
    case Notes => true
  }

  ghost predicate Acceptable(f: Form, currentYear: int, modal: Modal) {
    forall field :: FieldAcceptable(f, field, currentYear, modal)
  }

  /** A field has no error exactly when its value is acceptable. */
  lemma FieldErrorIff(f: Form, field: Field, currentYear: int, modal: Modal)
    ensures FieldError(f, field, currentYear, modal).None? <==> FieldAcceptable(f, field, currentYear, modal)
  {
    match field
    case Make => BlankIffNotFilled(f.make);
    case Model => BlankIffNotFilled(f.model);
    case LicensePlate => BlankIffNotFilled(f.licensePlate);
    case Vin => BlankIffNotFilled(f.vin);
    case ClientId => BlankIffNotFilled(f.clientId);
    case Year =>
    case HorsePower =>
    case Kilometrage =>
    case LastServiceDate =>
    case NextServiceDue =>
    case Fuel =>
    case Transmission =>
    case Notes =>
  }

  /** The form validates (no error at all) exactly when it is acceptable. */
  lemma ValidIffAcceptable(f: Form, currentYear: int, modal: Modal)
    ensures Validate(f, currentYear, modal) == map[] <==> Acceptable(f, currentYear, modal)
  {
    forall field ensures FieldError(f, field, currentYear, modal).None? <==> FieldAcceptable(f, field, currentYear, modal) {
      FieldErrorIff(f, field, currentYear, modal);
    }
    var errors := Validate(f, currentYear, modal);
    if errors != map[] {
      var field :| field in errors;
    }
  }

  /** The two modals judge every field alike except the client id, and
      they disagree on it exactly when the id is non-empty but all white
      space: the wizard rejects it, the edit modal lets it through. */
  lemma ModalsDifferOnlyOnBlankClient(f: Form, currentYear: int)
    ensures forall field :: field != ClientId ==>
      FieldError(f, field, currentYear, CreateModal) == FieldError(f, field, currentYear, EditModal)
    ensures (ClientId in Validate(f, currentYear, CreateModal)) != (ClientId in Validate(f, currentYear, EditModal))
      <==> f.clientId != "" && IsBlank(f.clientId)
  {
    forall field | field != ClientId
      ensures FieldError(f, field, currentYear, CreateModal) == FieldError(f, field, currentYear, EditModal)
    {
    }
    assert "" == TrimEnd(TrimStart(""));
    assert ClientId in Validate(f, currentYear, CreateModal) <==> IsBlank(f.clientId);
    assert ClientId in Validate(f, currentYear, EditModal) <==> f.clientId == "";
  }

  /** A VIN of seventeen spaces is reported as missing, not as having the
      wrong length: it passes the length check that would have overwritten
      the "required" message. */
  lemma SeventeenSpacesVin(f: Form, currentYear: int, modal: Modal)
    requires |f.vin| == VinSize && AllSpace(f.vin)
    ensures Validate(f, currentYear, modal)[Vin] == VinRequired
  {
    BlankIffAllSpace(f.vin);
  }

  /* ---------------------------------------------------------------------- */
  /* The edit modal: populate, input changes, submit                         */
  /* ---------------------------------------------------------------------- */

  /** The populate effect: the form takes the vehicle's fields. */
  function Populate(v: Vehicle): Form {
    Form(v.make, v.model, v.year, v.licensePlate, v.vin, v.horsePower, v.kilometrage,
         v.fuelType, v.transmissionType, v.clientId, v.lastServiceDate, v.nextServiceDue, v.notes)
  }

  /** `{ ...vehicle, ...formData }`: the form's fields laid over the
      vehicle, which keeps its id. */
  function Merge(v: Vehicle, f: Form): (r: Vehicle)
    ensures r.id == v.id
  {
    Vehicle(v.id, f.make, f.model, f.year, f.vin, f.licensePlate, f.horsePower, f.kilometrage,
            f.fuelType, f.transmissionType, f.clientId, f.lastServiceDate, f.nextServiceDue, f.notes)
  }

  /** Submitting the form as populated gives back the vehicle unchanged. */
  lemma MergePopulated(v: Vehicle)
    ensures Merge(v, Populate(v)) == v
  {
  }

  /** The merged vehicle, populated again, shows the submitted form: no
      field of the form is lost in the overlay. */
  lemma PopulateMerged(v: Vehicle, f: Form)
    ensures Populate(Merge(v, f)) == f
  {
  }

  /** The state of the edit modal: the form and its error object. */
  datatype Editor = Editor(form: Form, errors: map<Field, string>)

  /** Opening the modal on a vehicle: the form populated, no error. */
  function Open(v: Vehicle): (r: Editor)
    ensures r.errors == map[] && Merge(v, r.form) == v
  {
    Editor(Populate(v), map[])
  }

  function FuelFromName(name: string): Option<FuelType> {
    if name == "GASOLINE" then Some(Gasoline)
    else if name == "DIESEL" then Some(Diesel)
    else if name == "ELECTRIC" then Some(Electric)
    else if name == "HYBRID" then Some(Hybrid)
    else None
  }

  function TransmissionFromName(name: string): Option<TransmissionType> {
    if name == "MANUAL" then Some(Manual)
    else if name == "AUTOMATIC" then Some(Automatic)
    else None
  }

  /** The three number inputs. */
  predicate IsNumberField(field: Field) {
    field == Year || field == HorsePower || field == Kilometrage
  }

  /** The form with one input's new value: the three number inputs go
      through `parseInt(value) || 0`, the two selects take the named
      option, every other input takes the text as typed. */
  function SetField(f: Form, field: Field, value: string): Form {
    match field
    case Make => f.(make := value)
    case Model => f.(model := value)
    case Year => f.(year := ParseIntOrZero(value))
    case LicensePlate => f.(licensePlate := value)
    case Vin => f.(vin := value)
    case HorsePower => f.(horsePower := ParseIntOrZero(value))
    case Kilometrage => f.(kilometrage := ParseIntOrZero(value))
    case Fuel => if FuelFromName(value).Some? then f.(fuelType := FuelFromName(value).value) else f
    case Transmission =>
      if TransmissionFromName(value).Some? then f.(transmissionType := TransmissionFromName(value).value) else f
    case ClientId => f.(clientId := value)
    case LastServiceDate => f.(lastServiceDate := value)
    case NextServiceDue => f.(nextServiceDue := value)
    case Notes => f.(notes := value)
  }

  /** `handleInputChange`: the input's field takes the new value and, when
      that field shows an error, the error is emptied (the key stays, with
      the empty message); every other entry of the error object is left
      alone. */
  function HandleInputChange(e: Editor, field: Field, value: string): (r: Editor)
    ensures r.form == SetField(e.form, field, value)
    ensures r.errors.Keys == e.errors.Keys
    ensures forall k :: k in e.errors && k != field ==> r.errors[k] == e.errors[k]
    ensures field in e.errors ==> r.errors[field] == ""
  {
    var errors := if field in e.errors && e.errors[field] != "" then e.errors[field := ""] else e.errors;
    Editor(SetField(e.form, field, value), errors)
  }

  /** Typing the decimal digits of a number into a number input stores
      that number. */
  lemma NumberInputReadsDecimal(e: Editor, field: Field, n: int)
    requires IsNumberField(field)
    ensures var f := HandleInputChange(e, field, Decimal(n)).form;
      (field == Year ==> f.year == n)
      && (field == HorsePower ==> f.horsePower == n)
      && (field == Kilometrage ==> f.kilometrage == n)
  {
    ParseDecimal(n);
  }

  /** Text that does not start (after white space) with a digit or a sign
      stores 0 in a number input; for the horse power that is an error the
      next submit reports. */
  lemma NonNumericInputIsZero(e: Editor, field: Field, value: string, currentYear: int)
    requires IsNumberField(field)
    requires var t := TrimStart(value); |t| > 0 && !IsDigit(t[0]) && t[0] != '-' && t[0] != '+'
    ensures var f := HandleInputChange(e, field, value).form;
      (field == Year ==> f.year == 0 && Year in Validate(f, currentYear, EditModal))
      && (field == HorsePower ==> f.horsePower == 0 && HorsePower in Validate(f, currentYear, EditModal))
      && (field == Kilometrage ==> f.kilometrage == 0)
  {
    NonNumericIsZero(value);
  }

  /** `handleSubmit`: the form is validated and, only when there is no
      error, the merged vehicle is handed to `onSave`; the error object
      shown afterwards is the one just computed. */
  function Submit(v: Vehicle, e: Editor, currentYear: int): (r: (Editor, Option<Vehicle>))
    ensures r.0.form == e.form
    ensures r.1.Some? <==> Acceptable(e.form, currentYear, EditModal)
    ensures r.1.Some? ==> r.1.value == Merge(v, e.form) && r.1.value.id == v.id
  {
    ValidIffAcceptable(e.form, currentYear, EditModal);
    var errors := Validate(e.form, currentYear, EditModal);
    var saved := if errors == map[] then Some(Merge(v, e.form)) else None;
    (Editor(e.form, errors), saved)
  }

  /** Submitting an unedited, acceptable form saves the vehicle as it
      was. */
  lemma UneditedSubmitSavesVehicle(v: Vehicle, currentYear: int)
    requires Acceptable(Populate(v), currentYear, EditModal)
    ensures Submit(v, Open(v), currentYear).1 == Some(v)
  {
  }
}
