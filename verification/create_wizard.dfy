/** The create wizard: a client step, a vehicle step and a completion
    step, entered according to what is being created. The backend's answer
    to each submit is an input (`Success` with the new client's id, or
    `Failure` with a message). */
module CreateWizard {
  import opened Results
  import opened VehicleTypes
  import ClientForm
  import VehicleForm

  /** The `type` prop: `'client'`, `'vehicle'` or `'both'`. */
  datatype CreateType = ClientType | VehicleType | BothTypes

  datatype Step = ClientStep | VehicleStep | Complete

  /** What stays fixed while the wizard is open: the props and the current
      year. `preSelected` is the `preSelectedClientId` prop. */
  datatype Session = Session(kind: CreateType, preSelected: Option<string>, currentYear: int)

  datatype Wizard = Wizard(
    step: Step,
    createdClientId: Option<string>,
    error: Option<string>,
    client: ClientForm.Form,
    vehicle: VehicleForm.Form,
    clientErrors: map<ClientForm.Field, string>,
    vehicleErrors: map<VehicleForm.Field, string>
  )

  /** A pre-selected client id that is present and not empty. */
  predicate HasPreSelection(s: Session) {
    s.preSelected.Some? && s.preSelected.value != ""
  }

  /** The empty vehicle form: this year, no power or mileage, gasoline,
      manual gearbox, and the given client. */
  function EmptyVehicle(currentYear: int, clientId: string): VehicleForm.Form {
    VehicleForm.Form("", "", currentYear, "", "", 0, 0, Gasoline, Manual, clientId, "", "", "")
  }

  /** The state on first render and after every close: the client step,
      empty forms, no error. */
  function Reset(currentYear: int, clientId: string): (r: Wizard)
    ensures r.step == ClientStep && r.createdClientId.None? && r.error.None?
    ensures r.clientErrors == map[] && r.vehicleErrors == map[]
  {
    Wizard(ClientStep, None, None, ClientForm.EmptyForm, EmptyVehicle(currentYear, clientId), map[], map[])
  }

  /** The first render, before the open effect: the vehicle form holds the
      pre-selected client, if any. */
  function Initial(s: Session): Wizard {
    Reset(s.currentYear, if HasPreSelection(s) then s.preSelected.value else "")
  }

  /** The open effect: a vehicle-only wizard starts at the vehicle step and
      the others at the client step; the created client and the error are
      cleared, and a pre-selected client is put in the vehicle form. */
  function Open(w: Wizard, s: Session): (r: Wizard)
    ensures r.step == (if s.kind == VehicleType then VehicleStep else ClientStep)
    ensures r.createdClientId.None? && r.error.None?
    ensures HasPreSelection(s) ==> r.vehicle.clientId == s.preSelected.value
    ensures !HasPreSelection(s) ==> r.vehicle == w.vehicle
    ensures r.client == w.client
  {
    var step := if s.kind == VehicleType then VehicleStep else ClientStep;
    var vehicle := if HasPreSelection(s) then w.vehicle.(clientId := s.preSelected.value) else w.vehicle;
    w.(step := step, createdClientId := None, error := None, vehicle := vehicle)
  }

  /** `handleClientSubmit`. An invalid form only shows its errors. A valid
      one is sent: on success the new id becomes the created client and the
      vehicle's client, and the wizard moves to the vehicle step when
      creating both and to completion otherwise; on failure the step stays
      and the message is shown. */
  function SubmitClient(w: Wizard, s: Session, response: Response<string>): (r: Wizard)
    ensures r.clientErrors == ClientForm.Validate(w.client)
    ensures !ClientForm.Acceptable(w.client) ==> r == w.(clientErrors := r.clientErrors)
    ensures ClientForm.Acceptable(w.client) && response.Success? ==>
      && r.createdClientId == Some(response.value)
      && r.vehicle == w.vehicle.(clientId := response.value)
      && r.step == (if s.kind == BothTypes then VehicleStep else Complete)
      && r.error.None?
    ensures ClientForm.Acceptable(w.client) && response.Failure? ==>
      r.step == w.step && r.error == Some(response.message) && r.createdClientId == w.createdClientId
  {
    ClientForm.ValidIffAcceptable(w.client);
    var errors := ClientForm.Validate(w.client);
    var checked := w.(clientErrors := errors);
    if errors != map[] then checked
    else
      match response
      case Success(id) =>
        checked.(createdClientId := Some(id), vehicle := w.vehicle.(clientId := id),
                 step := if s.kind == BothTypes then VehicleStep else Complete, error := None)
      case Failure(message) => checked.(error := Some(message))
  }

  /** `handleVehicleSubmit`: an invalid form only shows its errors; a valid
      one is sent, and the wizard completes on success and shows the
      message on failure. */
  function SubmitVehicle(w: Wizard, s: Session, response: Response<()>): (r: Wizard)
    ensures r.vehicleErrors == VehicleForm.Validate(w.vehicle, s.currentYear, VehicleForm.CreateModal)
    ensures r.createdClientId == w.createdClientId && r.vehicle == w.vehicle
    ensures !VehicleForm.Acceptable(w.vehicle, s.currentYear, VehicleForm.CreateModal) ==>
      r == w.(vehicleErrors := r.vehicleErrors)
    ensures VehicleForm.Acceptable(w.vehicle, s.currentYear, VehicleForm.CreateModal) ==>
      (response.Success? ==> r.step == Complete && r.error.None?)
      && (response.Failure? ==> r.step == w.step && r.error == Some(response.message))
  {
    VehicleForm.ValidIffAcceptable(w.vehicle, s.currentYear, VehicleForm.CreateModal);
    var errors := VehicleForm.Validate(w.vehicle, s.currentYear, VehicleForm.CreateModal);
    var checked := w.(vehicleErrors := errors);
    if errors != map[] then checked
    else
      match response
      case Success(_) => checked.(step := Complete, error := None)
      case Failure(message) => checked.(error := Some(message))
  }

  /** `handleClose`: both forms emptied (the vehicle's client too), the
      errors cleared, back to the client step with no created client and no
      error. */
  function Close(s: Session): (r: Wizard)
    ensures r.step == ClientStep && r.createdClientId.None? && r.error.None?
    ensures r.client == ClientForm.EmptyForm && r.vehicle.clientId == ""
  {
    Reset(s.currentYear, "")
  }

  /** What the user can do. `EditClient` and `EditVehicle` stand for
      typing in the two forms. */
  datatype Event =
    | Opened
    | EditClient(client: ClientForm.Form)
    | EditVehicle(vehicle: VehicleForm.Form)
    | ClientSubmitted(clientResponse: Response<string>)
    | VehicleSubmitted(vehicleResponse: Response<()>)
    | Closed

  /** The client select is disabled once a client was created or when one
      was pre-selected. */
  predicate ClientLocked(w: Wizard, s: Session) {
    (w.createdClientId.Some? && w.createdClientId.value != "") || HasPreSelection(s)
  }

  /** One event. The footer shows the client button on the client step and
      the vehicle button on the vehicle step, and none on completion, so a
      submit on any other step does nothing; typing in the vehicle form
      leaves a locked client as it is. */
  function Handle(w: Wizard, s: Session, e: Event): (r: Wizard)
    ensures e.ClientSubmitted? && w.step != ClientStep ==> r == w
    ensures e.VehicleSubmitted? && w.step != VehicleStep ==> r == w
    ensures e.EditVehicle? && ClientLocked(w, s) ==> r.vehicle.clientId == w.vehicle.clientId
  {
    match e
    case Opened => Open(w, s)
    case EditClient(client) => w.(client := client)
    case EditVehicle(vehicle) =>
      w.(vehicle := if ClientLocked(w, s) then vehicle.(clientId := w.vehicle.clientId) else vehicle)
    case ClientSubmitted(response) => if w.step == ClientStep then SubmitClient(w, s, response) else w
    case VehicleSubmitted(response) => if w.step == VehicleStep then SubmitVehicle(w, s, response) else w
    case Closed => Close(s)
  }

  function Run(w: Wizard, s: Session, events: seq<Event>): Wizard
    decreases |events|
  {
    if events == [] then w else Run(Handle(w, s, events[0]), s, events[1..])
  }

  /** What holds of every state the wizard reaches: a created client (with
      a non-empty id, which locks the select) is the vehicle's client; a client-only wizard never shows the vehicle step;
      in a two-step wizard the vehicle step comes only after a client was
      created; completion shows no error. */
  ghost predicate Inv(w: Wizard, s: Session) {
    && (w.createdClientId.Some? && w.createdClientId.value != "" ==> w.vehicle.clientId == w.createdClientId.value)
    && (s.kind == ClientType ==> w.step != VehicleStep)
    && (s.kind == BothTypes && w.step == VehicleStep ==> w.createdClientId.Some?)
    && (s.kind == ClientType && w.step == Complete ==> w.createdClientId.Some?)
    && (w.step == Complete ==> w.error.None?)
  }

  lemma InitialInv(s: Session)
    ensures Inv(Initial(s), s)
  {
  }

  lemma HandleInv(w: Wizard, s: Session, e: Event)
    requires Inv(w, s)
    ensures Inv(Handle(w, s, e), s)
  {
  }

  /** Every run from the first render keeps the invariant. */
  lemma {:induction false} RunInv(w: Wizard, s: Session, events: seq<Event>)
    requires Inv(w, s)
    ensures Inv(Run(w, s, events), s)
    decreases |events|
  {
    if events != [] {
      HandleInv(w, s, events[0]);
      RunInv(Handle(w, s, events[0]), s, events[1..]);
    }
  }

  /** Once complete, the wizard stays complete until it is started or
      closed again, whatever is typed or submitted. */
  lemma {:induction false} CompleteIsFinal(w: Wizard, s: Session, events: seq<Event>)
    requires w.step == Complete
    requires forall i :: 0 <= i < |events| ==> !events[i].Opened? && !events[i].Closed?
    ensures Run(w, s, events).step == Complete
    decreases |events|
  {
    if events != [] {
      RunStep(w, s, events);
      CompleteIsFinal(Handle(w, s, events[0]), s, events[1..]);
    }
  }

  lemma RunStep(w: Wizard, s: Session, events: seq<Event>)
    requires events != []
    ensures Run(w, s, events) == Run(Handle(w, s, events[0]), s, events[1..])
  {
  }

  /** Creating both, with two valid forms and two successful submits: the
      wizard goes client step, vehicle step, completion, and the vehicle
      was sent with the new client's id. */
  lemma BothHappyPath(w: Wizard, s: Session, id: string)
    requires s.kind == BothTypes
    requires ClientForm.Acceptable(w.client)
    requires VehicleForm.Acceptable(w.vehicle.(clientId := id), s.currentYear, VehicleForm.CreateModal)
    ensures var started := Handle(w, s, Opened);
      var afterClient := Handle(started, s, ClientSubmitted(Success(id)));
      var done := Handle(afterClient, s, VehicleSubmitted(Success(())));
      && started.step == ClientStep
      && afterClient.step == VehicleStep && afterClient.vehicle.clientId == id
      && done.step == Complete && done.createdClientId == Some(id)
  {
    var started := Handle(w, s, Opened);
    assert started.client == w.client;
    if HasPreSelection(s) {
      assert started.vehicle.(clientId := id) == w.vehicle.(clientId := id);
    }
  }
}
