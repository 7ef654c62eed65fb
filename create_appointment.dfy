/**
 * The "new appointment" wizard: pick a patient, pick an action, fill in the
 * lab form when the action is a lab request, confirm; confirming creates the
 * appointment and then, for a lab request, the lab request.
 */
module CreateAppointment {
  import opened Wrappers
  import opened JsValues
  import opened ClientEffects

  datatype Step = PatientSelection | ActionSelection | LabRequestForm | Confirmation

  datatype Patient = Patient(id: string, fullName: string)
  datatype LabForm = LabForm(testType: string, reason: string, doctorId: string)

  const EmptyLab := LabForm("", "", "")

  /** Both fields the lab form requires are filled in. */
  predicate LabComplete(lab: LabForm) {
    lab.testType != "" && lab.doctorId != ""
  }

  /** The first guard of `handleCreateAppointment` that refuses, as the text it shows; None when all pass. */
  function Rejection(patient: Option<Patient>, action: Option<Action>, lab: LabForm): (r: Option<string>)
    ensures r.None? <==> patient.Some? && action.Some? && (action.value == LabRequest ==> LabComplete(lab))
    ensures patient.None? || action.None? ==> r == Some("Please complete all steps")
    ensures patient.Some? && action == Some(LabRequest) && !LabComplete(lab)
            ==> r == Some("Please select a test type and doctor")
  {
    if patient.None? || action.None? then Some("Please complete all steps")
    else if action.value == LabRequest && !LabComplete(lab) then Some("Please select a test type and doctor")
    else None
  }

  /** The `disabled` rule of the lab form's Next button. */
  predicate NextDisabled(lab: LabForm) {
    lab.testType == "" || lab.doctorId == ""
  }

  /** Next is disabled exactly when a lab request with this form would be refused at creation. */
  lemma NextDisabledIffRefused(patient: Patient, lab: LabForm)
    ensures NextDisabled(lab) <==> Rejection(Some(patient), Some(LabRequest), lab).Some?
  {
  }

  /** The appointment the wizard posts: each flag true iff its action was chosen. */
  function AppointmentBody(patient: Patient, action: Action): (body: Value)
    ensures Field(body, "patient_id") == Str(patient.id)
    ensures Field(body, "is_referred") == Bool(action == ReferDoctor)
    ensures Field(body, "is_lab_requested") == Bool(action == LabRequest)
    ensures Field(body, "is_diagnosed") == Bool(action == Diagnose)
    // the two workflow flags are never both set
    ensures !(Field(body, "is_referred") == Bool(true) && Field(body, "is_lab_requested") == Bool(true))
    ensures Field(body, "status") == Undefined
  {
    Obj(map["patient_id" := Str(patient.id), "is_referred" := Bool(action == ReferDoctor),
            "is_lab_requested" := Bool(action == LabRequest), "is_diagnosed" := Bool(action == Diagnose)])
  }

  /** The lab request the wizard posts: it names the new appointment, not the patient. */
  function LabRequestBody(appointmentId: Value, lab: LabForm): (body: Value)
    ensures Field(body, "appointment_id") == appointmentId
    ensures Field(body, "test_type") == Str(lab.testType) && Field(body, "doctor_id") == Str(lab.doctorId)
    ensures Field(body, "reason") == Str(lab.reason)
    ensures Field(body, "patient_id") == Undefined
  {
    Obj(map["appointment_id" := appointmentId, "test_type" := Str(lab.testType),
            "reason" := Str(lab.reason), "doctor_id" := Str(lab.doctorId)])
  }

  /** `appointmentData.appointment.id`, or None when reading it throws a `TypeError`. */
  function CreatedId(data: Value): (id: Option<Value>)
    ensures id.Some? <==> Destructurable(Field(data, "appointment"))
    ensures id.Some? ==> id.value == Field(Field(data, "appointment"), "id")
  {
    var appointment := Field(data, "appointment");
    if Destructurable(appointment) then Some(Field(appointment, "id")) else None
  }

  /** What one call of `handleCreateAppointment` does. */
  datatype Creation = Creation(requests: seq<Request>, notice: Notice, completed: bool)

  /** The effects of a creation, in the order they happen. */
  function Effects(c: Creation): seq<Effect> {
    FetchAll(c.requests) + [Toast(c.notice)] + (if c.completed then [CloseDialog, ReloadPage] else [])
  }

  /**
   * `handleCreateAppointment` given the replies to the appointment `POST` and
   * to the lab-request `POST` (consulted only when it is sent).
   */
  function Create(patient: Option<Patient>, action: Option<Action>, lab: LabForm,
                  created: Reply, labReply: Reply): (c: Creation)
    // a refused creation sends nothing
    ensures Rejection(patient, action, lab).Some? ==>
              c == Creation([], Failure(Rejection(patient, action, lab).value), false)
    // otherwise the appointment is posted first
    ensures Rejection(patient, action, lab).None? ==>
              1 <= |c.requests| <= 2
              && c.requests[0] == Request("POST", "/api/appointments", AppointmentBody(patient.value, action.value))
    // the lab request is posted only for a lab request, only once the appointment exists,
    // and it carries the id the appointment reply names
    ensures |c.requests| == 2 <==>
              && Rejection(patient, action, lab).None? && action.value == LabRequest
              && created.Succeeded? && CreatedId(created.data).Some?
    ensures |c.requests| == 2 ==>
              c.requests[1] == Request("POST", "/api/lab-requests", LabRequestBody(CreatedId(created.data).value, lab))
    // nothing is undone: a failed lab request leaves the appointment in place
    ensures forall r :: r in c.requests ==> r.verb == "POST"
    ensures c.completed <==>
              && Rejection(patient, action, lab).None? && created.Succeeded?
              && (action.value == LabRequest ==> |c.requests| == 2 && labReply.Succeeded?)
    ensures c.completed <==> c.notice.Success?
  {
    match Rejection(patient, action, lab)
    case Some(message) => Creation([], Failure(message), false)
    case None =>
      var post := Request("POST", "/api/appointments", AppointmentBody(patient.value, action.value));
      if created.Failed? then
        Creation([post], Failure(ThrownText(created.error, "Failed to create appointment", "Failed to create appointment")), false)
      else if action.value != LabRequest then
        Creation([post], Success("Appointment created successfully"), true)
      else
        match CreatedId(created.data)
        case None => Creation([post], Crashed, false)
        case Some(id) =>
          var labPost := Request("POST", "/api/lab-requests", LabRequestBody(id, lab));
          if labReply.Failed? then
            Creation([post, labPost], Failure(ThrownText(labReply.error, "Failed to create lab request", "Failed to create appointment")), false)
          else Creation([post, labPost], Success("Appointment created successfully"), true)
  }

  class CreateAppointmentDialog {
    var isOpen: bool
    var step: Step
    var patient: Option<Patient>
    var action: Option<Action>
    var query: string
    var lab: LabForm
    var loading: bool
    /** Every request, toast and callback so far, in order. */
    var effects: seq<Effect>

    /**
     * What the wizard's screens guarantee: past the first step a patient is
     * chosen, the lab form belongs to a lab request, and a confirmed lab
     * request has a complete form.
     */
    predicate Valid()
      reads this
    {
      && (step != PatientSelection ==> patient.Some?)
      && (step == LabRequestForm ==> action == Some(LabRequest))
      && (step == Confirmation ==> action.Some? && (action.value == LabRequest ==> LabComplete(lab)))
    }

    constructor()
      ensures Valid()
      ensures !isOpen && step == PatientSelection && patient == None && action == None
      ensures query == "" && lab == EmptyLab && !loading && effects == []
    {
      isOpen := false;
      step := PatientSelection;
      patient := None;
      action := None;
      query := "";
      lab := EmptyLab;
      loading := false;
      effects := [];
    }

    /** Opening the dialog, and the effect that runs on it: back to the first step, but the lab form is kept. */
    method Open()
      modifies this
      ensures Valid()
      ensures isOpen && step == PatientSelection && patient == None && action == None && query == ""
      ensures lab == old(lab) && loading == old(loading)
      ensures effects == old(effects) + [
                Fetch(Request("GET", "/api/patients", Undefined)),
                Fetch(Request("GET", "/api/users?role=doctor", Undefined))]
    {
      isOpen := true;
      effects := effects + [Fetch(Request("GET", "/api/patients", Undefined))];
      effects := effects + [Fetch(Request("GET", "/api/users?role=doctor", Undefined))];
      step := PatientSelection;
      patient := None;
      action := None;
      query := "";
    }

    /** The Cancel button: the dialog closes and keeps its state. */
    method Close()
      modifies this
      ensures !isOpen
      ensures step == old(step) && patient == old(patient) && action == old(action) && query == old(query)
      ensures lab == old(lab) && loading == old(loading) && effects == old(effects)
    {
      isOpen := false;
    }

    method Search(q: string)
      modifies this
      ensures query == q
      ensures isOpen == old(isOpen) && step == old(step) && patient == old(patient) && action == old(action)
      ensures lab == old(lab) && loading == old(loading) && effects == old(effects)
    {
      query := q;
    }

    /** `handlePatientSelect` */
    method SelectPatient(p: Patient)
      requires Valid()
      modifies this
      ensures Valid()
      ensures patient == Some(p) && query == "" && step == ActionSelection
      ensures isOpen == old(isOpen) && action == old(action) && lab == old(lab)
      ensures loading == old(loading) && effects == old(effects)
    {
      patient := Some(p);
      query := "";
      step := ActionSelection;
    }

    /** `handleActionSelect`: its buttons are shown only at the action step, once a patient is chosen. */
    method SelectAction(a: Action)
      requires Valid() && step == ActionSelection && patient.Some?
      modifies this
      ensures Valid()
      ensures action == Some(a)
      ensures step == (if a == LabRequest then LabRequestForm else Confirmation)
      ensures isOpen == old(isOpen) && patient == old(patient) && query == old(query) && lab == old(lab)
      ensures loading == old(loading) && effects == old(effects)
    {
      action := Some(a);
      if a == LabRequest {
        step := LabRequestForm;
      } else {
        step := Confirmation;
      }
    }

    /** Typing into the lab form, which is shown only at its own step. */
    method EditLabForm(form: LabForm)
      requires Valid() && step == LabRequestForm
      modifies this
      ensures Valid()
      ensures lab == form
      ensures isOpen == old(isOpen) && step == old(step) && patient == old(patient) && action == old(action)
      ensures query == old(query) && loading == old(loading) && effects == old(effects)
    {
      lab := form;
    }

    /** The lab form's Next button, which cannot be pressed while it is disabled. */
    method Next()
      requires Valid() && step == LabRequestForm && !NextDisabled(lab)
      modifies this
      ensures Valid()
      ensures step == Confirmation
      ensures isOpen == old(isOpen) && patient == old(patient) && action == old(action) && query == old(query)
      ensures lab == old(lab) && loading == old(loading) && effects == old(effects)
    {
      step := Confirmation;
    }

    /** `goBack`: one step back; leaving a step forgets the choice made on the step before it. */
    method GoBack()
      requires Valid()
      modifies this
      ensures Valid()
      ensures old(step) == PatientSelection ==> step == PatientSelection && patient == old(patient) && action == old(action)
      ensures old(step) == ActionSelection ==> step == PatientSelection && patient == None && action == old(action)
      ensures old(step) == LabRequestForm ==> step == ActionSelection && patient == old(patient) && action == old(action)
      ensures old(step) == Confirmation ==> step == ActionSelection && patient == old(patient) && action == None
      ensures isOpen == old(isOpen) && query == old(query) && lab == old(lab)
      ensures loading == old(loading) && effects == old(effects)
    {
      if step == ActionSelection {
        step := PatientSelection;
        patient := None;
      } else if step == LabRequestForm {
        step := ActionSelection;
      } else if step == Confirmation {
        step := ActionSelection;
        action := None;
      }
    }

    /** `resetForm` */
    method ResetForm()
      modifies this
      ensures Valid()
      ensures step == PatientSelection && patient == None && action == None && query == "" && lab == EmptyLab
      ensures isOpen == old(isOpen) && loading == old(loading) && effects == old(effects)
    {
      patient := None;
      action := None;
      step := PatientSelection;
      query := "";
      lab := EmptyLab;
    }

    /** Through the wizard's own screens, confirming is never refused. */
    lemma ConfirmationIsNeverRefused()
      requires Valid() && step == Confirmation
      ensures Rejection(patient, action, lab).None?
    {
    }

    /** The `try` block of `handleCreateAppointment` once validation passed. */
    method Attempt(created: Reply, labReply: Reply) returns (outcome: Creation)
      requires Rejection(patient, action, lab).None?
      ensures outcome == Create(patient, action, lab, created, labReply)
    {
      var p := patient.value;
      var a := action.value;
      var sent := [Request("POST", "/api/appointments", AppointmentBody(p, a))];
      if created.Failed? {
        return Creation(sent, Failure(ThrownText(created.error, "Failed to create appointment", "Failed to create appointment")), false);
      }
      if a == LabRequest {
        var id := CreatedId(created.data);
        if id.None? {
          return Creation(sent, Crashed, false);
        }
        sent := sent + [Request("POST", "/api/lab-requests", LabRequestBody(id.value, lab))];
        if labReply.Failed? {
          return Creation(sent, Failure(ThrownText(labReply.error, "Failed to create lab request", "Failed to create appointment")), false);
        }
      }
      outcome := Creation(sent, Success("Appointment created successfully"), true);
    }

    /** `handleCreateAppointment`, given the replies its requests would get. */
    method HandleCreateAppointment(created: Reply, labReply: Reply)
      requires Valid()
      modifies this
      ensures Valid()
      ensures effects == old(effects) + Effects(Create(old(patient), old(action), old(lab), created, labReply))
      // success resets the wizard and closes it; failure keeps every choice for another try
      ensures Create(old(patient), old(action), old(lab), created, labReply).completed ==>
                && !isOpen && step == PatientSelection && patient == None && action == None
                && query == "" && lab == EmptyLab
      ensures !Create(old(patient), old(action), old(lab), created, labReply).completed ==>
                && isOpen == old(isOpen) && step == old(step) && patient == old(patient)
                && action == old(action) && query == old(query) && lab == old(lab)
      ensures loading == (Rejection(old(patient), old(action), old(lab)).Some? && old(loading))
    {
      var rejection := Rejection(patient, action, lab);
      if rejection.Some? {
        effects := effects + [Toast(Failure(rejection.value))];
        return;
      }
      loading := true;
      var outcome := Attempt(created, labReply);
      // the toast, then `resetForm()`, `setOpen(false)` and the reload
      effects := effects + Effects(outcome);
      if outcome.completed {
        ResetForm();
        isOpen := false;
      }
      loading := false;
    }
  }
}
