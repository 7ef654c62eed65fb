/**
 * The "continue appointment" dialog: a nurse picks an action for an existing
 * appointment, and submitting it issues an ordered series of writes that stops
 * at the first failure and never undoes an earlier one.
 */
module ContinueAppointment {
  import opened Wrappers
  import opened JsValues
  import opened ClientEffects

  /** The fields of the appointment the dialog is opened on. */
  datatype Appointment = Appointment(id: string, patientId: string, status: string)

  datatype LabForm = LabForm(testType: string, reason: string, doctorId: string, result: string)
  datatype ReferForm = ReferForm(doctorId: string, message: string)

  const EmptyLab := LabForm("", "", "", "")
  const EmptyRefer := ReferForm("", "")

  /** `/api/appointments/${appointment.id}` */
  function AppointmentPath(appt: Appointment): string {
    "/api/appointments/" + appt.id
  }

  // ---------------------------------------------------------------------------
  // Request bodies
  // ---------------------------------------------------------------------------

  /** The update of a referral: status kept, marked referred, not lab-requested. */
  function ReferralUpdate(appt: Appointment, doctorId: string): (body: Value)
    ensures Field(body, "status") == Str(appt.status)
    ensures Field(body, "is_referred") == Bool(true) && Field(body, "is_lab_requested") == Bool(false)
    ensures Field(body, "referred_doctor_id") == Str(doctorId)
  {
    Obj(map["status" := Str(appt.status), "is_referred" := Bool(true),
            "is_lab_requested" := Bool(false), "referred_doctor_id" := Str(doctorId)])
  }

  /** The new appointment a referral opens for the same patient. */
  function ReferralAppointment(appt: Appointment, doctorId: string): (body: Value)
    ensures Field(body, "patient_id") == Str(appt.patientId) && Field(body, "doctor_id") == Str(doctorId)
    ensures Field(body, "status") == Str("pending")
    ensures Field(body, "is_referred") == Bool(false) && Field(body, "is_lab_requested") == Bool(false)
  {
    Obj(map["patient_id" := Str(appt.patientId), "doctor_id" := Str(doctorId), "status" := Str("pending"),
            "is_referred" := Bool(false), "is_lab_requested" := Bool(false)])
  }

  /** The update of any other action: never referred, lab-requested iff a lab request, "diagnosed" iff a diagnosis. */
  function ActionUpdate(appt: Appointment, action: Action): (body: Value)
    ensures Field(body, "is_referred") == Bool(false)
    ensures Field(body, "is_lab_requested") == Bool(action == LabRequest)
    ensures action == Diagnose ==> Field(body, "status") == Str("diagnosed")
    ensures action != Diagnose ==> Field(body, "status") == Str(appt.status)
    ensures Field(body, "referred_doctor_id") == Null
  {
    Obj(map["status" := Str(if action == Diagnose then "diagnosed" else appt.status),
            "is_referred" := Bool(false), "is_lab_requested" := Bool(action == LabRequest),
            "referred_doctor_id" := Null])
  }

  /** The lab request this dialog posts: it names the appointment, not the patient. */
  function LabRequestBody(appt: Appointment, lab: LabForm): (body: Value)
    ensures Field(body, "appointment_id") == Str(appt.id)
    ensures Field(body, "test_type") == Str(lab.testType) && Field(body, "doctor_id") == Str(lab.doctorId)
    ensures Field(body, "reason") == Str(lab.reason)
    ensures Field(body, "patient_id") == Undefined
  {
    Obj(map["appointment_id" := Str(appt.id), "test_type" := Str(lab.testType),
            "reason" := Str(lab.reason), "doctor_id" := Str(lab.doctorId)])
  }

  // ---------------------------------------------------------------------------
  // Validation and the submit button
  // ---------------------------------------------------------------------------

  /** The first guard of `handleSubmit` that refuses, as the text it shows; None when all pass. */
  function Rejection(action: Option<Action>, lab: LabForm, refer: ReferForm): (r: Option<string>)
    ensures r.None? <==>
              && action.Some?
              && (action.value == LabRequest ==> lab.testType != "" && lab.doctorId != "")
              && (action.value == ReferDoctor ==> refer.doctorId != "")
    ensures action.None? ==> r == Some("Please select an action")
  {
    if action.None? then Some("Please select an action")
    else if action.value == LabRequest && (lab.testType == "" || lab.doctorId == "") then
      Some("Please select a test type and doctor")
    else if action.value == ReferDoctor && refer.doctorId == "" then
      Some("Please select a doctor to refer to")
    else None
  }

  /** Each refusal names what is missing: the action, the lab form's fields, or the referral's doctor. */
  lemma RejectionMessages(action: Option<Action>, lab: LabForm, refer: ReferForm)
    ensures action.None? ==> Rejection(action, lab, refer) == Some("Please select an action")
    ensures action == Some(LabRequest) && (lab.testType == "" || lab.doctorId == "")
            ==> Rejection(action, lab, refer) == Some("Please select a test type and doctor")
    ensures action == Some(ReferDoctor) && refer.doctorId == ""
            ==> Rejection(action, lab, refer) == Some("Please select a doctor to refer to")
  {
  }

  /** The `disabled` rule of the submit button, shown only once an action is chosen. */
  predicate SubmitDisabled(loading: bool, action: Action, lab: LabForm, refer: ReferForm) {
    loading
    || (action == LabRequest && (lab.testType == "" || lab.doctorId == ""))
    || (action == ReferDoctor && refer.doctorId == "")
  }

  /** The button is disabled exactly while loading or when `handleSubmit` would refuse. */
  lemma SubmitDisabledIffRejected(loading: bool, action: Action, lab: LabForm, refer: ReferForm)
    ensures SubmitDisabled(loading, action, lab, refer) <==> loading || Rejection(Some(action), lab, refer).Some?
  {
  }

  // ---------------------------------------------------------------------------
  // One submission
  // ---------------------------------------------------------------------------

  /** What one call of `handleSubmit` does: the requests, the toast, and whether it completed. */
  datatype Submission = Submission(requests: seq<Request>, notice: Notice, completed: bool)

  /** The effects of a submission, in the order they happen. */
  function Effects(s: Submission): seq<Effect> {
    FetchAll(s.requests) + [Toast(s.notice)] + (if s.completed then [CloseDialog, NotifyParent] else [])
  }

  /**
   * `handleSubmit` given the replies to its first and second request (the
   * second is only consulted when it is sent).
   */
  function Submit(appt: Appointment, action: Option<Action>, lab: LabForm, refer: ReferForm,
                  first: Reply, second: Reply): (s: Submission)
    // a refused submission writes nothing
    ensures Rejection(action, lab, refer).Some? ==>
              s == Submission([], Failure(Rejection(action, lab, refer).value), false)
    ensures Rejection(action, lab, refer).None? ==>
              1 <= |s.requests| <= 2 && s.requests[0].verb == "PUT" && s.requests[0].path == AppointmentPath(appt)
    // the first write updates this appointment: as a referral, or as the chosen action
    ensures Rejection(action, lab, refer).None? && action.value == ReferDoctor ==>
              s.requests[0] == Request("PUT", AppointmentPath(appt), ReferralUpdate(appt, refer.doctorId))
    ensures Rejection(action, lab, refer).None? && action.value != ReferDoctor ==>
              s.requests[0] == Request("PUT", AppointmentPath(appt), ActionUpdate(appt, action.value))
    // a second write is sent only after the first succeeded, and only for a referral or a lab request
    ensures |s.requests| == 2 <==>
              Rejection(action, lab, refer).None? && first.Succeeded? && action.value != Diagnose
    // a referral then opens a new appointment; a lab request then creates the lab request
    ensures |s.requests| == 2 && action.value == ReferDoctor ==>
              s.requests[1] == Request("POST", "/api/appointments", ReferralAppointment(appt, refer.doctorId))
    ensures |s.requests| == 2 && action.value == LabRequest ==>
              s.requests[1] == Request("POST", "/api/lab-requests", LabRequestBody(appt, lab))
    // nothing is ever undone
    ensures forall r :: r in s.requests ==> r.verb != "DELETE"
    // it completes iff every write it sent succeeded, and then it says so
    ensures s.completed <==>
              && Rejection(action, lab, refer).None? && first.Succeeded?
              && (action.value != Diagnose ==> second.Succeeded?)
    ensures s.completed <==> s.notice.Success?
  {
    match Rejection(action, lab, refer)
    case Some(message) => Submission([], Failure(message), false)
    case None =>
      var a := action.value;
      if a == ReferDoctor then
        var update := Request("PUT", AppointmentPath(appt), ReferralUpdate(appt, refer.doctorId));
        if first.Failed? then
          Submission([update], Failure(ThrownText(first.error, "Failed to update appointment", "Failed to update appointment")), false)
        else
          var create := Request("POST", "/api/appointments", ReferralAppointment(appt, refer.doctorId));
          if second.Failed? then
            Submission([update, create],
              Failure(ThrownText(second.error, "Failed to create appointment for referred doctor", "Failed to update appointment")), false)
          else Submission([update, create], Success("Patient referred to doctor successfully"), true)
      else
        var update := Request("PUT", AppointmentPath(appt), ActionUpdate(appt, a));
        if first.Failed? then
          Submission([update], Failure(ThrownText(first.error, "Failed to update appointment", "Failed to update appointment")), false)
        else if a != LabRequest then
          Submission([update], Success("Appointment updated successfully"), true)
        else
          var labPost := Request("POST", "/api/lab-requests", LabRequestBody(appt, lab));
          if second.Failed? then
            Submission([update, labPost],
              Failure(ThrownText(second.error, "Failed to create lab request", "Failed to update appointment")), false)
          else Submission([update, labPost], Success("Appointment updated successfully"), true)
  }

  /** No appointment update ever marks an appointment both referred and lab-requested. */
  lemma UpdateFlagsExclusive(appt: Appointment, action: Option<Action>, lab: LabForm, refer: ReferForm,
                             first: Reply, second: Reply, i: int)
    requires 0 <= i < |Submit(appt, action, lab, refer, first, second).requests|
    requires Submit(appt, action, lab, refer, first, second).requests[i].verb == "PUT"
    ensures var body := Submit(appt, action, lab, refer, first, second).requests[i].body;
            !(Field(body, "is_referred") == Bool(true) && Field(body, "is_lab_requested") == Bool(true))
  {
  }

  /** What the diagnose flow does once the description is recorded, given the status update's reply. */
  function DiagnosisFollowUp(appt: Appointment, reply: Reply): (es: seq<Effect>)
    // the status is set to "diagnosed", and nothing else is sent
    ensures |es| >= 3 && es[0] == Fetch(Request("PUT", AppointmentPath(appt), Object1("status", Str("diagnosed"))))
    ensures forall i :: 1 <= i < |es| ==> !es[i].Fetch?
    // a failed update is reported, and the parent is told and the dialog closed either way
    ensures es[|es| - 2] == NotifyParent && es[|es| - 1] == CloseDialog
    ensures reply.Failed? <==> Toast(Failure("Diagnosis saved but failed to update appointment status")) in es
    ensures reply.Succeeded? ==> |es| == 3
  {
    [Fetch(Request("PUT", AppointmentPath(appt), Object1("status", Str("diagnosed"))))]
    + (if reply.Failed? then [Toast(Failure("Diagnosis saved but failed to update appointment status"))] else [])
    + [NotifyParent, CloseDialog]
  }

  // ---------------------------------------------------------------------------
  // The dialog
  // ---------------------------------------------------------------------------

  class ContinueAppointmentDialog {
    const appointment: Appointment
    var selected: Option<Action>
    var lab: LabForm
    var refer: ReferForm
    var loading: bool
    /** Every request, toast and callback so far, in order. */
    var effects: seq<Effect>

    constructor(appointment: Appointment)
      ensures this.appointment == appointment
      ensures selected == None && lab == EmptyLab && refer == EmptyRefer && !loading && effects == []
    {
      this.appointment := appointment;
      selected := None;
      lab := EmptyLab;
      refer := EmptyRefer;
      loading := false;
      effects := [];
    }

    /** The open effect: load the doctors and the patient's lab requests, and forget any earlier choice. */
    method OnOpen()
      modifies this
      ensures selected == None && lab == EmptyLab && refer == EmptyRefer && loading == old(loading)
      ensures effects == old(effects) + [
                Fetch(Request("GET", "/api/users?role=doctor", Undefined)),
                Fetch(Request("GET", "/api/lab-requests?patient_id=" + appointment.patientId, Undefined))]
    {
      effects := effects + [Fetch(Request("GET", "/api/users?role=doctor", Undefined))];
      effects := effects + [Fetch(Request("GET", "/api/lab-requests?patient_id=" + appointment.patientId, Undefined))];
      selected := None;
      lab := EmptyLab;
      refer := EmptyRefer;
    }

    method SelectAction(action: Action)
      modifies this
      ensures selected == Some(action)
      ensures lab == old(lab) && refer == old(refer) && loading == old(loading) && effects == old(effects)
    {
      selected := Some(action);
    }

    /** The Back button, and the diagnosis form's Cancel. */
    method Back()
      modifies this
      ensures selected == None
      ensures lab == old(lab) && refer == old(refer) && loading == old(loading) && effects == old(effects)
    {
      selected := None;
    }

    method EditLabForm(form: LabForm)
      modifies this
      ensures lab == form
      ensures selected == old(selected) && refer == old(refer) && loading == old(loading) && effects == old(effects)
    {
      lab := form;
    }

    method EditReferForm(form: ReferForm)
      modifies this
      ensures refer == form
      ensures selected == old(selected) && lab == old(lab) && loading == old(loading) && effects == old(effects)
    {
      refer := form;
    }

    /**
     * The `try` block of `handleSubmit` once validation passed: each write is
     * sent only if the one before it succeeded, and the first failure is caught.
     */
    method Writes(action: Action, first: Reply, second: Reply) returns (outcome: Submission)
      requires Rejection(Some(action), lab, refer).None?
      ensures outcome == Submit(appointment, Some(action), lab, refer, first, second)
    {
      var sent: seq<Request>;
      var failure: Option<string> := None;
      var done := "Appointment updated successfully";
      if action == ReferDoctor {
        sent := [Request("PUT", AppointmentPath(appointment), ReferralUpdate(appointment, refer.doctorId))];
        if first.Failed? {
          failure := Some(ThrownText(first.error, "Failed to update appointment", "Failed to update appointment"));
        } else {
          sent := sent + [Request("POST", "/api/appointments", ReferralAppointment(appointment, refer.doctorId))];
          if second.Failed? {
            failure := Some(ThrownText(second.error, "Failed to create appointment for referred doctor", "Failed to update appointment"));
          }
        }
        done := "Patient referred to doctor successfully";
      } else {
        sent := [Request("PUT", AppointmentPath(appointment), ActionUpdate(appointment, action))];
        if first.Failed? {
          failure := Some(ThrownText(first.error, "Failed to update appointment", "Failed to update appointment"));
        } else if action == LabRequest {
          sent := sent + [Request("POST", "/api/lab-requests", LabRequestBody(appointment, lab))];
          if second.Failed? {
            failure := Some(ThrownText(second.error, "Failed to create lab request", "Failed to update appointment"));
          }
        }
      }
      outcome := if failure.None? then Submission(sent, Success(done), true)
                 else Submission(sent, Failure(failure.value), false);
    }

    /** `handleSubmit`, given the replies its writes would get. */
    method HandleSubmit(first: Reply, second: Reply)
      modifies this
      ensures effects == old(effects) + Effects(Submit(appointment, selected, lab, refer, first, second))
      ensures selected == old(selected) && lab == old(lab) && refer == old(refer)
      // loading is switched off again once it was switched on
      ensures loading == (Rejection(selected, lab, refer).Some? && old(loading))
    {
      var rejection := Rejection(selected, lab, refer);
      if rejection.Some? {
        effects := effects + [Toast(Failure(rejection.value))];
        return;
      }
      loading := true;
      var outcome := Writes(selected.value, first, second);
      effects := effects + Effects(outcome);
      loading := false;
    }

    /** The diagnosis form's `onSuccess`, given the reply to the status update. */
    method OnDiagnosisRecorded(reply: Reply)
      modifies this
      ensures effects == old(effects) + DiagnosisFollowUp(appointment, reply)
      ensures selected == old(selected) && lab == old(lab) && refer == old(refer) && loading == old(loading)
    {
      effects := effects + [Fetch(Request("PUT", AppointmentPath(appointment), Object1("status", Str("diagnosed"))))];
      if reply.Failed? {
        effects := effects + [Toast(Failure("Diagnosis saved but failed to update appointment status"))];
      }
      effects := effects + [NotifyParent, CloseDialog];
    }
  }
}
