/**
 * What happens when the dialogs' requests reach the routes: the bodies the
 * clients build, fed to the route handlers.
 */
module ClientRouteContracts {
  import opened Wrappers
  import opened JsValues
  import opened Auth
  import opened Api
  import opened ClientEffects
  import AppointmentsRoute
  import LabRequestsRoute
  import MedicalDescriptionsRoute
  import ContinueAppointment
  import CreateAppointment

  const MissingLabFields := "Missing required fields: patient_id, doctor_id, test_type"

  // ---------------------------------------------------------------------------
  // Appointments the dialogs create
  // ---------------------------------------------------------------------------

  /**
   * The wizard's appointment is stored pending with the flags it sent; its
   * `is_diagnosed` is not read, so a diagnosis appointment is stored pending
   * and unflagged.
   */
  lemma WizardAppointmentStored(authUserId: string, caller: Caller, patient: CreateAppointment.Patient,
                                action: Action, insert: Insert)
    requires IsClinician(caller.role) && patient.id != ""
    ensures var h := AppointmentsRoute.Post(Authenticated(authUserId, caller),
                                            Parsed(CreateAppointment.AppointmentBody(patient, action)), Found, insert);
            h.issued == Some(AppointmentsRoute.NewAppointment(
                          Str(patient.id), Bool(action == ReferDoctor), Bool(action == LabRequest), "pending"))
  {
  }

  /** A referral's new appointment is stored pending and unflagged; the referred doctor is not recorded on it. */
  lemma ReferralAppointmentStored(authUserId: string, caller: Caller, appt: ContinueAppointment.Appointment,
                                  doctorId: string, insert: Insert)
    requires IsClinician(caller.role) && appt.patientId != ""
    ensures var h := AppointmentsRoute.Post(Authenticated(authUserId, caller),
                                            Parsed(ContinueAppointment.ReferralAppointment(appt, doctorId)), Found, insert);
            h.issued == Some(AppointmentsRoute.NewAppointment(Str(appt.patientId), Bool(false), Bool(false), "pending"))
  {
  }

  // ---------------------------------------------------------------------------
  // Lab requests the dialogs send
  // ---------------------------------------------------------------------------

  /** The continue dialog's lab request never reaches the insert: it carries no `patient_id`. */
  lemma ContinueLabRequestRejected(auth: AuthResult, appt: ContinueAppointment.Appointment,
                                   lab: ContinueAppointment.LabForm, insert: Insert)
    ensures var h := LabRequestsRoute.Post(auth, Parsed(ContinueAppointment.LabRequestBody(appt, lab)), insert);
            h.issued.None? && (auth.Authenticated? ==> h.response == Error(400, MissingLabFields))
  {
  }

  /** The wizard's lab request never reaches the insert either, whatever id the new appointment has. */
  lemma WizardLabRequestRejected(auth: AuthResult, appointmentId: Value, lab: CreateAppointment.LabForm, insert: Insert)
    ensures var h := LabRequestsRoute.Post(auth, Parsed(CreateAppointment.LabRequestBody(appointmentId, lab)), insert);
            h.issued.None? && (auth.Authenticated? ==> h.response == Error(400, MissingLabFields))
  {
  }

  /**
   * Choosing "lab request" in the continue dialog, once the appointment
   * update has succeeded (for a caller who is neither nurse nor doctor it
   * answers 403 and nothing follows): the appointment is marked
   * lab-requested, the lab request is then refused whoever is signed in,
   * the dialog reports failure with its own fallback text, and the appointment
   * stays marked.
   */
  lemma ContinueLabActionNeverCompletes(authUserId: string, caller: Caller, appt: ContinueAppointment.Appointment,
                                        lab: ContinueAppointment.LabForm, refer: ContinueAppointment.ReferForm,
                                        updated: Value, insert: Insert)
    requires ContinueAppointment.Rejection(Some(LabRequest), lab, refer).None?
    ensures var route := LabRequestsRoute.Post(Authenticated(authUserId, caller),
                                               Parsed(ContinueAppointment.LabRequestBody(appt, lab)), insert);
            var s := ContinueAppointment.Submit(appt, Some(LabRequest), lab, refer,
                                                Succeeded(updated), Failed(RouteError(route.response.message)));
            && route.response == Error(400, MissingLabFields)
            && !s.completed && s.notice == Failure("Failed to create lab request")
            && |s.requests| == 2 && Field(s.requests[0].body, "is_lab_requested") == Bool(true)
  {
  }

  /**
   * Confirming a lab request in the wizard, once the appointment creation has
   * succeeded with a readable id (a caller who is neither nurse nor doctor
   * gets 403 there and nothing follows): the lab request is refused whoever
   * is signed in, the wizard reports failure and keeps its state, and
   * the new appointment is left in place.
   */
  lemma WizardLabActionNeverCompletes(authUserId: string, caller: Caller, patient: CreateAppointment.Patient,
                                      lab: CreateAppointment.LabForm, created: Value, insert: Insert)
    requires CreateAppointment.LabComplete(lab) && CreateAppointment.CreatedId(created).Some?
    ensures var id := CreateAppointment.CreatedId(created).value;
            var route := LabRequestsRoute.Post(Authenticated(authUserId, caller),
                                               Parsed(CreateAppointment.LabRequestBody(id, lab)), insert);
            var c := CreateAppointment.Create(Some(patient), Some(LabRequest), lab,
                                              Succeeded(created), Failed(RouteError(route.response.message)));
            && route.response == Error(400, MissingLabFields)
            && !c.completed && c.notice == Failure("Failed to create lab request")
            && |c.requests| == 2 && c.requests[0].path == "/api/appointments"
  {
  }

  /**
   * A caller who is neither nurse nor doctor never gets past the wizard's
   * first write: the appointment POST answers 403, nothing is created, and the
   * wizard shows "Failed to create appointment" without sending anything else.
   */
  lemma WizardCreationRefusedForOtherRoles(authUserId: string, caller: Caller, patient: CreateAppointment.Patient,
                                           action: Action, lab: CreateAppointment.LabForm, labReply: Reply, insert: Insert)
    requires !IsClinician(caller.role) && CreateAppointment.Rejection(Some(patient), Some(action), lab).None?
    ensures var route := AppointmentsRoute.Post(Authenticated(authUserId, caller),
                                               Parsed(CreateAppointment.AppointmentBody(patient, action)), Found, insert);
            var c := CreateAppointment.Create(Some(patient), Some(action), lab,
                                              Failed(RouteError(route.response.message)), labReply);
            && route == Handled(Error(403, "Insufficient permissions"), None)
            && !c.completed && c.notice == Failure("Failed to create appointment")
            && |c.requests| == 1
  {
  }

  /** The stand-alone lab-request dialog's body: an appointment, a test type and a reason, but no patient or doctor. */
  function StandaloneLabRequestBody(appointmentId: string, testType: string, reason: string): (body: Value)
    ensures Field(body, "patient_id") == Undefined && Field(body, "doctor_id") == Undefined
    ensures Field(body, "reason") == Or(Str(reason), Null)
  {
    Obj(map["appointment_id" := Str(appointmentId), "test_type" := Str(testType), "reason" := Or(Str(reason), Null)])
  }

  lemma StandaloneLabRequestRejected(auth: AuthResult, appointmentId: string, testType: string, reason: string, insert: Insert)
    ensures var h := LabRequestsRoute.Post(auth, Parsed(StandaloneLabRequestBody(appointmentId, testType, reason)), insert);
            h.issued.None? && (auth.Authenticated? ==> h.response == Error(400, MissingLabFields))
  {
  }

  /** The stand-alone dialog's lab request with the chosen appointment's patient and the chosen doctor added. */
  function CorrectedStandaloneLabBody(patientId: string, appointmentId: string, doctorId: string,
                                      testType: string, reason: string): (body: Value)
    ensures Field(body, "patient_id") == Str(patientId) && Field(body, "doctor_id") == Str(doctorId)
    ensures Field(body, "appointment_id") == Str(appointmentId) && Field(body, "test_type") == Str(testType)
    ensures Field(body, "reason") == Or(Str(reason), Null)
  {
    Obj(map["patient_id" := Str(patientId), "appointment_id" := Str(appointmentId), "doctor_id" := Str(doctorId),
            "test_type" := Str(testType), "reason" := Or(Str(reason), Null)])
  }

  /** Every request the stand-alone dialog validates is stored once corrected, for that patient and doctor. */
  lemma CorrectedStandaloneLabAccepted(authUserId: string, caller: Caller, patientId: string, appointmentId: string,
                                       doctorId: string, testType: string, reason: string, row: Value)
    requires IsNurse(caller.role) && patientId != ""
    requires appointmentId != "" && testType != "" && doctorId != ""
    ensures var h := LabRequestsRoute.Post(Authenticated(authUserId, caller),
                       Parsed(CorrectedStandaloneLabBody(patientId, appointmentId, doctorId, testType, reason)), Inserted(row));
            && h.response == Ok(201, row)
            && h.issued == Some(LabRequestsRoute.LabRequestRecord(
                 Str(patientId), caller.id, Str(doctorId), Str(testType), Or(Str(reason), Null), "pending", Null))
  {
  }

  // ---------------------------------------------------------------------------
  // The nurse's diagnosis
  // ---------------------------------------------------------------------------

  /** The diagnosis form's medical description: it names the appointment, not the patient. */
  function NurseDiagnosisBody(appointmentId: string, description: string, notes: Value, prescriptions: Value): (body: Value)
    ensures Field(body, "patient_id") == Undefined
    ensures Field(body, "appointment_id") == Str(appointmentId) && Field(body, "description") == Str(description)
  {
    Obj(map["appointment_id" := Str(appointmentId), "description" := Str(description),
            "notes" := notes, "prescriptions" := prescriptions])
  }

  /**
   * The diagnosis form's description is refused with 400 for every caller, so
   * its `onSuccess` (the status update to "diagnosed") never runs.
   */
  lemma NurseDiagnosisRejected(auth: AuthResult, appointmentId: string, description: string,
                               notes: Value, prescriptions: Value, insert: Insert)
    ensures var h := MedicalDescriptionsRoute.Post(auth, Parsed(NurseDiagnosisBody(appointmentId, description, notes, prescriptions)), insert);
            h.issued.None?
            && (auth.Authenticated? ==> h.response == Error(400, "Missing required fields: patient_id, description"))
  {
  }

  /** The diagnosis form's description with the appointment's `patient_id` added. */
  function CorrectedNurseDiagnosisBody(patientId: string, appointmentId: string, description: string,
                                       notes: Value, prescriptions: Value): (body: Value)
    ensures Field(body, "patient_id") == Str(patientId)
    ensures Field(body, "appointment_id") == Str(appointmentId) && Field(body, "description") == Str(description)
    ensures Field(body, "notes") == notes && Field(body, "prescriptions") == prescriptions
  {
    Obj(map["patient_id" := Str(patientId), "appointment_id" := Str(appointmentId), "description" := Str(description),
            "notes" := notes, "prescriptions" := prescriptions])
  }

  /** Once corrected, a doctor's diagnosis is stored for the appointment's patient, with the doctor as its author. */
  lemma CorrectedNurseDiagnosisAccepted(authUserId: string, caller: Caller, patientId: string, appointmentId: string,
                                        description: string, notes: Value, prescriptions: Value, row: Value)
    requires IsDoctor(caller.role) && patientId != "" && description != ""
    ensures var h := MedicalDescriptionsRoute.Post(Authenticated(authUserId, caller),
                       Parsed(CorrectedNurseDiagnosisBody(patientId, appointmentId, description, notes, prescriptions)), Inserted(row));
            && h.response == Ok(201, row)
            && h.issued == Some(MedicalDescriptionsRoute.DescriptionRecord(
                 Str(patientId), caller.id, Str(description), Or(notes, Null),
                 MedicalDescriptionsRoute.NormalizePrescriptions(prescriptions)))
  {
  }

  /** Even corrected, the route keeps its doctor-only gate: a nurse sending the form is refused with 403. */
  lemma CorrectedNurseDiagnosisRefusedForNurse(authUserId: string, caller: Caller, patientId: string, appointmentId: string,
                                               description: string, notes: Value, prescriptions: Value, insert: Insert)
    requires IsNurse(caller.role) && patientId != "" && description != ""
    ensures var h := MedicalDescriptionsRoute.Post(Authenticated(authUserId, caller),
                       Parsed(CorrectedNurseDiagnosisBody(patientId, appointmentId, description, notes, prescriptions)), insert);
            h == Handled(Error(403, "Only doctors can create medical descriptions"), None)
  {
  }

  // ---------------------------------------------------------------------------
  // The lab-request bodies the route accepts
  // ---------------------------------------------------------------------------

  /** The continue dialog's lab request with the appointment's patient added. */
  function CorrectedContinueLabBody(appt: ContinueAppointment.Appointment, lab: ContinueAppointment.LabForm): (body: Value)
    ensures Field(body, "patient_id") == Str(appt.patientId)
    ensures Field(body, "appointment_id") == Str(appt.id)
    ensures Field(body, "test_type") == Str(lab.testType) && Field(body, "doctor_id") == Str(lab.doctorId)
    ensures Field(body, "reason") == Str(lab.reason)
  {
    Obj(map["patient_id" := Str(appt.patientId), "appointment_id" := Str(appt.id), "test_type" := Str(lab.testType),
            "reason" := Str(lab.reason), "doctor_id" := Str(lab.doctorId)])
  }

  /** Every lab request the continue dialog lets through validation is stored, for the right patient, once corrected. */
  lemma CorrectedContinueLabAccepted(authUserId: string, caller: Caller, appt: ContinueAppointment.Appointment,
                                     lab: ContinueAppointment.LabForm, refer: ContinueAppointment.ReferForm, row: Value)
    requires IsNurse(caller.role) && appt.patientId != ""
    requires ContinueAppointment.Rejection(Some(LabRequest), lab, refer).None?
    ensures var h := LabRequestsRoute.Post(Authenticated(authUserId, caller),
                                           Parsed(CorrectedContinueLabBody(appt, lab)), Inserted(row));
            && h.response == Ok(201, row)
            && h.issued.Some?
            && h.issued.value.patientId == Str(appt.patientId)
            && h.issued.value.doctorId == Str(lab.doctorId)
            && h.issued.value.testType == Str(lab.testType)
            && h.issued.value.nurseId == caller.id
  {
  }

  /** The wizard's lab request with the chosen patient added. */
  function CorrectedWizardLabBody(patient: CreateAppointment.Patient, appointmentId: Value, lab: CreateAppointment.LabForm): (body: Value)
    ensures Field(body, "patient_id") == Str(patient.id)
    ensures Field(body, "appointment_id") == appointmentId
    ensures Field(body, "test_type") == Str(lab.testType) && Field(body, "doctor_id") == Str(lab.doctorId)
    ensures Field(body, "reason") == Str(lab.reason)
  {
    Obj(map["patient_id" := Str(patient.id), "appointment_id" := appointmentId, "test_type" := Str(lab.testType),
            "reason" := Str(lab.reason), "doctor_id" := Str(lab.doctorId)])
  }

  /** Every lab request the wizard lets through validation is stored, for the chosen patient, once corrected. */
  lemma CorrectedWizardLabAccepted(authUserId: string, caller: Caller, patient: CreateAppointment.Patient,
                                   appointmentId: Value, lab: CreateAppointment.LabForm, row: Value)
    requires IsNurse(caller.role) && patient.id != ""
    requires CreateAppointment.Rejection(Some(patient), Some(LabRequest), lab).None?
    ensures var h := LabRequestsRoute.Post(Authenticated(authUserId, caller),
                                           Parsed(CorrectedWizardLabBody(patient, appointmentId, lab)), Inserted(row));
            && h.response == Ok(201, row)
            && h.issued.Some?
            && h.issued.value.patientId == Str(patient.id)
            && h.issued.value.doctorId == Str(lab.doctorId)
            && h.issued.value.testType == Str(lab.testType)
            && h.issued.value.nurseId == caller.id
  {
  }
}
