/** `GET` and `POST` of `/api/doctor-reports`. */
module DoctorReportsRoute {
  import opened Wrappers
  import opened JsValues
  import opened Auth
  import opened Api

  /** The record `POST` inserts into `doctor_reports`; `appointmentId` is `parseInt`'s result (None for NaN). */
  datatype ReportRecord = ReportRecord(
    appointmentId: Option<int>,
    doctorId: Value,
    diagnosis: Value,
    prescription: Value,
    notes: Value)

  /** `GET /api/doctor-reports`: doctors only. */
  function Get(auth: AuthResult, rows: Query<Value>): (r: Response<Option<seq<Value>>>)
    ensures auth.AuthError? ==> r == Error(auth.status, auth.error)
    ensures auth.Authenticated? && !IsDoctor(auth.user.role) ==> r == Error(403, "Forbidden")
    ensures auth.Authenticated? && IsDoctor(auth.user.role) && rows.QueryFailed?
            ==> r == Error(500, "Failed to fetch doctor reports")
    ensures r.Ok? <==> auth.Authenticated? && IsDoctor(auth.user.role) && rows.Rows?
    ensures r.Ok? ==> r == Ok(200, rows.data)
  {
    if auth.AuthError? then PassThrough(auth)
    else if !IsDoctor(auth.user.role) then Error(403, "Forbidden")
    else match rows
      case QueryFailed => Error(500, "Failed to fetch doctor reports")
      case Rows(data) => Ok(200, data)
  }

  /**
   * `POST /api/doctor-reports`: authenticate, read the body, require
   * `appointment_id` and `diagnosis`, then require a doctor, then require the
   * appointment to exist (`appointment` is that lookup's outcome), then insert.
   */
  function Post(auth: AuthResult, body: Body, appointment: Lookup, insert: Insert): (h: Handled<ReportRecord, Value>)
    ensures auth.AuthError? ==> h == Handled(Error(auth.status, auth.error), None)
    ensures auth.Authenticated? && Fields(body).None?
            ==> h == Handled(Error(500, "Failed to create doctor report"), None)
    ensures auth.Authenticated? && Fields(body).Some?
            && !(Truthy(Field(Fields(body).value, "appointment_id")) && Truthy(Field(Fields(body).value, "diagnosis")))
            ==> h == Handled(Error(400, "Missing required fields: appointment_id, diagnosis"), None)
    ensures auth.Authenticated? && Fields(body).Some?
            && Truthy(Field(Fields(body).value, "appointment_id")) && Truthy(Field(Fields(body).value, "diagnosis"))
            && !IsDoctor(auth.user.role)
            ==> h == Handled(Error(403, "Only doctors can create doctor reports"), None)
    // a missing appointment (or a failed lookup) gives 404 and nothing is inserted
    ensures auth.Authenticated? && Fields(body).Some? && IsDoctor(auth.user.role)
            && Truthy(Field(Fields(body).value, "appointment_id")) && Truthy(Field(Fields(body).value, "diagnosis"))
            && !appointment.Found?
            ==> h == Handled(Error(404, "Appointment not found"), None)
    ensures h.issued.Some? <==>
              auth.Authenticated? && Fields(body).Some? && IsDoctor(auth.user.role)
              && Truthy(Field(Fields(body).value, "appointment_id")) && Truthy(Field(Fields(body).value, "diagnosis"))
              && appointment.Found?
    ensures h.issued.Some? ==>
              var json := Fields(body).value;
              var rec := h.issued.value;
              && rec.doctorId == auth.user.id
              && rec.appointmentId == ParseIntValue(Field(json, "appointment_id"))
              && rec.diagnosis == Field(json, "diagnosis")
              && rec.prescription == Field(json, "prescription")
              && rec.notes == Or(Field(json, "notes"), Null)
    ensures h.issued.Some? && insert.InsertFailed? ==> h.response == Error(500, insert.message)
    ensures h.response.Ok? <==> h.issued.Some? && insert.Inserted?
    ensures h.response.Ok? ==> h.response == Ok(201, insert.row)
  {
    if auth.AuthError? then Handled(PassThrough(auth), None)
    else match Fields(body)
      case None => Handled(Error(500, "Failed to create doctor report"), None)
      case Some(json) =>
        var appointmentId := Field(json, "appointment_id");
        var diagnosis := Field(json, "diagnosis");
        if !Truthy(appointmentId) || !Truthy(diagnosis) then
          Handled(Error(400, "Missing required fields: appointment_id, diagnosis"), None)
        else if !IsDoctor(auth.user.role) then
          Handled(Error(403, "Only doctors can create doctor reports"), None)
        else if !appointment.Found? then
          Handled(Error(404, "Appointment not found"), None)
        else
          var record := ReportRecord(
            ParseIntValue(appointmentId),
            auth.user.id,
            diagnosis,
            Field(json, "prescription"),
            Or(Field(json, "notes"), Null));
          match insert
          case InsertFailed(message) => Handled(Error(500, message), Some(record))
          case Inserted(row) => Handled(Ok(201, row), Some(record))
  }

  /**
   * An appointment id that arrives as a number, or as the decimal string the
   * appointments list hands out, is stored as that same integer.
   */
  lemma StoredAppointmentId(auth: AuthResult, fields: map<string, Value>, id: int, asText: bool, insert: Insert)
    requires "appointment_id" in fields && fields["appointment_id"] == (if asText then Str(IntToString(id)) else Num(id))
    ensures var h := Post(auth, Parsed(Obj(fields)), Found, insert);
            h.issued.Some? ==> h.issued.value.appointmentId == Some(id)
  {
    ParseIntValueOfNum(id);
  }
}
