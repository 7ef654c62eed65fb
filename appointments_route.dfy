/** `GET` and `POST` of `/api/appointments`. */
module AppointmentsRoute {
  import opened Wrappers
  import opened JsValues
  import opened Auth
  import opened Api

  /** The `patients (id, full_name, age, gender)` join of an appointment row; absent when the join is null. */
  datatype PatientJoin = PatientJoin(fullName: Value, age: Value, gender: Value)

  /** A row of `appointments` with its patient join, as the database returns it. */
  datatype AppointmentRow = AppointmentRow(
    id: int,
    patientId: Value,
    patient: Option<PatientJoin>,
    createdAt: Value,
    status: Value,
    isReferred: Value,
    isLabRequested: Value)

  /** The flattened entry the list endpoint returns for one row. */
  datatype AppointmentView = AppointmentView(
    id: string,
    patientId: Value,
    patientName: Value,
    patientAge: Value,
    patientGender: Value,
    createdAt: Value,
    status: Value,
    isReferred: Value,
    isLabRequested: Value)

  /** The record `POST` inserts. */
  datatype NewAppointment = NewAppointment(patientId: Value, isReferred: Value, isLabRequested: Value, status: string)

  /** `apt.patients?.<field> || fallback` */
  function JoinedOr(patient: Option<PatientJoin>, field: PatientJoin -> Value, fallback: Value): Value {
    if patient.Some? then Or(field(patient.value), fallback) else fallback
  }

  /** The per-row transform of `GET`. */
  function ToView(row: AppointmentRow): (v: AppointmentView)
    // the id is the row's number as a string, and parses back to it
    ensures ParseInt(v.id) == Some(row.id)
    // a missing or blank patient reads as "Unknown Patient", age 0, gender "unknown"
    ensures row.patient.None? ==> v.patientName == Str("Unknown Patient") && v.patientAge == Num(0) && v.patientGender == Str("unknown")
    ensures row.patient.Some? && Truthy(row.patient.value.fullName) ==> v.patientName == row.patient.value.fullName
    ensures row.patient.Some? && !Truthy(row.patient.value.fullName) ==> v.patientName == Str("Unknown Patient")
    ensures row.patient.Some? && Truthy(row.patient.value.age) ==> v.patientAge == row.patient.value.age
    ensures row.patient.Some? && !Truthy(row.patient.value.age) ==> v.patientAge == Num(0)
    ensures row.patient.Some? && Truthy(row.patient.value.gender) ==> v.patientGender == row.patient.value.gender
    ensures row.patient.Some? && !Truthy(row.patient.value.gender) ==> v.patientGender == Str("unknown")
    ensures Truthy(v.patientName) && Truthy(v.patientGender)
    // the workflow columns are copied as stored
    ensures v.patientId == row.patientId && v.createdAt == row.createdAt && v.status == row.status
    ensures v.isReferred == row.isReferred && v.isLabRequested == row.isLabRequested
  {
    ParseIntOfIntToString(row.id);
    AppointmentView(
      IntToString(row.id),
      row.patientId,
      JoinedOr(row.patient, (p: PatientJoin) => p.fullName, Str("Unknown Patient")),
      JoinedOr(row.patient, (p: PatientJoin) => p.age, Num(0)),
      JoinedOr(row.patient, (p: PatientJoin) => p.gender, Str("unknown")),
      row.createdAt,
      row.status,
      row.isReferred,
      row.isLabRequested)
  }

  /** `GET /api/appointments` */
  function Get(auth: AuthResult, rows: Query<AppointmentRow>): (r: Response<seq<AppointmentView>>)
    ensures auth.AuthError? ==> r == Error(auth.status, auth.error)
    ensures auth.Authenticated? && !IsClinician(auth.user.role) ==> r == Error(403, "Forbidden")
    ensures r.Ok? <==> auth.Authenticated? && IsClinician(auth.user.role) && rows.Rows?
    // one entry per row, in order; no data at all gives []
    ensures r.Ok? ==> r.status == 200
    ensures r.Ok? && rows.data.None? ==> r.data == []
    ensures r.Ok? && rows.data.Some? ==>
              && |r.data| == |rows.data.value|
              && (forall i :: 0 <= i < |r.data| ==> r.data[i] == ToView(rows.data.value[i]))
    ensures auth.Authenticated? && IsClinician(auth.user.role) && rows.QueryFailed?
            ==> r == Error(500, "Failed to fetch appointments")
  {
    if auth.AuthError? then PassThrough(auth)
    else if !IsClinician(auth.user.role) then Error(403, "Forbidden")
    else match rows
      case QueryFailed => Error(500, "Failed to fetch appointments")
      case Rows(data) =>
        if data.None? then Ok(200, [])
        else Ok(200, seq(|data.value|, i requires 0 <= i < |data.value| => ToView(data.value[i])))
  }

  /** A destructuring default: `{ x = d } = body` applies `d` only when `x` is undefined. */
  function DefaultIfUndefined(v: Value, d: Value): Value {
    if v.Undefined? then d else v
  }

  /**
   * `POST /api/appointments`: authenticate, require a nurse or doctor, read the
   * body, require `patient_id`, require the patient to exist, then insert a
   * pending appointment. `patient` is the outcome of the existence lookup and
   * `insert` the outcome of the insert; each is consulted only once reached.
   */
  function Post(auth: AuthResult, body: Body, patient: Lookup, insert: Insert): (h: Handled<NewAppointment, Value>)
    ensures auth.AuthError? ==> h == Handled(Error(auth.status, auth.error), None)
    // the role is checked before the body is even read
    ensures auth.Authenticated? && !IsClinician(auth.user.role)
            ==> h == Handled(Error(403, "Insufficient permissions"), None)
    ensures auth.Authenticated? && IsClinician(auth.user.role) && Fields(body).None?
            ==> h == Handled(Error(500, "Internal server error"), None)
    ensures auth.Authenticated? && IsClinician(auth.user.role) && Fields(body).Some?
            && !Truthy(Field(Fields(body).value, "patient_id"))
            ==> h == Handled(Error(400, "Patient ID is required"), None)
    ensures auth.Authenticated? && IsClinician(auth.user.role) && Fields(body).Some?
            && Truthy(Field(Fields(body).value, "patient_id")) && !patient.Found?
            ==> h == Handled(Error(404, "Patient not found"), None)
    // an insert happens only after every check passed, and is always pending
    ensures h.issued.Some? <==>
              auth.Authenticated? && IsClinician(auth.user.role) && Fields(body).Some?
              && Truthy(Field(Fields(body).value, "patient_id")) && patient.Found?
    ensures h.issued.Some? ==>
              var json := Fields(body).value;
              && h.issued.value.status == "pending"
              && h.issued.value.patientId == Field(json, "patient_id")
              && (Field(json, "is_referred").Undefined? ==> h.issued.value.isReferred == Bool(false))
              && (!Field(json, "is_referred").Undefined? ==> h.issued.value.isReferred == Field(json, "is_referred"))
              && (Field(json, "is_lab_requested").Undefined? ==> h.issued.value.isLabRequested == Bool(false))
              && (!Field(json, "is_lab_requested").Undefined? ==> h.issued.value.isLabRequested == Field(json, "is_lab_requested"))
    ensures h.issued.Some? && insert.InsertFailed? ==> h.response == Error(500, "Failed to create appointment")
    ensures h.response.Ok? <==> h.issued.Some? && insert.Inserted?
    ensures h.response.Ok? ==> h.response == Ok(201, insert.row)
  {
    if auth.AuthError? then Handled(PassThrough(auth), None)
    else if !IsClinician(auth.user.role) then Handled(Error(403, "Insufficient permissions"), None)
    else match Fields(body)
      case None => Handled(Error(500, "Internal server error"), None)
      case Some(json) =>
        var patientId := Field(json, "patient_id");
        if !Truthy(patientId) then Handled(Error(400, "Patient ID is required"), None)
        else if !patient.Found? then Handled(Error(404, "Patient not found"), None)
        else
          var record := NewAppointment(
            patientId,
            DefaultIfUndefined(Field(json, "is_referred"), Bool(false)),
            DefaultIfUndefined(Field(json, "is_lab_requested"), Bool(false)),
            "pending");
          match insert
          case InsertFailed(_) => Handled(Error(500, "Failed to create appointment"), Some(record))
          case Inserted(row) => Handled(Ok(201, row), Some(record))
  }
}
