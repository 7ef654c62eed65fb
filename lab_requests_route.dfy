/** `GET` and `POST` of `/api/lab-requests`. */
module LabRequestsRoute {
  import opened Wrappers
  import opened JsValues
  import opened Auth
  import opened Api

  /** The record `POST` inserts into `lab_requests`. */
  datatype LabRequestRecord = LabRequestRecord(
    patientId: Value,
    nurseId: Value,
    doctorId: Value,
    testType: Value,
    reason: Value,
    status: string,
    result: Value)

  /** `GET /api/lab-requests`: any nurse or doctor sees every row the query returns. */
  function Get(auth: AuthResult, rows: Query<Value>): (r: Response<Option<seq<Value>>>)
    ensures auth.AuthError? ==> r == Error(auth.status, auth.error)
    ensures auth.Authenticated? && !IsClinician(auth.user.role) ==> r == Error(403, "Forbidden")
    ensures auth.Authenticated? && IsClinician(auth.user.role) && rows.QueryFailed?
            ==> r == Error(500, "Failed to fetch lab requests")
    ensures r.Ok? <==> auth.Authenticated? && IsClinician(auth.user.role) && rows.Rows?
    ensures r.Ok? ==> r == Ok(200, rows.data)
  {
    if auth.AuthError? then PassThrough(auth)
    else if !IsClinician(auth.user.role) then Error(403, "Forbidden")
    else match rows
      case QueryFailed => Error(500, "Failed to fetch lab requests")
      case Rows(data) => Ok(200, data)
  }

  /** The three fields `POST` requires, all truthy. */
  predicate HasRequiredFields(json: Value) {
    Truthy(Field(json, "patient_id")) && Truthy(Field(json, "test_type")) && Truthy(Field(json, "doctor_id"))
  }

  /**
   * `POST /api/lab-requests`: authenticate, read the body, require
   * `patient_id`, `test_type` and `doctor_id`, and only then require a nurse;
   * insert a pending request with no result, on behalf of the caller.
   */
  function Post(auth: AuthResult, body: Body, insert: Insert): (h: Handled<LabRequestRecord, Value>)
    ensures auth.AuthError? ==> h == Handled(Error(auth.status, auth.error), None)
    ensures auth.Authenticated? && Fields(body).None?
            ==> h == Handled(Error(500, "Failed to create lab request"), None)
    // validation comes before the role: a doctor with an incomplete body gets 400, not 403
    ensures auth.Authenticated? && Fields(body).Some? && !HasRequiredFields(Fields(body).value)
            ==> h == Handled(Error(400, "Missing required fields: patient_id, doctor_id, test_type"), None)
    ensures auth.Authenticated? && Fields(body).Some? && HasRequiredFields(Fields(body).value)
            && !IsNurse(auth.user.role)
            ==> h == Handled(Error(403, "Only nurses can create lab requests"), None)
    ensures h.issued.Some? <==>
              auth.Authenticated? && Fields(body).Some? && HasRequiredFields(Fields(body).value)
              && IsNurse(auth.user.role)
    // the stored request: pending, no result, requested by the caller, falsy reason as null
    ensures h.issued.Some? ==>
              var json := Fields(body).value;
              var rec := h.issued.value;
              && rec.status == "pending" && rec.result == Null
              && rec.nurseId == auth.user.id
              && rec.patientId == Field(json, "patient_id")
              && rec.doctorId == Field(json, "doctor_id")
              && rec.testType == Field(json, "test_type")
              && (Truthy(Field(json, "reason")) ==> rec.reason == Field(json, "reason"))
              && (!Truthy(Field(json, "reason")) ==> rec.reason == Null)
    ensures h.issued.Some? && insert.InsertFailed? ==> h.response == Error(500, insert.message)
    ensures h.response.Ok? <==> h.issued.Some? && insert.Inserted?
    ensures h.response.Ok? ==> h.response == Ok(201, insert.row)
  {
    if auth.AuthError? then Handled(PassThrough(auth), None)
    else match Fields(body)
      case None => Handled(Error(500, "Failed to create lab request"), None)
      case Some(json) =>
        if !HasRequiredFields(json) then
          Handled(Error(400, "Missing required fields: patient_id, doctor_id, test_type"), None)
        else if !IsNurse(auth.user.role) then
          Handled(Error(403, "Only nurses can create lab requests"), None)
        else
          var record := LabRequestRecord(
            Field(json, "patient_id"),
            auth.user.id,
            Field(json, "doctor_id"),
            Field(json, "test_type"),
            Or(Field(json, "reason"), Null),
            "pending",
            Null);
          match insert
          case InsertFailed(message) => Handled(Error(500, message), Some(record))
          case Inserted(row) => Handled(Ok(201, row), Some(record))
  }
}
