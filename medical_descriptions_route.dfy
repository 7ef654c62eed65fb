/** `GET` and `POST` of `/api/medical-descriptions`. */
module MedicalDescriptionsRoute {
  import opened Wrappers
  import opened JsValues
  import opened Auth
  import opened Api

  /** The record `POST` inserts into `medical_descriptions`. */
  datatype DescriptionRecord = DescriptionRecord(
    patientId: Value,
    doctorId: Value,
    description: Value,
    notes: Value,
    prescriptions: Value)

  /** `GET /api/medical-descriptions`: doctors only. */
  function Get(auth: AuthResult, rows: Query<Value>): (r: Response<Option<seq<Value>>>)
    ensures auth.AuthError? ==> r == Error(auth.status, auth.error)
    ensures auth.Authenticated? && !IsDoctor(auth.user.role) ==> r == Error(403, "Forbidden")
    ensures auth.Authenticated? && IsDoctor(auth.user.role) && rows.QueryFailed?
            ==> r == Error(500, "Failed to fetch medical descriptions")
    ensures r.Ok? <==> auth.Authenticated? && IsDoctor(auth.user.role) && rows.Rows?
    ensures r.Ok? ==> r == Ok(200, rows.data)
  {
    if auth.AuthError? then PassThrough(auth)
    else if !IsDoctor(auth.user.role) then Error(403, "Forbidden")
    else match rows
      case QueryFailed => Error(500, "Failed to fetch medical descriptions")
      case Rows(data) => Ok(200, data)
  }

  /** `prescriptions && prescriptions.length > 0 ? prescriptions : null` */
  function NormalizePrescriptions(p: Value): (r: Value)
    ensures r == p || r == Null
    // an absent, null or empty list is stored as null; a non-empty list as given
    ensures p.Arr? ==> (r == p <==> |p.items| > 0)
    ensures p.Undefined? || p.Null? ==> r == Null
    // a string, or an object with a numeric `length` key, is kept exactly when that length is positive
    ensures p.Str? ==> (r == p <==> |p.s| > 0)
    ensures p.Obj? && Field(p, "length").Num? ==> (r == p <==> Field(p, "length").n > 0)
    // a number or a boolean has no `length`
    ensures p.Num? || p.Bool? ==> r == Null
    // only values with a positive `length` survive
    ensures r != Null ==> Length(p).Some? && Length(p).value > 0
  {
    if Truthy(p) && Length(p).Some? && Length(p).value > 0 then p else Null
  }

  /**
   * `POST /api/medical-descriptions`: authenticate, read the body, require
   * `patient_id` and `description`, and only then require a doctor; the caller
   * is recorded as the describing doctor.
   */
  function Post(auth: AuthResult, body: Body, insert: Insert): (h: Handled<DescriptionRecord, Value>)
    ensures auth.AuthError? ==> h == Handled(Error(auth.status, auth.error), None)
    ensures auth.Authenticated? && Fields(body).None?
            ==> h == Handled(Error(500, "Failed to create medical description"), None)
    // validation comes before the role check
    ensures auth.Authenticated? && Fields(body).Some?
            && !(Truthy(Field(Fields(body).value, "patient_id")) && Truthy(Field(Fields(body).value, "description")))
            ==> h == Handled(Error(400, "Missing required fields: patient_id, description"), None)
    ensures auth.Authenticated? && Fields(body).Some?
            && Truthy(Field(Fields(body).value, "patient_id")) && Truthy(Field(Fields(body).value, "description"))
            && !IsDoctor(auth.user.role)
            ==> h == Handled(Error(403, "Only doctors can create medical descriptions"), None)
    ensures h.issued.Some? <==>
              auth.Authenticated? && Fields(body).Some? && IsDoctor(auth.user.role)
              && Truthy(Field(Fields(body).value, "patient_id")) && Truthy(Field(Fields(body).value, "description"))
    ensures h.issued.Some? ==>
              var json := Fields(body).value;
              var rec := h.issued.value;
              && rec.doctorId == auth.user.id
              && rec.patientId == Field(json, "patient_id")
              && rec.description == Field(json, "description")
              && rec.notes == Or(Field(json, "notes"), Null)
              && rec.prescriptions == NormalizePrescriptions(Field(json, "prescriptions"))
    ensures h.issued.Some? && insert.InsertFailed? ==> h.response == Error(500, insert.message)
    ensures h.response.Ok? <==> h.issued.Some? && insert.Inserted?
    ensures h.response.Ok? ==> h.response == Ok(201, insert.row)
  {
    if auth.AuthError? then Handled(PassThrough(auth), None)
    else match Fields(body)
      case None => Handled(Error(500, "Failed to create medical description"), None)
      case Some(json) =>
        var patientId := Field(json, "patient_id");
        var description := Field(json, "description");
        if !Truthy(patientId) || !Truthy(description) then
          Handled(Error(400, "Missing required fields: patient_id, description"), None)
        else if !IsDoctor(auth.user.role) then
          Handled(Error(403, "Only doctors can create medical descriptions"), None)
        else
          var record := DescriptionRecord(
            patientId,
            auth.user.id,
            description,
            Or(Field(json, "notes"), Null),
            NormalizePrescriptions(Field(json, "prescriptions")));
          match insert
          case InsertFailed(message) => Handled(Error(500, message), Some(record))
          case Inserted(row) => Handled(Ok(201, row), Some(record))
  }
}
