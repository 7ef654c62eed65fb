/** `GET` and `POST` of `/api/patients`. */
module PatientsRoute {
  import opened Wrappers
  import opened JsValues
  import opened Auth
  import opened Api

  /** The record `POST` inserts into `patients`; `age` is `parseInt`'s result (None for NaN). */
  datatype PatientRecord = PatientRecord(
    fullName: Value,
    age: Option<int>,
    gender: Value,
    address: Value,
    contact: Value,
    registeredBy: Value)

  /** `GET /api/patients`: any nurse or doctor sees every patient. */
  function Get(auth: AuthResult, rows: Query<Value>): (r: Response<Option<seq<Value>>>)
    ensures auth.AuthError? ==> r == Error(auth.status, auth.error)
    ensures auth.Authenticated? && !IsClinician(auth.user.role) ==> r == Error(403, "Forbidden")
    ensures auth.Authenticated? && IsClinician(auth.user.role) && rows.QueryFailed?
            ==> r == Error(500, "Failed to fetch patients")
    ensures r.Ok? <==> auth.Authenticated? && IsClinician(auth.user.role) && rows.Rows?
    ensures r.Ok? ==> r == Ok(200, rows.data)
  {
    if auth.AuthError? then PassThrough(auth)
    else if !IsClinician(auth.user.role) then Error(403, "Forbidden")
    else match rows
      case QueryFailed => Error(500, "Failed to fetch patients")
      case Rows(data) => Ok(200, data)
  }

  /** `['male', 'female', 'other'].includes(gender)` */
  predicate ValidGender(gender: Value) {
    gender in {Str("male"), Str("female"), Str("other")}
  }

  /**
   * `POST /api/patients`: authenticate, read the body, require `full_name`,
   * `age` and `gender`, require a known gender, and insert the patient as
   * registered by the caller. There is no role check.
   */
  function Post(auth: AuthResult, body: Body, insert: Insert): (h: Handled<PatientRecord, Value>)
    ensures auth.AuthError? ==> h == Handled(Error(auth.status, auth.error), None)
    ensures auth.Authenticated? && Fields(body).None?
            ==> h == Handled(Error(500, "Failed to register patient"), None)
    ensures auth.Authenticated? && Fields(body).Some?
            && !(Truthy(Field(Fields(body).value, "full_name")) && Truthy(Field(Fields(body).value, "age"))
                 && Truthy(Field(Fields(body).value, "gender")))
            ==> h == Handled(Error(400, "Missing required fields: full_name, age, gender"), None)
    ensures auth.Authenticated? && Fields(body).Some?
            && Truthy(Field(Fields(body).value, "full_name")) && Truthy(Field(Fields(body).value, "age"))
            && Truthy(Field(Fields(body).value, "gender")) && !ValidGender(Field(Fields(body).value, "gender"))
            ==> h == Handled(Error(400, "Invalid gender. Must be male, female, or other"), None)
    // any authenticated caller may register a patient, whatever the role
    ensures h.issued.Some? <==>
              auth.Authenticated? && Fields(body).Some?
              && Truthy(Field(Fields(body).value, "full_name")) && Truthy(Field(Fields(body).value, "age"))
              && ValidGender(Field(Fields(body).value, "gender"))
    ensures h.issued.Some? ==>
              var json := Fields(body).value;
              var rec := h.issued.value;
              && ValidGender(rec.gender)
              && rec.registeredBy == auth.user.id
              && rec.fullName == Field(json, "full_name")
              && rec.age == ParseIntValue(Field(json, "age"))
              && rec.gender == Field(json, "gender")
              && rec.address == Or(Field(json, "address"), Null)
              && rec.contact == Or(Field(json, "contact"), Null)
    ensures h.issued.Some? && insert.InsertFailed? ==> h.response == Error(500, insert.message)
    ensures h.response.Ok? <==> h.issued.Some? && insert.Inserted?
    ensures h.response.Ok? ==> h.response == Ok(201, insert.row)
  {
    if auth.AuthError? then Handled(PassThrough(auth), None)
    else match Fields(body)
      case None => Handled(Error(500, "Failed to register patient"), None)
      case Some(json) =>
        var fullName := Field(json, "full_name");
        var age := Field(json, "age");
        var gender := Field(json, "gender");
        if !Truthy(fullName) || !Truthy(age) || !Truthy(gender) then
          Handled(Error(400, "Missing required fields: full_name, age, gender"), None)
        else if !ValidGender(gender) then
          Handled(Error(400, "Invalid gender. Must be male, female, or other"), None)
        else
          var record := PatientRecord(
            fullName,
            ParseIntValue(age),
            gender,
            Or(Field(json, "address"), Null),
            Or(Field(json, "contact"), Null),
            auth.user.id);
          match insert
          case InsertFailed(message) => Handled(Error(500, message), Some(record))
          case Inserted(row) => Handled(Ok(201, row), Some(record))
  }

  /**
   * A registration form that sends its age as a number, or as the decimal
   * text of an integer, stores exactly that age (the text "0" included, which
   * is truthy and passes the field check).
   */
  lemma StoredAge(auth: AuthResult, fields: map<string, Value>, age: int, asText: bool, insert: Insert)
    requires "age" in fields && fields["age"] == (if asText then Str(IntToString(age)) else Num(age))
    ensures var h := Post(auth, Parsed(Obj(fields)), insert);
            h.issued.Some? ==> h.issued.value.age == Some(age)
  {
    ParseIntValueOfNum(age);
  }
}
