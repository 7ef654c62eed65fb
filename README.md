# Clinic appointments, lab requests and diagnoses — a Dafny model

The clinic application lets nurses and doctors register patients, open
appointments, request lab tests, refer patients to doctors and record
diagnoses. This project models the decision logic of that application:

- **The caller.** `getAuthenticatedUser` resolves the caller of a route from the session and the
  `users` table (`auth.dfy`, module `Auth`).
- **The route handlers.** Each `GET`/`POST` under `/api/appointments`, `/api/lab-requests`,
  `/api/medical-descriptions`, `/api/doctor-reports`, `/api/patients` and `/api/users` is an
  early-return chain: the auth error is passed through, then the role gate (403), the body checks
  (400), the referenced row (404), and last the record that is inserted. Each handler is a pure
  function. It takes the outcomes of authentication, body parsing and the database as parameters. It
  returns the response, and the record it inserts if it gets that far (`Api.Handled`).
- **The two appointment dialogs.**
  - The "continue appointment" dialog turns a chosen action (lab request, referral, diagnosis) into
    an ordered series of writes. It stops at the first failure and undoes nothing.
  - The "create appointment" wizard is a four-step state machine (patient → action → lab form →
    confirmation).

  Both are classes whose fields are the component's state. Their `effects` field logs every fetch,
  toast and callback in order. A pure function (`ContinueAppointment.Submit`,
  `CreateAppointment.Create`) describes one submission given the replies to its requests. The
  state-changing methods are proved against that function.
- **The lab-request table.** Its role, search and status filters, and the action offered on each
  row (`diagnostics_table.dfy`).
- **The drug picker.** The prescription-list editing and the result state of the drug search
  (`drug_search.dfy`; class `DrugPicker`).
- **Client against route.** `client_route_contracts.dfy` feeds the bodies the dialogs send into
  the route handlers. It proves what the server then does with them.

JSON is modelled by `JsValues.Value`, with JavaScript truthiness, `||` defaults, property reads,
`parseInt` and `String()` written out. Numbers are integers.

## Model

| member | source | states |
|---|---|---|
| Auth.GetAuthenticatedUser | src/utils/auth/get-authenticated-user.ts:34-77 | The error cases: no session user or a session error gives 401 "Unauthorized"; no users row gives 404; a row without `id` or `role` gives 500; a thrown lookup gives 500. Success happens exactly when every check passes, and carries the row's id and role. Every error status is 401, 404 or 500 |
| Auth.RoleIsNotChecked | src/utils/auth/get-authenticated-user.ts:64-70 | Any role value, even one that is neither nurse nor doctor, authenticates unchanged |
| AppointmentsRoute.ToView | src/app/api/appointments/route.ts:63-73 | The listed id is the row's number as text and parses back to it. A missing or falsy patient name, age or gender reads as "Unknown Patient", 0 or "unknown". The workflow columns are copied |
| AppointmentsRoute.Get | src/app/api/appointments/route.ts:5-73 | The auth error is passed through. A role other than nurse or doctor gets 403. A failed query gives 500. Otherwise 200 with one `ToView` entry per row, in order, and `[]` when there is no data |
| AppointmentsRoute.Post | src/app/api/appointments/route.ts:82-157 | The role is checked before the body (403 "Insufficient permissions"). Then a missing `patient_id` gives 400 and an unknown patient 404. An insert is issued exactly when every check passed. It is always `pending`, and its flags default to false only when absent. Insert failure gives 500; success gives 201 with the row |
| LabRequestsRoute.Get | src/app/api/lab-requests/route.ts:5-72 | Nurse/doctor gate (403), 500 on a failed query, else 200 with the rows |
| LabRequestsRoute.Post | src/app/api/lab-requests/route.ts:83-178 | Missing `patient_id`, `test_type` or `doctor_id` gives 400, and this is checked before the role. A non-nurse then gets 403. An insert is issued exactly when both pass. The record is `pending`, with result null, the caller as `nurse_id`, and a falsy reason stored as null. The insert error's message comes back with 500; success gives 201 |
| MedicalDescriptionsRoute.Get | src/app/api/medical-descriptions/route.ts:5-58 | Doctor-only (403), 500 on a failed query, else 200 |
| MedicalDescriptionsRoute.NormalizePrescriptions | src/app/api/medical-descriptions/route.ts:108-109 | The result is the given prescriptions or null. An array or string is kept exactly when it is non-empty. An object whose `length` key is a number is kept exactly when that number is positive. An absent value, a number or a boolean becomes null. Whatever is kept has a positive length |
| MedicalDescriptionsRoute.Post | src/app/api/medical-descriptions/route.ts:68-150 | Missing `patient_id` or `description` gives 400, before the role. A non-doctor then gets 403. The record has the caller as `doctor_id`, falsy notes as null and normalised prescriptions. 500 with the insert error; 201 on success |
| DoctorReportsRoute.Get | src/app/api/doctor-reports/route.ts:5-67 | Doctor-only (403), 500 on a failed query, else 200 |
| DoctorReportsRoute.Post | src/app/api/doctor-reports/route.ts:77-182 | Missing `appointment_id` or `diagnosis` gives 400, before the role. A non-doctor gets 403. An unknown appointment gives 404 and no insert. The record has the caller as `doctor_id`, the parsed appointment id and falsy notes as null |
| DoctorReportsRoute.StoredAppointmentId | src/app/api/doctor-reports/route.ts:128-134 | An appointment id sent as a number or as its decimal text is stored as that integer, including the text "0" |
| PatientsRoute.Get | src/app/api/patients/route.ts:6-73 | Nurse/doctor gate (403), 500 on a failed query, else 200 |
| PatientsRoute.Post | src/app/api/patients/route.ts:84-182 | Falsy `full_name`, `age` or `gender` gives 400, so age 0 is refused. A gender outside male/female/other gives 400. No role check: any authenticated caller with valid fields reaches the insert. The record has the caller as `registered_by` and falsy address/contact as null |
| PatientsRoute.StoredAge | src/app/api/patients/route.ts:142-149 | An age sent as a number or as its decimal text is stored as that integer, including the text "0" (a numeric 0 is refused as falsy) |
| UsersRoute.RoleFilter | src/app/api/users/route.ts:36-53 | The filter applies exactly when the `role` parameter is "doctor" or "nurse" |
| UsersRoute.WithRole | src/app/api/users/route.ts:50-53 | Only users of the role are kept, all taken from the input |
| UsersRoute.WithRoleKeepsMatches | src/app/api/users/route.ts:50-53 | Every user of the role is kept |
| UsersRoute.Get | src/app/api/users/route.ts:5-68 | The auth error is passed through; 403 for other roles; 500 on a failed query. A recognised filter lists only users of that role; any other parameter lists every user |
| UsersRoute.ListedIffRole | src/app/api/users/route.ts:50-68 | With a recognised filter, a user is listed exactly when it has that role |
| JsValues.ParseIntOfIntToString | src/app/api/doctor-reports/route.ts:129 | `parseInt` of an integer's decimal text gives the integer back |
| JsValues.ParseIntValueOfNum | src/app/api/patients/route.ts:144 | `parseInt` of a number, or of its decimal text, gives the number |
| JsValues.IncludesEmptyAndSelf | src/components/diagnostics/diagnostics-table.tsx:111-114 | Every string includes the empty string and itself |
| ClientEffects.ThrownText | src/components/appointments/continue-appointment-dialog.tsx:219-222 | The toast text for a failed reply. The body's non-empty `message` is shown if present; without one, the step's fallback; the text is never empty |
| ContinueAppointment.ReferralUpdate | src/components/appointments/continue-appointment-dialog.tsx:135-146 | The referral update keeps the status, sets `is_referred` and clears `is_lab_requested` |
| ContinueAppointment.ReferralAppointment | src/components/appointments/continue-appointment-dialog.tsx:154-166 | The new appointment is for the same patient, pending, with both flags false |
| ContinueAppointment.ActionUpdate | src/components/appointments/continue-appointment-dialog.tsx:176-187 | The update clears `is_referred`. It sets `is_lab_requested` exactly for a lab request. Status is "diagnosed" exactly for a diagnosis, otherwise unchanged |
| ContinueAppointment.LabRequestBody | src/components/appointments/continue-appointment-dialog.tsx:196-206 | The lab request names this appointment, the test and the doctor, and carries no `patient_id` |
| ContinueAppointment.Rejection | src/components/appointments/continue-appointment-dialog.tsx:115-128 | Submission is accepted exactly when an action is chosen, a lab request has a test type and a doctor, and a referral has a doctor. With no action the message is "Please select an action" |
| ContinueAppointment.RejectionMessages | src/components/appointments/continue-appointment-dialog.tsx:115-128 | Each refusal shows its own message: "Please select an action", "Please select a test type and doctor", "Please select a doctor to refer to" |
| ContinueAppointment.SubmitDisabledIffRejected | src/components/appointments/continue-appointment-dialog.tsx:570 | The submit button is disabled exactly when loading or when `handleSubmit` would refuse |
| ContinueAppointment.Submit | src/components/appointments/continue-appointment-dialog.tsx:114-225 | A refusal sends nothing. Otherwise the first request is the appointment PUT with the referral or action update. A second request follows exactly when the first succeeded and the action is not a diagnosis: the referral POST or the lab-request POST. Nothing is deleted. The submission completes exactly when every write succeeded, which is exactly when the toast is a success |
| ContinueAppointment.UpdateFlagsExclusive | src/components/appointments/continue-appointment-dialog.tsx:135-187 | No appointment update sets both `is_referred` and `is_lab_requested` |
| ContinueAppointment.DiagnosisFollowUp | src/components/appointments/continue-appointment-dialog.tsx:466-490 | After a recorded diagnosis, one PUT sets the status to "diagnosed". A failure toast appears exactly when that PUT fails, and the parent is notified and the dialog closed either way |
| ContinueAppointment.ContinueAppointmentDialog.constructor | src/components/appointments/continue-appointment-dialog.tsx:49-63 | No action chosen, empty forms, not loading |
| ContinueAppointment.ContinueAppointmentDialog.OnOpen | src/components/appointments/continue-appointment-dialog.tsx:65-81 | Opening fetches the doctors and the patient's lab requests, clears the chosen action and empties both forms |
| ContinueAppointment.ContinueAppointmentDialog.SelectAction | src/components/appointments/continue-appointment-dialog.tsx:110-112 | The action is stored; nothing else changes |
| ContinueAppointment.ContinueAppointmentDialog.Back | src/components/appointments/continue-appointment-dialog.tsx:551 | The chosen action is cleared; the forms are kept |
| ContinueAppointment.ContinueAppointmentDialog.EditLabForm | src/components/appointments/continue-appointment-dialog.tsx:54-58 | The lab form takes the new value; nothing else changes |
| ContinueAppointment.ContinueAppointmentDialog.EditReferForm | src/components/appointments/continue-appointment-dialog.tsx:60-63 | The referral form takes the new value; nothing else changes |
| ContinueAppointment.ContinueAppointmentDialog.Writes | src/components/appointments/continue-appointment-dialog.tsx:130-223 | The validated write sequence produces exactly `Submit`'s requests, toast and completion |
| ContinueAppointment.ContinueAppointmentDialog.HandleSubmit | src/components/appointments/continue-appointment-dialog.tsx:114-225 | The effects of `Submit` are appended to the log, and the choices are kept. Loading ends false unless the submission was refused |
| ContinueAppointment.ContinueAppointmentDialog.OnDiagnosisRecorded | src/components/appointments/continue-appointment-dialog.tsx:466-490 | The effects of `DiagnosisFollowUp` are appended; the dialog's choices are kept |
| CreateAppointment.Rejection | src/components/appointments/create-appointment-dialog.tsx:127-135 | Creation is accepted exactly when a patient and an action are chosen and a lab request has a test type and a doctor. A missing patient or action shows "Please complete all steps"; an incomplete lab form shows "Please select a test type and doctor" |
| CreateAppointment.NextDisabledIffRefused | src/components/appointments/create-appointment-dialog.tsx:593 | The lab form's Next button is disabled exactly when creation would refuse that form |
| CreateAppointment.AppointmentBody | src/components/appointments/create-appointment-dialog.tsx:139-153 | The posted appointment names the patient. Each flag is true exactly for its action, so the two are never both true. No status is sent |
| CreateAppointment.LabRequestBody | src/components/appointments/create-appointment-dialog.tsx:177-182 | The lab request names the new appointment, the test and the doctor, and carries no `patient_id` |
| CreateAppointment.CreatedId | src/components/appointments/create-appointment-dialog.tsx:178 | The new appointment's id is read from the reply's `appointment`. The read fails (a TypeError) exactly when `appointment` is null or undefined; any other value gives its `id` property, which is undefined for a number or a string |
| CreateAppointment.Create | src/components/appointments/create-appointment-dialog.tsx:126-202 | A refusal sends nothing. Otherwise the appointment POST goes first. The lab-request POST follows exactly for a lab request whose appointment was created. Every request is a POST. Creation completes exactly when every write succeeded, which is exactly when the toast is a success |
| CreateAppointment.CreateAppointmentDialog.constructor | src/components/appointments/create-appointment-dialog.tsx:39-51 | Closed, at the first step, nothing chosen |
| CreateAppointment.CreateAppointmentDialog.Open | src/components/appointments/create-appointment-dialog.tsx:95-104 | Opening fetches patients and doctors, returns to patient selection and clears patient, action and query |
| CreateAppointment.CreateAppointmentDialog.Close | src/components/appointments/create-appointment-dialog.tsx:583 | Only `isOpen` changes |
| CreateAppointment.CreateAppointmentDialog.Search | src/components/appointments/create-appointment-dialog.tsx:44 | Only the query changes |
| CreateAppointment.CreateAppointmentDialog.SelectPatient | src/components/appointments/create-appointment-dialog.tsx:111-115 | Stores the patient, clears the query, moves to action selection |
| CreateAppointment.CreateAppointmentDialog.SelectAction | src/components/appointments/create-appointment-dialog.tsx:117-124 | Stores the action. It moves to the lab form exactly for a lab request, otherwise to confirmation |
| CreateAppointment.CreateAppointmentDialog.EditLabForm | src/components/appointments/create-appointment-dialog.tsx:47-51 | The lab form takes the new value; nothing else changes |
| CreateAppointment.CreateAppointmentDialog.Next | src/components/appointments/create-appointment-dialog.tsx:589-597 | A complete lab form moves to confirmation |
| CreateAppointment.CreateAppointmentDialog.GoBack | src/components/appointments/create-appointment-dialog.tsx:216-226 | From action selection: back to patients, with the patient cleared. From the lab form: back to actions, with the action kept. From confirmation: back to actions, with the action cleared. The first step stays put |
| CreateAppointment.CreateAppointmentDialog.ResetForm | src/components/appointments/create-appointment-dialog.tsx:204-214 | Back to the first step with patient, action, query and lab form cleared |
| CreateAppointment.CreateAppointmentDialog.ConfirmationIsNeverRefused | src/components/appointments/create-appointment-dialog.tsx:510 | Every state the wizard can reach at the confirmation step passes creation's validation |
| CreateAppointment.CreateAppointmentDialog.Attempt | src/components/appointments/create-appointment-dialog.tsx:137-199 | The validated write sequence produces exactly `Create`'s requests, toast and completion |
| CreateAppointment.CreateAppointmentDialog.HandleCreateAppointment | src/components/appointments/create-appointment-dialog.tsx:126-202 | The effects of `Create` are appended and the wizard stays consistent. A completed creation resets and closes the wizard; otherwise its state is kept. Loading ends false unless refused |
| DiagnosticsTable.Keep | src/components/diagnostics/diagnostics-table.tsx:106-119 | A filter keeps exactly the rows that pass, and no more rows than it was given |
| DiagnosticsTable.SubsequenceTransitive | src/components/diagnostics/diagnostics-table.tsx:110 | A subsequence of a subsequence is a subsequence |
| DiagnosticsTable.KeepIsSubsequence | src/components/diagnostics/diagnostics-table.tsx:106-119 | A filter keeps its rows in their order |
| DiagnosticsTable.KeepAll | src/components/diagnostics/diagnostics-table.tsx:110-119 | A filter every row passes keeps every row |
| DiagnosticsTable.RoleFiltered | src/components/diagnostics/diagnostics-table.tsx:106-108 | A doctor sees exactly the requests assigned to them; anyone else, or no user yet, sees all |
| DiagnosticsTable.Visible | src/components/diagnostics/diagnostics-table.tsx:110-119 | A row is shown exactly when it passes the role filter, the search and the status filter. The shown list keeps the fetched order |
| DiagnosticsTable.NoFilterShowsAll | src/components/diagnostics/diagnostics-table.tsx:110-119 | With an empty search and the "all" status, the role-filtered list is shown unchanged |
| DiagnosticsTable.EmptyQueryMatchesEverything | src/components/diagnostics/diagnostics-table.tsx:111-114 | The empty search matches every row |
| DiagnosticsTable.ActionFor | src/components/diagnostics/diagnostics-table.tsx:274-289 | A completed request offers its results. An open one offers result submission to a doctor, and edit/delete to anyone else |
| DrugSearch.DrugName | src/components/diagnostics/drug-search.tsx:94 | The brand name if non-empty, else the generic name if non-empty, else "Unknown Drug"; never empty |
| DrugSearch.NewEntry | src/components/diagnostics/drug-search.tsx:94-102 | A new entry has the drug's name and product code, with blank dosage, frequency, duration and notes |
| DrugSearch.WithDrugAdded | src/components/diagnostics/drug-search.tsx:104 | Exactly one entry is added, at the end, and the others are untouched |
| DrugSearch.RemoveAt | src/components/diagnostics/drug-search.tsx:109-112 | An index in range removes exactly that entry, keeping the order. Any other index changes nothing |
| DrugSearch.RemoveAtLength | src/components/diagnostics/drug-search.tsx:109-112 | Removal shortens the list by one exactly when the index is in range |
| DrugSearch.SetField | src/components/diagnostics/drug-search.tsx:116 | The named field takes the value and the others are kept |
| DrugSearch.UpdateAt | src/components/diagnostics/drug-search.tsx:114-119 | The length is kept and every other entry is identical. The indexed entry changes in the named field only |
| DrugSearch.DrugPicker.constructor | src/components/diagnostics/drug-search.tsx:37-41 | Empty query and results, and no flags set |
| DrugSearch.DrugPicker.SearchDrugs | src/components/diagnostics/drug-search.tsx:44-83 | Fewer than two characters: no lookup, results cleared and the list hidden. Otherwise the query is looked up and the list shown. A failure gives empty results with "no results". An answer gives its results, with "no results" exactly when they are empty |
| DrugSearch.DrugPicker.SelectDrug | src/components/diagnostics/drug-search.tsx:93-107 | The list becomes `WithDrugAdded`; the query is cleared and the results hidden |
| DrugSearch.DrugPicker.RemoveDrug | src/components/diagnostics/drug-search.tsx:109-112 | The list becomes `RemoveAt`; nothing else changes |
| DrugSearch.DrugPicker.UpdateDrug | src/components/diagnostics/drug-search.tsx:114-119 | The list becomes `UpdateAt`; nothing else changes |
| ClientRouteContracts.WizardAppointmentStored | src/app/api/appointments/route.ts:140-145 | The wizard's appointment is stored pending with the flags of its action. `is_diagnosed` is not read, so a diagnosis appointment is stored pending and unflagged |
| ClientRouteContracts.ReferralAppointmentStored | src/app/api/appointments/route.ts:140-145 | A referral's new appointment is stored pending and unflagged for the same patient; the referred doctor is not recorded on it |
| ClientRouteContracts.ContinueLabRequestRejected | src/app/api/lab-requests/route.ts:116-122 | The continue dialog's lab request never reaches the insert; an authenticated caller gets 400 |
| ClientRouteContracts.WizardLabRequestRejected | src/app/api/lab-requests/route.ts:116-122 | The wizard's lab request never reaches the insert; an authenticated caller gets 400 |
| ClientRouteContracts.ContinueLabActionNeverCompletes | src/components/appointments/continue-appointment-dialog.tsx:176-213 | When the appointment update succeeds, it has marked the appointment lab-requested. The lab request that follows is then refused with 400 for any signed-in caller, and the dialog reports "Failed to create lab request" without completing. A caller who is neither nurse nor doctor gets 403 on the update itself, so nothing is marked |
| ClientRouteContracts.WizardLabActionNeverCompletes | src/components/appointments/create-appointment-dialog.tsx:139-189 | When the appointment creation succeeds with a readable id, the lab request that follows is refused with 400 for any signed-in caller, and the wizard reports "Failed to create lab request" without completing. A caller who is neither nurse nor doctor gets 403 on the creation itself, so nothing is created |
| ClientRouteContracts.WizardCreationRefusedForOtherRoles | src/app/api/appointments/route.ts:104-107 | A caller who is neither nurse nor doctor gets 403 "Insufficient permissions" on the wizard's appointment POST, so nothing is created. The wizard then shows "Failed to create appointment", sends nothing more and does not complete |
| ClientRouteContracts.StandaloneLabRequestBody | src/components/diagnostics/create-lab-request-dialog.tsx:97-101 | The stand-alone lab-request dialog sends no patient and no doctor; a falsy reason is sent as null |
| ClientRouteContracts.StandaloneLabRequestRejected | src/components/diagnostics/create-lab-request-dialog.tsx:89-101 | That body is refused with 400 for every signed-in caller |
| ClientRouteContracts.CorrectedStandaloneLabBody | src/components/diagnostics/create-lab-request-dialog.tsx:96-101 | The stand-alone dialog's lab request with the chosen appointment's patient and the chosen doctor added |
| ClientRouteContracts.CorrectedStandaloneLabAccepted | src/app/api/lab-requests/route.ts:116-171 | Every request the stand-alone dialog validates is stored once corrected: pending, for that patient and doctor, with the nurse as `nurse_id`; the reply is 201 |
| ClientRouteContracts.NurseDiagnosisBody | src/components/appointments/nurse-diagnosis-form.tsx:51-56 | The diagnosis form names the appointment and the description, and no patient |
| ClientRouteContracts.NurseDiagnosisRejected | src/app/api/medical-descriptions/route.ts:84-93 | The diagnosis form's description is refused with 400 for every signed-in caller, so its status update never follows |
| ClientRouteContracts.CorrectedNurseDiagnosisBody | src/components/appointments/nurse-diagnosis-form.tsx:51-56 | The diagnosis form's description with the appointment's `patient_id` added |
| ClientRouteContracts.CorrectedNurseDiagnosisAccepted | src/app/api/medical-descriptions/route.ts:84-144 | Once corrected, a doctor's diagnosis is stored for the appointment's patient with the doctor as author, and the reply is 201 |
| ClientRouteContracts.CorrectedNurseDiagnosisRefusedForNurse | src/app/api/medical-descriptions/route.ts:96-101 | Even corrected, a nurse sending the form gets 403 "Only doctors can create medical descriptions" and nothing is stored |
| ClientRouteContracts.CorrectedContinueLabBody | src/components/appointments/continue-appointment-dialog.tsx:196-206 | The continue dialog's lab request with the appointment's `patient_id` added |
| ClientRouteContracts.CorrectedContinueLabAccepted | src/app/api/lab-requests/route.ts:116-171 | Every lab request the continue dialog validates is stored once corrected. The record has the appointment's patient, the chosen test and doctor, and the nurse as `nurse_id`, and the reply is 201 |
| ClientRouteContracts.CorrectedWizardLabBody | src/components/appointments/create-appointment-dialog.tsx:177-182 | The wizard's lab request with the chosen patient's `patient_id` added |
| ClientRouteContracts.CorrectedWizardLabAccepted | src/app/api/lab-requests/route.ts:116-171 | Every lab request the wizard validates is stored once corrected, for the chosen patient, the test and doctor, and the nurse, and the reply is 201 |

## Left out

- Database and auth-provider calls are not modelled. Their outcomes are parameters: a query's rows or error, an insert's row or error, an existence lookup, the session and the users row.
- The PUT and DELETE appointment routes, the PATCH lab-request route and `medical-descriptions/[patientId]` are not part of this model. The dialogs' PUT requests are recorded only as requests.
- The `catch` blocks of the GET handlers, which answer 500 "Internal server error" on an unexpected exception, are not modelled. The GET models take no thrown outcome as input.
- Sorting by the database (`order('created_at')`, `order('first_name')`) is not modelled. Rows are listed in the order given.
- The `select` columns and joins of the list queries are not modelled. Only the appointment list's join is, through `AppointmentsRoute.ToView`.
- The network, the 500 ms debounce of the drug search and the openFDA request are not modelled. The lookup's outcome is a parameter, and overlapping searches are not modelled.
- The fetches that fill display lists (doctors, patients, the patient's lab requests) are only logged as requests. Their results, and the wizard's `filteredPatients` search over the patient list, are not modelled.
- `response.json()` throwing, and error bodies that are not objects, are not modelled. A failed reply's body is always a JSON object.
- Numbers are integers: no fractions, `NaN` or `Infinity`. `parseInt` is modelled for decimal text with an optional sign and leading whitespace.
- JsValues.ParseIntOfIntToString and JsValues.ParseIntValueOfNum state the round trip for every integer. JavaScript numbers lose precision above 2^53, and `String(n)` switches to exponent form once |n| ≥ 1e21, so that `parseInt(1e21)` is 1. The model has neither limit, so the round trip holds in JavaScript only for integers below both.
- MedicalDescriptionsRoute.NormalizePrescriptions: an object whose `length` key is not a number (for example the string "3" or `true`) is compared after JavaScript's numeric conversion and may be kept. The model stores it as null.
- `ToLower` and `Includes` work on ASCII letters only. Unicode case folding and UTF-16 lengths are not modelled; the drug search counts characters.
- `loading` spinners are modelled only as the final value of the flag. The intermediate `true` while requests are in flight is not modelled.
- The dialogs' rendering, icons and descriptions (`getActionDescription`, `getActionIcon`) are not modelled.
- The dashboard statistics routes depend on dates and floating point, and are not part of this model.
- Session plumbing (signup, login, logout, `user/me`, `useUser`) is not part of this model. The signed-in user is a parameter.
- The other form dialogs, whose only logic is a non-empty check before a fetch, appear only where their payload disagrees with a route (`ClientRouteContracts`).
- The lab-requests GET does not read the `patient_id` query parameter that the dialogs send. The model takes the rows as given and does not relate them to that parameter.
- CreateAppointment.CreateAppointmentDialog.SelectAction requires the action-selection step, because its buttons are only rendered there.
- CreateAppointment.CreateAppointmentDialog.EditLabForm requires the lab-form step, for the same reason.
- CreateAppointment.CreateAppointmentDialog.Next requires a complete lab form, because the button is disabled otherwise.
- ContinueAppointment.ContinueAppointmentDialog.Writes requires that validation has passed; `HandleSubmit` performs that validation before calling it.
- CreateAppointment.CreateAppointmentDialog.Attempt requires the same; `HandleCreateAppointment` validates first.

## Findings

| source | as written | input that shows it | evidently intended | confidence | as-written member | corrected member |
|---|---|---|---|---|---|---|
| src/components/appointments/continue-appointment-dialog.tsx:196-206 | The lab request carries `appointment_id`, but the route requires `patient_id` (src/app/api/lab-requests/route.ts:116) | any validated lab request whose appointment update succeeds (a nurse or doctor is signed in): appointment updated, then 400 "Missing required fields: patient_id, doctor_id, test_type" | send the appointment's `patient_id`, so the request is stored for that patient | high, not executed | ClientRouteContracts.ContinueLabActionNeverCompletes | ClientRouteContracts.CorrectedContinueLabAccepted |
| src/components/appointments/create-appointment-dialog.tsx:177-182 | The lab request carries `appointment_id`, but the route requires `patient_id` | any confirmed lab request whose appointment creation succeeds (a nurse or doctor is signed in): appointment created, then 400 with the same message | send the chosen patient's `patient_id` | high, not executed | ClientRouteContracts.WizardLabActionNeverCompletes | ClientRouteContracts.CorrectedWizardLabAccepted |
| src/components/diagnostics/create-lab-request-dialog.tsx:96-101 | The body carries neither `patient_id` nor `doctor_id`, though the dialog requires a doctor to be chosen (line 84) | any validated request: 400 "Missing required fields: patient_id, doctor_id, test_type" | send the chosen appointment's `patient_id` and the chosen `doctor_id` | high, not executed | ClientRouteContracts.StandaloneLabRequestRejected | ClientRouteContracts.CorrectedStandaloneLabAccepted |
| src/components/appointments/nurse-diagnosis-form.tsx:51-56 | The description carries `appointment_id`, but the route requires `patient_id` (src/app/api/medical-descriptions/route.ts:88) | any description: 400 "Missing required fields: patient_id, description", so the status update to "diagnosed" never follows | send the appointment's `patient_id`. The route then stores a doctor's diagnosis. A nurse still gets 403 from the doctor-only gate (route.ts:96-101); the intended fix is taken to be the body only, and whether nurses should be allowed is not evident from the code | medium, not executed | ClientRouteContracts.NurseDiagnosisRejected | ClientRouteContracts.CorrectedNurseDiagnosisAccepted |

The dialog classes keep the bodies as written, because they model the dialogs as shipped. The
corrected bodies are the ones the routes accept. `CorrectedNurseDiagnosisRefusedForNurse` shows
that the corrected diagnosis body is still refused when a nurse sends it.
