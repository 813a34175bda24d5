# Patient workflow of the doctor-appointment site, in Dafny

This project models the patient side of a clinic's booking web application: the patient
credential store (`PatientService`) and the patient controller (`PatientController`) with
the HTTP layer taken away. A patient registers (an e-mail address may be registered only
once), logs in (the session then holds the address), opens the dashboard, the booking form
and the booking history, books an appointment, cancels one and logs out. Every page but
login, registration and logout is refused with `redirect:/login` while the session holds
no address.

Booking depends on a validator that lives in the appointment service, which is not part
of this model. Its verdict is a parameter: a string. The handler turns the five verdicts
`PAST_DATE`, `PAST_TIME_TODAY`, `BOOKING_CLOSED_TODAY`, `INVALID_TIME` and
`SLOT_NOT_AVAILABLE` into a rejected page with nothing saved. For every other string,
including `VALID`, it saves an appointment built from the form fields and the session's
address, with status `Slot Booked Successfully`. The switch has no default case, so an
unknown verdict falls through to the save. The model keeps that behaviour.

Files:

- `entities.dfy` (module `Entities`): `Patient`, `BookingForm`, `Appointment`, `CancelRequest`, `Option`.
- `patients.dfy` (module `Patients`): the store as a `map` from address to patient.
  `ExistsByEmail` and `ValidateLogin` are pure queries on it. The class `PatientService`
  holds the map and upserts into it in `RegisterPatient`.
- `booking.dfy` (module `Booking`): the verdict constants, the verdict dispatch and the
  predicate `Records`, which says an appointment was built from a form for an owner.
- `workflow.dfy` (module `Workflow`): each handler as a function from a `State` to a
  `Reply`. The state is the session's address, the patient store, the appointments saved
  and the cancellations handed to the appointment store. The reply is the next state, the
  view label and the error message. `Handle` and `Run` process a sequence of requests, and
  lemmas state what holds after any such sequence.
- `controller.dfy` (module `Controller`): the class `PatientController`, whose methods
  update the session, the appointments and the cancellations in place and register
  through the `PatientService` object. Each method is proved to produce the state and
  view given by the matching `Workflow` function.

`Workflow.Consistent` is the invariant kept by every handler. Patients are stored under
their own address. The session's address is registered. The owner of every appointment
and of every cancellation is registered.

## Model

| member | source | states |
|---|---|---|
| Patients.ExistsByEmail | src/main/java/com/doctor/appointment/service/PatientService.java:13-15 | existsByEmail is true exactly when findById finds a patient under the address |
| Patients.ValidateLogin | src/main/java/com/doctor/appointment/service/PatientService.java:16-19 | false when no patient is stored under the address; otherwise true exactly when the stored password equals the submitted one (exact string equality, no hashing) |
| Patients.RegisterThenLogin | src/main/java/com/doctor/appointment/service/PatientService.java:10-18 | after the upsert of a patient, existsByEmail holds for its address and validateLogin accepts its own password |
| Patients.RegisterKeepsOthers | src/main/java/com/doctor/appointment/service/PatientService.java:10-12 | the upsert leaves what findById returns for every other address unchanged |
| Patients.RegisterNewExtends | src/main/java/com/doctor/appointment/service/PatientService.java:10-12 | saving a patient whose address is not yet stored removes or overwrites nobody, and patients stay stored under their own address |
| Patients.PatientService.RegisterPatient | src/main/java/com/doctor/appointment/service/PatientService.java:10-12 | registerPatient is an upsert keyed by the patient's address; every other entry is unchanged; afterwards the address exists and the patient's password validates |
| Booking.Dispatch | src/main/java/com/doctor/appointment/controller/PatientController.java:69-93 | a booking is rejected exactly for the five named verdicts; SLOT_NOT_AVAILABLE and only it leads to appointment_not_available with no message; the other four lead back to book-appointment with an error message; VALID and any unnamed verdict save |
| Booking.DistinctMessages | src/main/java/com/doctor/appointment/controller/PatientController.java:74-86 | the four rejections shown on the booking form carry four different messages |
| Workflow.Login | src/main/java/com/doctor/appointment/controller/PatientController.java:24-31 | the home redirect is returned exactly when validateLogin holds, and then the session holds the submitted address; otherwise the state is unchanged and the answer is redirect:/login?error=true; the invariant is kept |
| Workflow.Register | src/main/java/com/doctor/appointment/controller/PatientController.java:36-44 | registration-error exactly when the address already exists, with nothing changed; otherwise registration-success with the patient upserted; afterwards the address exists, no stored patient is overwritten and only the store changes |
| Workflow.PatientPage | src/main/java/com/doctor/appointment/controller/PatientController.java:46-61 | the gate shared by the dashboard, the booking form and the history page: without a session address the answer is redirect:/login, with one it is the page; either way the state is unchanged |
| Workflow.SaveAppointment | src/main/java/com/doctor/appointment/controller/PatientController.java:63-107 | without a session: redirect:/login, nothing saved; a rejection verdict answers with the dispatch's view and message and changes nothing; otherwise exactly one appointment is appended, built from the form fields and owned by the session's address, with status Slot Booked Successfully, and nothing else changes |
| Workflow.Cancel | src/main/java/com/doctor/appointment/controller/PatientController.java:117-123 | without a session address: redirect:/login and no change; with one: exactly one cancellation is recorded, for the requested id and owned by the session's address, and nothing else changes |
| Workflow.Logout | src/main/java/com/doctor/appointment/controller/PatientController.java:125-129 | the session is cleared, nothing else changes, the view is logout-success |
| Workflow.Handle | src/main/java/com/doctor/appointment/controller/PatientController.java:24-129 | every handler keeps the invariant, only appends appointments and cancellations, never removes or overwrites a patient, and without a session only a login can set one or save or cancel anything |
| Workflow.RunKeepsConsistent | src/main/java/com/doctor/appointment/controller/PatientController.java:24-129 | after any sequence of requests from a consistent state, every saved appointment and cancellation belongs to a registered patient and the session's address is registered |
| Workflow.RunOnlyGrows | src/main/java/com/doctor/appointment/controller/PatientController.java:36-123 | after any sequence of requests the appointments and cancellations are extensions of the earlier ones and every registered patient is still stored unchanged |
| Workflow.LoginStable | src/main/java/com/doctor/appointment/controller/PatientController.java:36-44 | for a registered address, validateLogin gives the same answer for any password after any sequence of requests |
| Workflow.NoLoginNoBooking | src/main/java/com/doctor/appointment/controller/PatientController.java:46-123 | starting logged out, requests that contain no login leave the session empty and save or cancel nothing |
| Workflow.UnknownVerdictSaves | src/main/java/com/doctor/appointment/controller/PatientController.java:70-104 | with a session, a verdict other than VALID that the switch does not name still saves one appointment |
| Workflow.RegisterLoginBook | src/main/java/com/doctor/appointment/controller/PatientController.java:24-107 | register, log in and book with verdict VALID from an empty state: the session holds the address and exactly one appointment, built from the form for that patient, is stored |
| Workflow.WrongPasswordBooksNothing | src/main/java/com/doctor/appointment/controller/PatientController.java:24-68 | register, log in with a wrong password, then book: the session stays empty and nothing is stored |
| Controller.PatientController.Login | src/main/java/com/doctor/appointment/controller/PatientController.java:24-31 | the new state and the view are those Workflow.Login gives for the old state; the invariant is kept |
| Controller.PatientController.Register | src/main/java/com/doctor/appointment/controller/PatientController.java:36-44 | the new state and the view are those Workflow.Register gives; only the patient service's store may change |
| Controller.PatientController.Dashboard | src/main/java/com/doctor/appointment/controller/PatientController.java:46-52 | changes nothing; redirect:/login without a session address, otherwise patient-dashboard (Workflow.PatientPage) |
| Controller.PatientController.BookAppointment | src/main/java/com/doctor/appointment/controller/PatientController.java:54-61 | changes nothing; redirect:/login without a session address, otherwise book-appointment (Workflow.PatientPage) |
| Controller.PatientController.SaveAppointment | src/main/java/com/doctor/appointment/controller/PatientController.java:63-107 | the new state, the view and the error message are those Workflow.SaveAppointment gives for the old state; the invariant is kept |
| Controller.PatientController.History | src/main/java/com/doctor/appointment/controller/PatientController.java:109-115 | changes nothing; redirect:/login without a session address, otherwise booking-history (Workflow.PatientPage) |
| Controller.PatientController.Cancel | src/main/java/com/doctor/appointment/controller/PatientController.java:117-123 | the new state and the view are those Workflow.Cancel gives; the owner passed on is the session's address |
| Controller.PatientController.Logout | src/main/java/com/doctor/appointment/controller/PatientController.java:125-129 | the new state and the view are those Workflow.Logout gives |

`ExistsByEmail` and `ValidateLogin` are functions, so they cannot change the store.

## Left out

- The web framework: annotations, request binding, `HttpSession` as an object and the
  page model. The session is an optional address. Views are their label strings. Only the
  error message of a rejected booking is kept from the page model. The form fields echoed
  back on rejection, the doctor fields on the booking form and the appointment shown on
  success are not modelled.
- `loginPage` and `registerPage` only name a static view and touch no state.
- The validator `AppointmentService.validateAppointment` is not part of this model. Its
  verdict is a parameter of the booking, and no date, time, cutoff or slot-conflict rule is
  modelled.
- `AppointmentService.save` is modelled as an append. The id it assigns is not modelled.
- `AppointmentService.cancelByPatient` is modelled only as the (id, owner) request it is
  handed. Whether the appointment exists, who owns it and its status change are not modelled.
- `AppointmentService.getHistory` and `DoctorService.getAllDoctors` only supply data for
  rendering. The listings are not modelled; the pages are modelled by their gating and view.
- One browser session is modelled. Concurrent sessions, and the race between validating
  a slot and saving it, are out of scope for a sequential model.
- Java `null`s are not modelled: a missing form field, a patient without an address or a
  stored password that is `null`.
- The cancel id is a Java `Long`. The model uses an unbounded `int`, since the id is only
  passed on.
- `Patient` keeps the address, the password and the name. Other profile fields are not modelled.
- `logout` invalidates the whole session. The model clears the address, the only session
  attribute these handlers use.
- Appointment status: the booking handler writes `Slot Booked Successfully`, not a
  generic "booked" status. The model follows the code.
- Verdicts: the handler compares plain strings and has no default case. The model keeps
  strings, not a closed set of verdicts, so the fall-through to the save is visible.
