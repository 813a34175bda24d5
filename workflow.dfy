/** The patient-facing handlers as functions of an explicit state: the session's e-mail
    (absent when nobody is logged in), the patient store, the appointments saved so far
    and the cancellations handed to the appointment store. */
module Workflow {
  import opened Entities
  import opened Patients
  import Booking

  datatype State = State(
    session: Option<string>,
    patients: PatientStore,
    appointments: seq<Appointment>,
    cancellations: seq<CancelRequest>)

  /** What a handler answers: the state afterwards, the view label and the error message shown. */
  datatype Reply = Reply(next: State, view: string, error: Option<string>)

  const LoginRedirect := "redirect:/login"
  const LoginFailedRedirect := "redirect:/login?error=true"
  const HomeRedirect := "redirect:/patient/home"
  const HistoryRedirect := "redirect:/patient/history"
  const BookedView := "appointment_success"
  const DashboardView := "patient-dashboard"
  const HistoryView := "booking-history"

  /** What every reachable state satisfies: patients are stored under their own address, and
      the session's address and the owner of every appointment and cancellation are registered. */
  predicate Consistent(s: State)
  {
    && KeyedByEmail(s.patients)
    && (s.session.Some? ==> s.session.value in s.patients)
    && (forall a :: a in s.appointments ==> a.patientEmail in s.patients)
    && (forall c :: c in s.cancellations ==> c.owner in s.patients)
  }

  /** A patient-only page answered without a session: back to the login page, nothing changed. */
  predicate Refused(s: State, r: Reply)
  {
    r == Reply(s, LoginRedirect, None)
  }

  function Login(s: State, email: string, password: string): (r: Reply)
    ensures r.error == None
    ensures r.view == HomeRedirect <==> ValidateLogin(s.patients, email, password)
    ensures ValidateLogin(s.patients, email, password) ==> r.next == s.(session := Some(email))
    ensures !ValidateLogin(s.patients, email, password) ==> r.next == s && r.view == LoginFailedRedirect
    ensures Consistent(s) ==> Consistent(r.next)
  {
    if ValidateLogin(s.patients, email, password) then
      Reply(s.(session := Some(email)), HomeRedirect, None)
    else
      Reply(s, LoginFailedRedirect, None)
  }

  function Register(s: State, patient: Patient): (r: Reply)
    ensures r.error == None && r.next.(patients := s.patients) == s
    ensures r.view == "registration-error" <==> ExistsByEmail(s.patients, patient.email)
    ensures ExistsByEmail(s.patients, patient.email) ==> r.next == s
    ensures !ExistsByEmail(s.patients, patient.email) ==>
              r.view == "registration-success" && r.next.patients == s.patients[patient.email := patient]
    ensures ExistsByEmail(r.next.patients, patient.email)
    ensures Extends(s.patients, r.next.patients)
    ensures Consistent(s) ==> Consistent(r.next)
  {
    if ExistsByEmail(s.patients, patient.email) then
      Reply(s, "registration-error", None)
    else
      RegisterNewExtends(s.patients, patient);
      Reply(s.(patients := s.patients[patient.email := patient]), "registration-success", None)
  }

  /** A patient-only page that only shows data: the dashboard (doctor list), the booking form
      for a chosen doctor and the booking history. The data shown is not modelled. */
  function PatientPage(s: State, page: string): (r: Reply)
    ensures s.session.None? ==> Refused(s, r)
    ensures s.session.Some? ==> r.next == s && r.view == page
    ensures r.next == s
  {
    if s.session.None? then Reply(s, LoginRedirect, None)
    else Reply(s, page, None)
  }

  /** The booking handler, given the validator's verdict on the requested slot. */
  function SaveAppointment(s: State, form: BookingForm, verdict: string): (r: Reply)
    ensures s.session.None? ==> Refused(s, r)
    ensures r.view == BookedView <==> s.session.Some? && verdict !in Booking.Rejections
    ensures r.view != BookedView ==> r.next == s
    ensures s.session.Some? && verdict in Booking.Rejections ==>
              Booking.Dispatch(verdict) == Some(Booking.Rejection(r.view, r.error))
    ensures r.view == BookedView ==>
              && r.error == None
              && r.next.(appointments := s.appointments) == s
              && |r.next.appointments| == |s.appointments| + 1
              && r.next.appointments[..|s.appointments|] == s.appointments
              && Booking.Records(r.next.appointments[|s.appointments|], form, s.session.value)
    ensures Consistent(s) ==> Consistent(r.next)
  {
    match s.session
    case None => Reply(s, LoginRedirect, None)
    case Some(owner) =>
      match Booking.Dispatch(verdict)
      case Some(rejection) => Reply(s, rejection.view, rejection.error)
      case None =>
        var appt := Appointment(form.doctorName, form.doctorSpecialization, form.doctorEmail,
                                owner, form.date, form.time, form.problem, Booking.BookedStatus);
        Reply(s.(appointments := s.appointments + [appt]), BookedView, None)
  }

  /** Cancellation: the appointment store is asked to cancel `id` on behalf of the session's
      patient; the owner never comes from the request. */
  function Cancel(s: State, id: int): (r: Reply)
    ensures s.session.None? ==> Refused(s, r)
    ensures s.session.Some? ==>
              && r.view == HistoryRedirect
              && r.next.(cancellations := s.cancellations) == s
              && |r.next.cancellations| == |s.cancellations| + 1
              && r.next.cancellations[..|s.cancellations|] == s.cancellations
              && r.next.cancellations[|s.cancellations|] == CancelRequest(id, s.session.value)
    ensures Consistent(s) ==> Consistent(r.next)
  {
    match s.session
    case None => Reply(s, LoginRedirect, None)
    case Some(owner) =>
      Reply(s.(cancellations := s.cancellations + [CancelRequest(id, owner)]), HistoryRedirect, None)
  }

  /** Logout invalidates the session, whoever was logged in. */
  function Logout(s: State): (r: Reply)
    ensures r.next.session == None && r.next.(session := s.session) == s
    ensures r.view == "logout-success"
    ensures Consistent(s) ==> Consistent(r.next)
  {
    Reply(s.(session := None), "logout-success", None)
  }

  /** One request to the patient workflow; a booking carries the validator's verdict on it. */
  datatype Request =
    | LoginRequest(email: string, password: string)
    | RegisterRequest(patient: Patient)
    | DashboardRequest
    | BookFormRequest
    | SaveRequest(form: BookingForm, verdict: string)
    | HistoryRequest
    | CancelCall(id: int)
    | LogoutRequest

  function Handle(s: State, req: Request): (r: Reply)
    ensures Consistent(s) ==> Consistent(r.next)
    ensures s.appointments <= r.next.appointments
    ensures s.cancellations <= r.next.cancellations
    ensures Extends(s.patients, r.next.patients)
    ensures !req.LoginRequest? && s.session.None? ==>
              r.next.session.None? && r.next.appointments == s.appointments && r.next.cancellations == s.cancellations
  {
    match req
    case LoginRequest(email, password) => Login(s, email, password)
    case RegisterRequest(patient) => Register(s, patient)
    case DashboardRequest => PatientPage(s, DashboardView)
    case BookFormRequest => PatientPage(s, Booking.BookingFormView)
    case SaveRequest(form, verdict) => SaveAppointment(s, form, verdict)
    case HistoryRequest => PatientPage(s, HistoryView)
    case CancelCall(id) => Cancel(s, id)
    case LogoutRequest => Logout(s)
  }

  /** The state after handling `reqs` in order. */
  function Run(s: State, reqs: seq<Request>): State
    decreases |reqs|
  {
    if reqs == [] then s else Run(Handle(s, reqs[0]).next, reqs[1..])
  }

  /** Every state reachable through the handlers is consistent: in particular every saved
      appointment and every cancellation belongs to a registered patient. */
  lemma {:induction false} RunKeepsConsistent(s: State, reqs: seq<Request>)
    requires Consistent(s)
    ensures Consistent(Run(s, reqs))
    decreases |reqs|
  {
    if reqs != [] {
      RunKeepsConsistent(Handle(s, reqs[0]).next, reqs[1..]);
    }
  }

  /** Appointments and cancellations are only ever appended, and no registered patient is
      removed or overwritten (registration refuses an address already stored). */
  lemma {:induction false} RunOnlyGrows(s: State, reqs: seq<Request>)
    ensures s.appointments <= Run(s, reqs).appointments
    ensures s.cancellations <= Run(s, reqs).cancellations
    ensures Extends(s.patients, Run(s, reqs).patients)
    decreases |reqs|
  {
    if reqs != [] {
      var t := Handle(s, reqs[0]).next;
      RunOnlyGrows(t, reqs[1..]);
    }
  }

  /** A registered patient's credentials stay valid, and wrong passwords stay invalid, whatever
      requests follow. */
  lemma LoginStable(s: State, reqs: seq<Request>, email: string, password: string)
    requires email in s.patients
    ensures ValidateLogin(Run(s, reqs).patients, email, password) == ValidateLogin(s.patients, email, password)
  {
    RunOnlyGrows(s, reqs);
  }

  /** Without a login nothing is booked or cancelled: starting logged out, requests none of which
      is a login leave the session empty and the appointment store and cancellations untouched. */
  lemma {:induction false} NoLoginNoBooking(s: State, reqs: seq<Request>)
    requires s.session.None?
    requires forall i :: 0 <= i < |reqs| ==> !reqs[i].LoginRequest?
    ensures Run(s, reqs).session.None?
    ensures Run(s, reqs).appointments == s.appointments
    ensures Run(s, reqs).cancellations == s.cancellations
    decreases |reqs|
  {
    if reqs != [] {
      assert !reqs[0].LoginRequest?;
      NoLoginNoBooking(Handle(s, reqs[0]).next, reqs[1..]);
    }
  }

  /** A verdict the switch does not name is not a rejection: the appointment is saved. */
  lemma UnknownVerdictSaves(s: State, form: BookingForm, verdict: string)
    requires s.session.Some?
    requires verdict != Booking.VerdictValid && verdict !in Booking.Rejections
    ensures SaveAppointment(s, form, verdict).view == BookedView
    ensures |SaveAppointment(s, form, verdict).next.appointments| == |s.appointments| + 1
  {
  }

  /** A new patient registers, logs in and books a slot the validator accepts: exactly one
      appointment is stored, owned by that patient and booked for the requested slot. */
  lemma RegisterLoginBook(p: Patient, form: BookingForm)
    ensures var s := Run(State(None, map[], [], []),
                         [RegisterRequest(p), LoginRequest(p.email, p.password), SaveRequest(form, Booking.VerdictValid)]);
            && s.session == Some(p.email)
            && |s.appointments| == 1
            && Booking.Records(s.appointments[0], form, p.email)
  {
    var reqs := [RegisterRequest(p), LoginRequest(p.email, p.password), SaveRequest(form, Booking.VerdictValid)];
    var s0 := State(None, map[], [], []);
    var s1 := Handle(s0, reqs[0]).next;
    var s2 := Handle(s1, reqs[1]).next;
    var s3 := Handle(s2, reqs[2]).next;
    assert s1.patients == map[p.email := p];
    assert s2.session == Some(p.email);
    assert Run(s0, reqs) == Run(s1, reqs[1..]);
    assert Run(s1, reqs[1..]) == Run(s2, reqs[2..]);
    assert Run(s2, reqs[2..]) == Run(s3, []);
  }

  /** A login with the wrong password leaves the session empty, so the booking that follows is
      sent back to the login page and nothing is stored. */
  lemma WrongPasswordBooksNothing(p: Patient, wrong: string, form: BookingForm)
    requires wrong != p.password
    ensures var s := Run(State(None, map[], [], []),
                         [RegisterRequest(p), LoginRequest(p.email, wrong), SaveRequest(form, Booking.VerdictValid)]);
            s.session == None && s.appointments == []
  {
    NoLoginNoBooking(Handle(Handle(State(None, map[], [], []), RegisterRequest(p)).next, LoginRequest(p.email, wrong)).next,
                     [SaveRequest(form, Booking.VerdictValid)]);
    assert [RegisterRequest(p), LoginRequest(p.email, wrong), SaveRequest(form, Booking.VerdictValid)][1..]
        == [LoginRequest(p.email, wrong), SaveRequest(form, Booking.VerdictValid)];
    assert [LoginRequest(p.email, wrong), SaveRequest(form, Booking.VerdictValid)][1..]
        == [SaveRequest(form, Booking.VerdictValid)];
  }
}
