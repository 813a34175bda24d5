/** The patient controller: its handlers update the session, the patient service's store,
    the appointments saved and the cancellations requested, in place. Each handler is
    proved to do what the matching function of Workflow specifies. */
module Controller {
  import opened Entities
  import opened Patients
  import Booking
  import Workflow

  class PatientController {
    const patientService: PatientService
    var session: Option<string>
    var appointments: seq<Appointment>
    var cancellations: seq<CancelRequest>

    /** The controller's state as a value. */
    function State(): Workflow.State
      reads this, patientService
    {
      Workflow.State(session, patientService.patients, appointments, cancellations)
    }

    ghost predicate Valid()
      reads this, patientService
    {
      Workflow.Consistent(State())
    }

    constructor (service: PatientService)
      requires service.Valid()
      ensures Valid()
      ensures patientService == service && session == None && appointments == [] && cancellations == []
    {
      patientService := service;
      session := None;
      appointments := [];
      cancellations := [];
    }

    method Login(email: string, password: string) returns (view: string)
      requires Valid()
      modifies this
      ensures Valid()
      ensures State() == Workflow.Login(old(State()), email, password).next
      ensures view == Workflow.Login(old(State()), email, password).view
    {
      if ValidateLogin(patientService.patients, email, password) {
        session := Some(email);
        return Workflow.HomeRedirect;
      }
      return Workflow.LoginFailedRedirect;
    }

    method Register(patient: Patient) returns (view: string)
      requires Valid()
      modifies patientService
      ensures Valid()
      ensures State() == Workflow.Register(old(State()), patient).next
      ensures view == Workflow.Register(old(State()), patient).view
    {
      if ExistsByEmail(patientService.patients, patient.email) {
        return "registration-error";
      }
      patientService.RegisterPatient(patient);
      return "registration-success";
    }

    method Dashboard() returns (view: string)
      requires Valid()
      ensures view == Workflow.PatientPage(State(), Workflow.DashboardView).view
    {
      if session.None? {
        return Workflow.LoginRedirect;
      }
      return Workflow.DashboardView;
    }

    method BookAppointment() returns (view: string)
      requires Valid()
      ensures view == Workflow.PatientPage(State(), Booking.BookingFormView).view
    {
      if session.None? {
        return Workflow.LoginRedirect;
      }
      return Booking.BookingFormView;
    }

    /** Saves the appointment unless the validator's verdict is one of the five rejections. */
    method SaveAppointment(form: BookingForm, verdict: string) returns (view: string, error: Option<string>)
      requires Valid()
      modifies this
      ensures Valid()
      ensures State() == Workflow.SaveAppointment(old(State()), form, verdict).next
      ensures view == Workflow.SaveAppointment(old(State()), form, verdict).view
      ensures error == Workflow.SaveAppointment(old(State()), form, verdict).error
    {
      if session.None? {
        return Workflow.LoginRedirect, None;
      }
      var patientEmail := session.value;
      var rejection := Booking.Dispatch(verdict);
      if rejection.Some? {
        return rejection.value.view, rejection.value.error;
      }
      var appt := Appointment(form.doctorName, form.doctorSpecialization, form.doctorEmail,
                              patientEmail, form.date, form.time, form.problem, Booking.BookedStatus);
      appointments := appointments + [appt];
      return Workflow.BookedView, None;
    }

    method History() returns (view: string)
      requires Valid()
      ensures view == Workflow.PatientPage(State(), Workflow.HistoryView).view
    {
      if session.None? {
        return Workflow.LoginRedirect;
      }
      return Workflow.HistoryView;
    }

    method Cancel(id: int) returns (view: string)
      requires Valid()
      modifies this
      ensures Valid()
      ensures State() == Workflow.Cancel(old(State()), id).next
      ensures view == Workflow.Cancel(old(State()), id).view
    {
      if session.None? {
        return Workflow.LoginRedirect;
      }
      cancellations := cancellations + [CancelRequest(id, session.value)];
      return Workflow.HistoryRedirect;
    }

    method Logout() returns (view: string)
      requires Valid()
      modifies this
      ensures Valid()
      ensures State() == Workflow.Logout(old(State())).next
      ensures view == Workflow.Logout(old(State())).view
    {
      session := None;
      return "logout-success";
    }
  }
}
