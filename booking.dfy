/** The verdict dispatch of the booking handler. The validator that produces the
    verdict is not part of this model: its verdict arrives as a string. */
module Booking {
  import opened Entities

  const VerdictValid := "VALID"
  const PastDate := "PAST_DATE"
  const PastTimeToday := "PAST_TIME_TODAY"
  const BookingClosedToday := "BOOKING_CLOSED_TODAY"
  const InvalidTime := "INVALID_TIME"
  const SlotNotAvailable := "SLOT_NOT_AVAILABLE"

  /** The five verdicts the handler's switch names. */
  const Rejections: set<string> := {PastDate, PastTimeToday, BookingClosedToday, InvalidTime, SlotNotAvailable}

  const BookingFormView := "book-appointment"
  const NotAvailableView := "appointment_not_available"

  /** The status a newly saved appointment carries. */
  const BookedStatus := "Slot Booked Successfully"

  /** How a rejected booking is answered: the view shown and the error message, if any. */
  datatype Rejection = Rejection(view: string, error: Option<string>)

  /** The handler's dispatch on the verdict. None means the appointment is saved: that happens for
      "VALID" and also for any string the switch does not name, which falls through to the save. */
  function Dispatch(verdict: string): (d: Option<Rejection>)
    ensures d.Some? <==> verdict in Rejections
    ensures verdict == VerdictValid ==> d.None?
    ensures d.Some? ==> (d.value.view == NotAvailableView <==> verdict == SlotNotAvailable)
    ensures d.Some? ==> (d.value.view == BookingFormView <==> verdict != SlotNotAvailable)
    ensures d.Some? ==> (d.value.error.Some? <==> verdict != SlotNotAvailable)
  {
    if verdict == VerdictValid then None
    else if verdict == PastDate then
      Some(Rejection(BookingFormView, Some("You cannot book appointments for past dates.")))
    else if verdict == PastTimeToday then
      Some(Rejection(BookingFormView, Some("You cannot book past time slots for today.")))
    else if verdict == BookingClosedToday then
      Some(Rejection(BookingFormView, Some("Booking for today is closed (After 4 PM).")))
    else if verdict == InvalidTime then
      Some(Rejection(BookingFormView, Some("Appointments allowed between 10 AM and 4 PM only.")))
    else if verdict == SlotNotAvailable then
      Some(Rejection(NotAvailableView, None))
    else None
  }

  /** The four rejections shown on the booking form each carry their own message. */
  lemma DistinctMessages(verdict: string, other: string)
    requires verdict in Rejections && other in Rejections
    requires verdict != SlotNotAvailable && other != SlotNotAvailable
    requires verdict != other
    ensures Dispatch(verdict).value.error != Dispatch(other).value.error
  {
  }

  /** `appt` is the appointment the handler builds from the form for `owner`: the doctor,
      date, time and problem come from the form, the owner from the session. */
  predicate Records(appt: Appointment, form: BookingForm, owner: string)
  {
    && appt.doctorName == form.doctorName
    && appt.doctorSpecialization == form.doctorSpecialization
    && appt.doctorEmail == form.doctorEmail
    && appt.patientEmail == owner
    && appt.date == form.date
    && appt.time == form.time
    && appt.problem == form.problem
    && appt.status == BookedStatus
  }
}
