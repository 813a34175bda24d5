/** The records the patient workflow of the clinic's booking site reads and writes. */
module Entities {

  datatype Option<T> = None | Some(value: T)

  /** A registered patient. The e-mail address is the repository's primary key;
      profile fields other than the name are not modelled. */
  datatype Patient = Patient(email: string, password: string, name: string)

  /** The fields of the booking form a logged-in patient posts. */
  datatype BookingForm = BookingForm(
    doctorName: string,
    doctorSpecialization: string,
    doctorEmail: string,
    date: string,
    time: string,
    problem: string)

  /** A saved appointment. The identifier the appointment store assigns on save is not modelled. */
  datatype Appointment = Appointment(
    doctorName: string,
    doctorSpecialization: string,
    doctorEmail: string,
    patientEmail: string,
    date: string,
    time: string,
    problem: string,
    status: string)

  /** A cancellation handed to the appointment store: the appointment id and the
      patient it is cancelled on behalf of. */
  datatype CancelRequest = CancelRequest(id: int, owner: string)
}
