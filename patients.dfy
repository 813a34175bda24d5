/** The patient credential store: a repository of patients keyed by e-mail address. */
module Patients {
  import opened Entities

  type PatientStore = map<string, Patient>

  /** Every patient is stored under its own e-mail address (the repository's primary key). */
  predicate KeyedByEmail(store: PatientStore)
  {
    forall e :: e in store ==> store[e].email == e
  }

  /** The repository's findById: the patient stored under the address, if any. */
  function FindById(store: PatientStore, email: string): Option<Patient>
  {
    if email in store then Some(store[email]) else None
  }

  /** The repository's existsById, which agrees with findById. */
  function ExistsByEmail(store: PatientStore, email: string): (b: bool)
    ensures b <==> FindById(store, email).Some?
  {
    email in store
  }

  /** Login check: a patient must be stored under the address and its stored password
      must equal the submitted one exactly (plain string equality, no hashing). */
  function ValidateLogin(store: PatientStore, email: string, password: string): (ok: bool)
    ensures !ExistsByEmail(store, email) ==> !ok
    ensures ok <==> email in store && store[email].password == password
  {
    match FindById(store, email)
    case None => false
    case Some(patient) => patient.password == password
  }

  /** `other` maps every address of `store` to the same patient: nothing stored was
      removed or overwritten. */
  predicate Extends(store: PatientStore, other: PatientStore)
  {
    forall e :: e in store ==> e in other && other[e] == store[e]
  }

  /** After the upsert of `patient` the patient can log in with its own password. */
  lemma RegisterThenLogin(store: PatientStore, patient: Patient)
    ensures ExistsByEmail(store[patient.email := patient], patient.email)
    ensures ValidateLogin(store[patient.email := patient], patient.email, patient.password)
  {
  }

  /** The upsert of `patient` leaves every other address as it was. */
  lemma RegisterKeepsOthers(store: PatientStore, patient: Patient, email: string)
    requires email != patient.email
    ensures FindById(store[patient.email := patient], email) == FindById(store, email)
  {
  }

  /** A patient whose address is not yet stored is added without touching anyone else. */
  lemma RegisterNewExtends(store: PatientStore, patient: Patient)
    requires !ExistsByEmail(store, patient.email)
    ensures Extends(store, store[patient.email := patient])
    ensures KeyedByEmail(store) ==> KeyedByEmail(store[patient.email := patient])
  {
  }

  /** The patient service, holding the repository it saves to. */
  class PatientService {
    var patients: PatientStore

    ghost predicate Valid()
      reads this
    {
      KeyedByEmail(patients)
    }

    constructor (initial: PatientStore)
      requires KeyedByEmail(initial)
      ensures Valid() && patients == initial
    {
      patients := initial;
    }

    /** registerPatient: an upsert keyed by the patient's e-mail address. */
    method RegisterPatient(patient: Patient)
      requires Valid()
      modifies this
      ensures Valid()
      ensures patients == old(patients)[patient.email := patient]
      ensures forall e :: e in old(patients) && e != patient.email ==> e in patients && patients[e] == old(patients)[e]
      ensures ExistsByEmail(patients, patient.email)
      ensures ValidateLogin(patients, patient.email, patient.password)
    {
      patients := patients[patient.email := patient];
      RegisterThenLogin(old(patients), patient);
    }
  }
}
