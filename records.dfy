/**
 * The records the patient-history system stores and exchanges: patients,
 * their diagnoses and immunizations, and the error object the storage client
 * hands back when a query fails.
 */
module Records {

  datatype Option<+T> = None | Some(value: T) {
    function GetOr(default: T): T {
      match this
      case Some(v) => v
      case None => default
    }
  }

  /** A JavaScript string option is "truthy" when it is present and not empty. */
  predicate Truthy(s: Option<string>) {
    s.Some? && s.value != ""
  }

  datatype Gender = Male | Female | Other

  /**
   * An instant as the store keeps it for `created_at`; the store renders it as
   * ISO-8601 text, and ordering by `created_at` is ordering of instants.
   */
  type Timestamp = nat

  datatype Patient = Patient(
    id: string,
    passportId: string,
    fullName: string,
    birthDate: string,
    gender: Gender,
    recordedAt: string)

  /** The `doctors(full_name)` part of a diagnosis row joined with its author. */
  datatype DoctorRef = DoctorRef(fullName: string)

  datatype Diagnosis = Diagnosis(
    id: string,
    patientId: string,
    diagnosisName: string,
    description: string,
    createdAt: Timestamp,
    doctorId: string,
    doctors: Option<DoctorRef>)

  datatype Immunization = Immunization(
    id: string,
    patientId: string,
    diseaseName: string,
    vaccinated: bool,
    date: string)

  /**
   * The error object of the storage client (`{ code, message }`); an empty
   * string stands for a field that is absent or empty, both falsy in JavaScript.
   * Where an absent message is concatenated it would print as "undefined";
   * the model prints nothing there.
   */
  datatype StoreError = StoreError(code: string, message: string)
}
