/**
 * The rows of the backend tables the core reads and writes: `consultations`,
 * `prescriptions`, `doctors` and `consultation_status_logs`, together with the
 * insert payloads the components build for them. Timestamps are integers
 * supplied by the backend's clock; the JSON blobs (`patient_vitals`,
 * `medications`) are a string map and a sequence of records.
 */
module Records {
  import opened Wrappers

  /** The five values of the `status` column. */
  datatype Status = Pending | Scheduled | Live | Completed | Cancelled

  datatype Consultation = Consultation(
    id: string,
    patientName: string,
    patientAge: Option<int>,
    patientContact: string,
    patientSymptoms: string,
    patientVitals: map<string, string>,
    consultationType: string,
    status: Status,
    scheduledTime: Option<string>,
    doctorId: string,
    doctorName: Option<string>,
    doctorSpecialization: Option<string>,
    staffName: string,
    videoRoomId: Option<string>,
    videoCallLink: Option<string>,
    prescriptionId: Option<string>,
    createdAt: int)

  /** The object the request form inserts; the backend adds the id, the timestamp and the null columns. */
  datatype ConsultationInsert = ConsultationInsert(
    patientName: string,
    patientAge: Option<int>,
    patientContact: string,
    patientSymptoms: string,
    patientVitals: map<string, string>,
    consultationType: string,
    scheduledTime: Option<string>,
    doctorId: string,
    doctorName: Option<string>,
    doctorSpecialization: Option<string>,
    staffName: string,
    status: Status)

  /** One entry of a prescription's `medications` array. */
  datatype Medication = Medication(name: string, dosage: string, frequency: string, duration: string, instructions: string)

  datatype Prescription = Prescription(
    id: string,
    consultationId: string,
    patientName: string,
    patientAge: Option<int>,
    doctorId: string,
    doctorName: string,
    doctorLicenseNumber: Option<string>,
    diagnosis: string,
    medications: seq<Medication>,
    instructions: string,
    followUpDate: Option<string>,
    isDispensed: bool,
    dispensedAt: Option<int>,
    dispensedBy: Option<string>,
    createdAt: int)

  /** The object the prescription form inserts; dispensing columns take their defaults. */
  datatype PrescriptionInsert = PrescriptionInsert(
    consultationId: string,
    patientName: string,
    patientAge: Option<int>,
    doctorId: string,
    doctorName: string,
    doctorLicenseNumber: Option<string>,
    diagnosis: string,
    medications: seq<Medication>,
    instructions: string,
    followUpDate: Option<string>)

  datatype Doctor = Doctor(
    id: string,
    name: string,
    specialization: string,
    contactPhone: string,
    contactEmail: string,
    isEmergencyDoctor: bool,
    isAvailable: bool,
    responseTimeMinutes: int)

  /** A row of `consultation_status_logs`. */
  datatype StatusLogEntry = StatusLogEntry(
    consultationId: string,
    oldStatus: Option<string>,
    newStatus: string,
    changedBy: string,
    notes: string)
}
