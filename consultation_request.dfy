/**
 * The consultation request form: its input state, the dotted-path input
 * handler, the insert payload built on submit, the emergency/routine split of
 * the doctor list and the submit gating, and the submit sequence (insert, then
 * notify the doctor, then reset).
 */
module ConsultationRequest {
  import opened Wrappers
  import opened Records
  import opened Query
  import opened Text
  import opened Database
  import NotifyDoctor

  /**
   * The form's state: the top-level text fields by name and the nested
   * `patient_vitals` object.
   */
  datatype FormState = FormState(fields: map<string, string>, vitals: map<string, string>)

  /** The state the form starts in and is reset to. */
  function InitialForm(): FormState {
    FormState(
      map["patient_name" := "", "patient_age" := "", "patient_contact" := "", "patient_symptoms" := "",
          "consultation_type" := "routine", "scheduled_time" := "", "doctor_id" := "",
          "staff_name" := "Health Worker"],
      map["temperature" := "", "blood_pressure" := "", "heart_rate" := "", "oxygen_level" := ""])
  }

  /** A top-level field's text; a field never written reads as empty. */
  function Field(form: FormState, name: string): string {
    if name in form.fields then form.fields[name] else ""
  }

  /** The text before the first dot (all of `s` when it has none). */
  function BeforeDot(s: string): (r: string)
    ensures r <= s && '.' !in r
    ensures |r| < |s| ==> s[|r|] == '.'
    ensures '.' in s ==> |r| < |s|
  {
    if s == [] || s[0] == '.' then [] else [s[0]] + BeforeDot(s[1..])
  }

  /** The first two pieces of `field.split('.')`, for a field that contains a dot. */
  function Parent(field: string): string {
    BeforeDot(field)
  }

  function Child(field: string): string
    requires '.' in field
  {
    BeforeDot(field[|BeforeDot(field)| + 1..])
  }

  /**
   * `handleInputChange(field, value)`: a dotted path under `patient_vitals`
   * sets one vital, a dotted path under any other parent is ignored, and a
   * plain name sets that field.
   */
  function WithInput(form: FormState, field: string, value: string): (r: FormState)
    ensures '.' !in field ==> r.vitals == form.vitals && r.fields == form.fields[field := value]
    ensures '.' in field && Parent(field) != "patient_vitals" ==> r == form
    ensures '.' in field ==> r.fields == form.fields
  {
    if '.' in field then
      if Parent(field) == "patient_vitals" then form.(vitals := form.vitals[Child(field) := value]) else form
    else form.(fields := form.fields[field := value])
  }

  /** Typing into vital `k` ("patient_vitals.k") changes vital `k` and nothing else. */
  lemma VitalInput(form: FormState, k: string, value: string)
    requires '.' !in k
    ensures WithInput(form, "patient_vitals." + k, value) == form.(vitals := form.vitals[k := value])
  {
    var parent := "patient_vitals";
    var field := parent + "." + k;
    assert field == "patient_vitals." + k;
    assert '.' in field by {
      assert field[|parent|] == '.';
    }
    BeforeDotStops(parent, k);
    assert Parent(field) == parent;
    assert field[|parent| + 1..] == k;
    BeforeDotStops(k, "");
    assert Child(field) == k;
  }

  /** The text before the first dot of `a + "." + b`, for `a` without a dot, is `a`. */
  lemma {:induction false} BeforeDotStops(a: string, b: string)
    requires '.' !in a
    ensures BeforeDot(a + "." + b) == a
    ensures b == "" ==> BeforeDot(a) == a
  {
    if a != [] {
      assert (a + "." + b)[1..] == a[1..] + "." + b;
      BeforeDotStops(a[1..], b);
      assert [a[0]] + a[1..] == a;
    }
  }

  /** `doctors.find(d => d.id === id)`: the first doctor with that id. */
  function FindDoctor(doctors: seq<Doctor>, id: string): (r: Option<Doctor>)
    ensures r.None? <==> forall d :: d in doctors ==> d.id != id
    ensures r.Some? ==> exists i :: 0 <= i < |doctors| && doctors[i] == r.value && r.value.id == id
                          && forall j :: 0 <= j < i ==> doctors[j].id != id
  {
    if doctors == [] then None
    else if doctors[0].id == id then Some(doctors[0])
    else
      var r := FindDoctor(doctors[1..], id);
      assert forall j :: 1 <= j < |doctors| ==> doctors[j] == doctors[1..][j - 1];
      r
  }

  /** Emergency requests wait for the doctor; routine ones are scheduled. */
  function InitialStatus(consultationType: string): (r: Status)
    ensures r == Pending <==> consultationType == "emergency"
    ensures r == Scheduled <==> consultationType != "emergency"
  {
    if consultationType == "emergency" then Pending else Scheduled
  }

  /** The age column: null for an empty input, otherwise `parseInt`, whose NaN is sent as null. */
  function AgeValue(text: string): Option<int> {
    if text == "" then None else ParseInt(text)
  }

  /** An age typed as a number is stored as that number; an empty age is stored as null. */
  lemma AgeValueOfNumber(n: int)
    ensures AgeValue(IntToString(n)) == Some(n)
    ensures AgeValue("") == None
  {
    ParseIntRoundTrip(n);
  }

  /**
   * The inserted object. `isoTime` is the scheduled time converted to an ISO
   * timestamp by the browser; it is used only when a time was entered.
   */
  function BuildRequest(form: FormState, doctors: seq<Doctor>, isoTime: string): (r: ConsultationInsert)
    ensures r.patientAge.None? <==> Field(form, "patient_age") == "" || ParseInt(Field(form, "patient_age")).None?
    ensures r.scheduledTime.None? <==> Field(form, "scheduled_time") == ""
    ensures r.status == InitialStatus(Field(form, "consultation_type"))
    ensures r.patientVitals == form.vitals
  {
    var doctor := FindDoctor(doctors, Field(form, "doctor_id"));
    ConsultationInsert(
      Field(form, "patient_name"),
      AgeValue(Field(form, "patient_age")),
      Field(form, "patient_contact"),
      Field(form, "patient_symptoms"),
      form.vitals,
      Field(form, "consultation_type"),
      if Field(form, "scheduled_time") == "" then None else Some(isoTime),
      Field(form, "doctor_id"),
      if doctor.Some? then Some(doctor.value.name) else None,
      if doctor.Some? then Some(doctor.value.specialization) else None,
      Field(form, "staff_name"),
      InitialStatus(Field(form, "consultation_type")))
  }

  /**
   * The doctor's name and specialization are those of the listed doctor the
   * form selected, and are left out (null) when no listed doctor has that id.
   */
  lemma RequestNamesSelectedDoctor(form: FormState, doctors: seq<Doctor>, isoTime: string)
    requires UniqueIds(doctors, DoctorKey)
    ensures var r := BuildRequest(form, doctors, isoTime);
      (forall d :: d in doctors && d.id == r.doctorId ==>
         r.doctorName == Some(d.name) && r.doctorSpecialization == Some(d.specialization))
      && ((forall d :: d in doctors ==> d.id != r.doctorId) ==> r.doctorName.None? && r.doctorSpecialization.None?)
  {
    var id := Field(form, "doctor_id");
    var found := FindDoctor(doctors, id);
    forall d | d in doctors && d.id == id
      ensures found == Some(d)
    {
      var i :| 0 <= i < |doctors| && doctors[i] == found.value && found.value.id == id;
      var k :| 0 <= k < |doctors| && doctors[k] == d;
      assert doctors[i].id == doctors[k].id;
    }
  }

  /** The body sent to the notify-doctor function once the row exists. */
  function NotificationFor(form: FormState, consultationId: string): NotifyDoctor.NotificationRequest {
    NotifyDoctor.NotificationRequest(
      consultationId, Field(form, "doctor_id"), Field(form, "patient_name"), Field(form, "patient_symptoms"),
      Field(form, "consultation_type"), Some(Field(form, "scheduled_time")))
  }

  /** The notification says "ASAP" exactly when no time was entered, which is also when the row stores no time. */
  lemma NotificationTimeAgreesWithRow(form: FormState, doctors: seq<Doctor>, isoTime: string, id: string, localTime: string)
    ensures NotifyDoctor.TimeText(NotificationFor(form, id).scheduledTime, localTime) == "ASAP"
            <==> BuildRequest(form, doctors, isoTime).scheduledTime.None?
  {
  }

  function IsEmergencyDoctor(d: Doctor): bool {
    d.isEmergencyDoctor
  }

  function IsRoutineDoctor(d: Doctor): bool {
    !d.isEmergencyDoctor
  }

  function EmergencyDoctors(doctors: seq<Doctor>): seq<Doctor> {
    Filter(doctors, IsEmergencyDoctor)
  }

  function RoutineDoctors(doctors: seq<Doctor>): seq<Doctor> {
    Filter(doctors, IsRoutineDoctor)
  }

  /** The two lists shown partition the doctors: disjoint, covering, each in list order. */
  lemma DoctorSplitPartitions(doctors: seq<Doctor>)
    ensures forall d :: d in doctors <==> d in EmergencyDoctors(doctors) || d in RoutineDoctors(doctors)
    ensures forall d :: !(d in EmergencyDoctors(doctors) && d in RoutineDoctors(doctors))
    ensures forall d :: d in EmergencyDoctors(doctors) ==> d.isEmergencyDoctor
    ensures |EmergencyDoctors(doctors)| + |RoutineDoctors(doctors)| == |doctors|
    ensures SubsequenceOf(EmergencyDoctors(doctors), doctors) && SubsequenceOf(RoutineDoctors(doctors), doctors)
  {
    forall d ensures d in doctors <==> d in EmergencyDoctors(doctors) || d in RoutineDoctors(doctors) {
      FilterMembers(doctors, IsEmergencyDoctor, d);
      FilterMembers(doctors, IsRoutineDoctor, d);
    }
    forall d ensures !(d in EmergencyDoctors(doctors) && d in RoutineDoctors(doctors)) {
      FilterMembers(doctors, IsEmergencyDoctor, d);
      FilterMembers(doctors, IsRoutineDoctor, d);
    }
    forall d | d in EmergencyDoctors(doctors) ensures d.isEmergencyDoctor {
      FilterMembers(doctors, IsEmergencyDoctor, d);
    }
    FilterPartition(doctors, IsEmergencyDoctor, IsRoutineDoctor);
    FilterIsSubsequence(doctors, IsEmergencyDoctor);
    FilterIsSubsequence(doctors, IsRoutineDoctor);
  }

  /** The submit button's `disabled` negated. */
  function SubmitEnabled(isSubmitting: bool, form: FormState): bool {
    !isSubmitting && Field(form, "patient_name") != "" && Field(form, "patient_symptoms") != ""
    && Field(form, "doctor_id") != ""
  }

  /**
   * With no submit in flight the button is enabled exactly when the payload it
   * would send names a patient, symptoms and a doctor.
   */
  lemma SubmitEnabledIffPayloadComplete(form: FormState, doctors: seq<Doctor>, isoTime: string)
    ensures var r := BuildRequest(form, doctors, isoTime);
      SubmitEnabled(false, form) <==> r.patientName != "" && r.patientSymptoms != "" && r.doctorId != ""
    ensures !SubmitEnabled(true, form)
  {
  }

  class RequestForm {
    var doctors: seq<Doctor>
    var isSubmitting: bool
    var data: FormState

    constructor ()
      ensures doctors == [] && !isSubmitting && data == InitialForm()
    {
      doctors := [];
      isSubmitting := false;
      data := InitialForm();
    }

    /** `fetchDoctors`: the available doctors, fastest first; on error the list is kept. */
    method FetchDoctors(db: Database, fails: bool)
      modifies this`doctors
      ensures doctors == if fails then old(doctors) else db.AvailableDoctors()
    {
      if !fails {
        doctors := db.AvailableDoctors();
      }
    }

    method HandleInputChange(field: string, value: string)
      modifies this`data
      ensures data == WithInput(old(data), field, value)
    {
      data := WithInput(data, field, value);
    }

    /**
     * `handleSubmit`. `isoTime` is None when the entered time is not a valid
     * date (the ISO conversion throws before the insert); `notifyUnreachable`
     * is a failed function invocation, `faults` the handler's own failures.
     * A notification failure of either kind is only logged; the form is reset
     * exactly when the row was inserted.
     */
    method HandleSubmit(db: Database, newId: string, now: int, isoTime: Option<string>, insertFails: bool,
                        notifyUnreachable: bool, faults: NotifyDoctor.Faults) returns (sent: bool)
      requires db.Valid()
      modifies this`isSubmitting, this`data, db`consultations, db`statusLogs
      ensures db.Valid() && !isSubmitting
      ensures var converts := Field(old(data), "scheduled_time") == "" || isoTime.Some?;
        sent <==> converts && !insertFails && newId !in Ids(old(db.consultations), ConsultationKey)
      ensures data == if sent then InitialForm() else old(data)
      ensures !sent ==> db.consultations == old(db.consultations) && db.statusLogs == old(db.statusLogs)
      ensures sent ==>
        var row := NewConsultationRow(BuildRequest(old(data), doctors, isoTime.GetOr("")), newId, now);
        var req := NotificationFor(old(data), newId);
        if notifyUnreachable then
          db.consultations == old(db.consultations) + [row] && db.statusLogs == old(db.statusLogs)
        else
          db.consultations == NotifyDoctor.ConsultationsAfter(old(db.consultations) + [row], db.doctors, req, faults)
          && db.statusLogs == NotifyDoctor.LogsAfter(old(db.statusLogs), db.doctors, req, faults)
    {
      isSubmitting := true;
      sent := false;
      if Field(data, "scheduled_time") != "" && isoTime.None? {
        isSubmitting := false;
        return;
      }
      var payload := BuildRequest(data, doctors, isoTime.GetOr(""));
      var row := db.InsertConsultation(payload, newId, now, insertFails);
      if row.None? {
        isSubmitting := false;
        return;
      }
      if !notifyUnreachable {
        var _ := NotifyDoctor.Handle(db, NotificationFor(data, row.value.id), faults);
      }
      data := InitialForm();
      sent := true;
      isSubmitting := false;
    }
  }
}
