/**
 * The prescription form: the editable medication list (add, remove with a
 * floor of one entry, update one field of one entry), the validity filter, the
 * two rejections, and the submit sequence, which inserts the prescription and
 * then, as a separate write whose failure is not checked, stores its id on the
 * consultation.
 */
module PrescriptionForm {
  import opened Wrappers
  import opened Records
  import opened Query
  import opened Text
  import opened Database
  import ConsultationDashboard

  /** The five keys of a medication entry. */
  datatype MedField = Name | Dosage | Frequency | Duration | Instructions

  function Get(m: Medication, f: MedField): string {
    match f
    case Name => m.name
    case Dosage => m.dosage
    case Frequency => m.frequency
    case Duration => m.duration
    case Instructions => m.instructions
  }

  /** `{ ...med, [field]: value }`: one key set, the other four kept. */
  function WithField(m: Medication, f: MedField, v: string): (r: Medication)
    ensures Get(r, f) == v
    ensures forall g :: g != f ==> Get(r, g) == Get(m, g)
  {
    match f
    case Name => m.(name := v)
    case Dosage => m.(dosage := v)
    case Frequency => m.(frequency := v)
    case Duration => m.(duration := v)
    case Instructions => m.(instructions := v)
  }

  function EmptyMedication(): (r: Medication)
    ensures forall f :: Get(r, f) == ""
  {
    Medication("", "", "", "", "")
  }

  /** `addMedication`: one blank entry at the end. */
  function Appended(meds: seq<Medication>): (r: seq<Medication>)
    ensures |r| == |meds| + 1 && r[..|meds|] == meds && r[|meds|] == EmptyMedication()
  {
    meds + [EmptyMedication()]
  }

  /**
   * `removeMedication(i)`: with more than one entry, the entries at every
   * index but `i` (all of them when `i` is out of range); with one entry, no
   * change.
   */
  function RemovedAt(meds: seq<Medication>, i: int): (r: seq<Medication>)
    ensures |meds| >= 1 ==> |r| >= 1
    ensures |r| == if |meds| > 1 && 0 <= i < |meds| then |meds| - 1 else |meds|
    ensures |meds| > 1 && 0 <= i < |meds| ==>
      (forall j :: 0 <= j < i ==> r[j] == meds[j]) && (forall j :: i <= j < |r| ==> r[j] == meds[j + 1])
    ensures !(|meds| > 1 && 0 <= i < |meds|) ==> r == meds
  {
    if |meds| > 1 && 0 <= i < |meds| then meds[..i] + meds[i + 1..] else meds
  }

  /** `updateMedication(i, f, v)`: field `f` of entry `i`, nothing else; no change when `i` is out of range. */
  function UpdatedAt(meds: seq<Medication>, i: int, f: MedField, v: string): (r: seq<Medication>)
    ensures |r| == |meds|
    ensures forall j :: 0 <= j < |meds| && j != i ==> r[j] == meds[j]
    ensures 0 <= i < |meds| ==> Get(r[i], f) == v && forall g :: g != f ==> Get(r[i], g) == Get(meds[i], g)
  {
    seq(|meds|, j requires 0 <= j < |meds| => if j == i then WithField(meds[j], f, v) else meds[j])
  }

  /** A medication counts when its trimmed name, dosage and frequency are all non-empty. */
  function IsComplete(m: Medication): bool {
    Trim(m.name) != "" && Trim(m.dosage) != "" && Trim(m.frequency) != ""
  }

  /** An entry is complete exactly when none of the three required fields is blank. */
  lemma CompleteIffNotBlank(m: Medication)
    ensures IsComplete(m) <==> !IsBlank(m.name) && !IsBlank(m.dosage) && !IsBlank(m.frequency)
  {
    TrimEmptyIffBlank(m.name);
    TrimEmptyIffBlank(m.dosage);
    TrimEmptyIffBlank(m.frequency);
  }

  function ValidMedications(meds: seq<Medication>): seq<Medication> {
    Filter(meds, IsComplete)
  }

  /**
   * The valid medications are the complete entries, in their order, and only
   * those; an entry repeated in the list is submitted as many times.
   */
  lemma ValidMedicationsExact(meds: seq<Medication>)
    ensures forall m :: m in ValidMedications(meds) <==> m in meds && IsComplete(m)
    ensures forall m :: multiset(ValidMedications(meds))[m] == if IsComplete(m) then multiset(meds)[m] else 0
    ensures SubsequenceOf(ValidMedications(meds), meds)
  {
    forall m ensures multiset(ValidMedications(meds))[m] == if IsComplete(m) then multiset(meds)[m] else 0 {
      FilterCount(meds, IsComplete, m);
    }
    forall m ensures m in ValidMedications(meds) <==> m in meds && IsComplete(m) {
      FilterMembers(meds, IsComplete, m);
    }
    FilterIsSubsequence(meds, IsComplete);
  }

  /** A list of complete entries is submitted as it is. */
  lemma AllCompleteSubmittedWhole(meds: seq<Medication>)
    requires forall i :: 0 <= i < |meds| ==> IsComplete(meds[i])
    ensures ValidMedications(meds) == meds
  {
    FilterKeepsAll(meds, IsComplete);
  }

  /** A blank entry never counts, so adding one does not change what is submitted. */
  lemma AppendedBlankIsIgnored(meds: seq<Medication>)
    ensures ValidMedications(Appended(meds)) == ValidMedications(meds)
  {
    var e := EmptyMedication();
    assert Trim(e.name) == "";
    FilterAppend(meds, [e], IsComplete);
    assert Filter([e], IsComplete) == [];
    assert ValidMedications(meds) + [] == ValidMedications(meds);
  }

  /** The non-medication inputs of the form. */
  datatype Details = Details(diagnosis: string, instructions: string, followUpDate: string, doctorLicenseNumber: string)

  function InitialDetails(): Details {
    Details("", "", "", "MED-2024-001")
  }

  /** The component's props: the consultation the prescription is for. */
  datatype Props = Props(consultationId: string, patientName: string, patientAge: Option<int>, doctorId: string,
                         doctorName: string)

  datatype Rejection = NoMedication | NoDiagnosis

  /** The two checks, in the order the submit handler makes them. */
  function Validate(meds: seq<Medication>, details: Details): (r: Option<Rejection>)
    ensures r == Some(NoMedication) <==> |ValidMedications(meds)| == 0
    ensures r == Some(NoDiagnosis) <==> |ValidMedications(meds)| > 0 && Trim(details.diagnosis) == ""
    ensures r.None? <==> |ValidMedications(meds)| > 0 && Trim(details.diagnosis) != ""
  {
    if |ValidMedications(meds)| == 0 then Some(NoMedication)
    else if Trim(details.diagnosis) == "" then Some(NoDiagnosis)
    else None
  }

  /** The inserted object: only the valid medications, and a null follow-up date when none was entered. */
  function BuildPrescription(props: Props, details: Details, meds: seq<Medication>): (r: PrescriptionInsert)
    ensures r.medications == ValidMedications(meds)
    ensures r.followUpDate.None? <==> details.followUpDate == ""
    ensures r.consultationId == props.consultationId
  {
    PrescriptionInsert(props.consultationId, props.patientName, props.patientAge, props.doctorId, props.doctorName,
                       Some(details.doctorLicenseNumber), details.diagnosis, ValidMedications(meds),
                       details.instructions, if details.followUpDate == "" then None else Some(details.followUpDate))
  }

  /** The back-reference update: only `prescription_id`. */
  function BackReferencePatch(prescriptionId: string): ConsultationPatch {
    ConsultationPatch(None, None, None, Some(prescriptionId))
  }

  /**
   * Once the back-reference is stored the completed consultation offers only
   * "View Prescription"; if that write failed the row still offers "Create
   * Prescription", although a prescription for it exists.
   */
  lemma BackReferenceSwitchesButton(c: Consultation, prescriptionId: string)
    requires c.status == Completed && c.prescriptionId.None? && prescriptionId != ""
    ensures ConsultationDashboard.OfferedActions(Patched(c, BackReferencePatch(prescriptionId)))
            == {ConsultationDashboard.ViewPrescription}
    ensures ConsultationDashboard.OfferedActions(c) == {ConsultationDashboard.CreatePrescription}
  {
  }

  /**
   * The two writes of a submit: insert the prescription and, only if that
   * succeeded, store its id on the consultation without looking at the outcome.
   */
  method WritePrescription(db: Database, payload: PrescriptionInsert, newId: string, now: int, insertFails: bool,
                           backReferenceFails: bool) returns (created: Option<string>)
    requires db.Valid()
    modifies db`prescriptions, db`consultations
    ensures db.Valid()
    ensures created.Some? <==> !insertFails && newId !in Ids(old(db.prescriptions), PrescriptionKey)
    ensures created.Some? ==>
      created.value == newId
      && db.prescriptions == old(db.prescriptions) + [NewPrescriptionRow(payload, newId, now)]
      && db.consultations == if backReferenceFails then old(db.consultations)
                             else UpdateWhereId(old(db.consultations), payload.consultationId, BackReferencePatch(newId))
    ensures created.None? ==> db.prescriptions == old(db.prescriptions) && db.consultations == old(db.consultations)
  {
    var row := db.InsertPrescription(payload, newId, now, insertFails);
    if row.None? {
      return None;
    }
    var _ := db.UpdateConsultation(payload.consultationId, BackReferencePatch(row.value.id), backReferenceFails);
    created := Some(row.value.id);
  }

  datatype SubmitResult = Rejected(reason: Rejection) | Failed | Created(prescriptionId: string)

  class PrescriptionEditor {
    var isSubmitting: bool
    var details: Details
    var medications: seq<Medication>

    /** The list is never empty. */
    ghost predicate Valid()
      reads this
    {
      |medications| >= 1
    }

    constructor ()
      ensures Valid()
      ensures !isSubmitting && details == InitialDetails() && medications == [EmptyMedication()]
    {
      isSubmitting := false;
      details := InitialDetails();
      medications := [EmptyMedication()];
    }

    method AddMedication()
      requires Valid()
      modifies this`medications
      ensures Valid()
      ensures medications == Appended(old(medications))
    {
      medications := medications + [EmptyMedication()];
    }

    method RemoveMedication(i: int)
      requires Valid()
      modifies this`medications
      ensures Valid()
      ensures medications == RemovedAt(old(medications), i)
    {
      if |medications| > 1 && 0 <= i < |medications| {
        medications := medications[..i] + medications[i + 1..];
      }
    }

    method UpdateMedication(i: int, f: MedField, v: string)
      requires Valid()
      modifies this`medications
      ensures Valid()
      ensures medications == UpdatedAt(old(medications), i, f, v)
    {
      medications := UpdatedAt(medications, i, f, v);
    }

    method SetDiagnosis(v: string)
      modifies this`details
      ensures details == old(details).(diagnosis := v)
    {
      details := details.(diagnosis := v);
    }

    method SetInstructions(v: string)
      modifies this`details
      ensures details == old(details).(instructions := v)
    {
      details := details.(instructions := v);
    }

    method SetFollowUpDate(v: string)
      modifies this`details
      ensures details == old(details).(followUpDate := v)
    {
      details := details.(followUpDate := v);
    }

    /**
     * `handleSubmit`: a rejection writes nothing; otherwise the prescription is
     * inserted and, only if that succeeded, the consultation's
     * `prescription_id` is set, whose outcome is not looked at. The new id is
     * reported whenever the insert succeeded.
     */
    method HandleSubmit(db: Database, props: Props, newId: string, now: int, insertFails: bool, backReferenceFails: bool)
      returns (result: SubmitResult)
      requires db.Valid()
      modifies this`isSubmitting, db`prescriptions, db`consultations
      ensures db.Valid() && !isSubmitting
      ensures var rejection := Validate(medications, details);
        rejection.Some? ==> result == Rejected(rejection.value)
      ensures result.Created? <==>
        Validate(medications, details).None? && !insertFails && newId !in Ids(old(db.prescriptions), PrescriptionKey)
      ensures result.Created? ==>
        result.prescriptionId == newId
        && db.prescriptions == old(db.prescriptions) + [NewPrescriptionRow(BuildPrescription(props, details, medications), newId, now)]
        && db.consultations == if backReferenceFails then old(db.consultations)
                               else UpdateWhereId(old(db.consultations), props.consultationId, BackReferencePatch(newId))
      ensures !result.Created? ==> db.prescriptions == old(db.prescriptions) && db.consultations == old(db.consultations)
    {
      isSubmitting := true;
      var rejection := Validate(medications, details);
      if rejection.Some? {
        isSubmitting := false;
        return Rejected(rejection.value);
      }
      var created := WritePrescription(db, BuildPrescription(props, details, medications), newId, now, insertFails,
                                       backReferenceFails);
      if created.None? {
        isSubmitting := false;
        return Failed;
      }
      result := Created(created.value);
      isSubmitting := false;
    }
  }
}
