/**
 * The hosted backend, reduced to what the core does with it: tables of rows,
 * `insert`, `update ... where id = x`, `select ... order by` and `.single()`.
 * Every write may fail (a transport or database error), which the caller
 * decides through a `fails` argument; an insert whose id is already taken
 * fails as a primary-key violation would.
 */
module Database {
  import opened Wrappers
  import opened Records
  import opened Query

  /** The columns one `update` on `consultations` sets; `None` leaves a column as it is. */
  datatype ConsultationPatch = ConsultationPatch(
    status: Option<Status>,
    videoRoomId: Option<string>,
    videoCallLink: Option<string>,
    prescriptionId: Option<string>)

  /** A consultation with the patch's columns overwritten. */
  function Patched(c: Consultation, p: ConsultationPatch): (r: Consultation)
    ensures p.status.Some? ==> r.status == p.status.value
    ensures p.videoRoomId.Some? ==> r.videoRoomId == p.videoRoomId
    ensures p.videoCallLink.Some? ==> r.videoCallLink == p.videoCallLink
    ensures p.prescriptionId.Some? ==> r.prescriptionId == p.prescriptionId
    ensures r.(status := c.status, videoRoomId := c.videoRoomId, videoCallLink := c.videoCallLink,
               prescriptionId := c.prescriptionId) == c
  {
    c.(status := p.status.GetOr(c.status),
       videoRoomId := if p.videoRoomId.Some? then p.videoRoomId else c.videoRoomId,
       videoCallLink := if p.videoCallLink.Some? then p.videoCallLink else c.videoCallLink,
       prescriptionId := if p.prescriptionId.Some? then p.prescriptionId else c.prescriptionId)
  }

  /** Applying the same update twice leaves the row as the first application did. */
  lemma PatchIdempotent(c: Consultation, p: ConsultationPatch)
    ensures Patched(Patched(c, p), p) == Patched(c, p)
  {
  }

  /** `update consultations set <p> where id = <id>`: the matching rows are patched, the others untouched. */
  function UpdateWhereId(rows: seq<Consultation>, id: string, p: ConsultationPatch): (r: seq<Consultation>)
    ensures |r| == |rows|
    ensures forall i :: 0 <= i < |rows| && rows[i].id != id ==> r[i] == rows[i]
    ensures forall i :: 0 <= i < |rows| && rows[i].id == id ==> r[i] == Patched(rows[i], p)
  {
    if rows == [] then []
    else [if rows[0].id == id then Patched(rows[0], p) else rows[0]] + UpdateWhereId(rows[1..], id, p)
  }

  /** Running the same update twice has the effect of running it once. */
  lemma UpdateIdempotent(rows: seq<Consultation>, id: string, p: ConsultationPatch)
    ensures UpdateWhereId(UpdateWhereId(rows, id, p), id, p) == UpdateWhereId(rows, id, p)
  {
    var once := UpdateWhereId(rows, id, p);
    forall i | 0 <= i < |rows| && rows[i].id == id
      ensures UpdateWhereId(once, id, p)[i] == once[i]
    {
      PatchIdempotent(rows[i], p);
    }
  }

  /** The primary-key column of each table. */
  function ConsultationKey(c: Consultation): string {
    c.id
  }

  function PrescriptionKey(p: Prescription): string {
    p.id
  }

  function DoctorKey(d: Doctor): string {
    d.id
  }

  /** The keys present in a table. */
  function Ids<T(==)>(rows: seq<T>, key: T -> string): set<string> {
    set x | x in rows :: key(x)
  }

  /** No two rows of a table share a key. */
  ghost predicate UniqueIds<T>(rows: seq<T>, key: T -> string) {
    forall i, j :: 0 <= i < j < |rows| ==> key(rows[i]) != key(rows[j])
  }

  /** The `.eq('id', id)` condition on a table. */
  function HasId<T>(key: T -> string, id: string): T -> bool {
    (x: T) => key(x) == id
  }

  /** The row the backend stores for an insert: the payload plus the generated id and timestamp, the other columns null. */
  function NewConsultationRow(payload: ConsultationInsert, id: string, now: int): Consultation {
    Consultation(id, payload.patientName, payload.patientAge, payload.patientContact, payload.patientSymptoms,
                 payload.patientVitals, payload.consultationType, payload.status, payload.scheduledTime,
                 payload.doctorId, payload.doctorName, payload.doctorSpecialization, payload.staffName,
                 None, None, None, now)
  }

  /** The sort key of `order('created_at', { ascending: false })`. */
  function NewestFirstKey(c: Consultation): int {
    -c.createdAt
  }

  /** `select * from consultations order by created_at desc`: every row once, newest first. */
  function NewestFirst(rows: seq<Consultation>): (r: seq<Consultation>)
    ensures multiset(r) == multiset(rows)
    ensures forall i, j :: 0 <= i < j < |r| ==> r[i].createdAt >= r[j].createdAt
  {
    var r := OrderBy(rows, NewestFirstKey);
    assert forall i, j :: 0 <= i < j < |r| ==> NewestFirstKey(r[i]) <= NewestFirstKey(r[j]);
    r
  }

  /** The row stored for a prescription insert: not dispensed, no dispensing details. */
  function NewPrescriptionRow(payload: PrescriptionInsert, id: string, now: int): Prescription {
    Prescription(id, payload.consultationId, payload.patientName, payload.patientAge, payload.doctorId,
                 payload.doctorName, payload.doctorLicenseNumber, payload.diagnosis, payload.medications,
                 payload.instructions, payload.followUpDate, false, None, None, now)
  }

  /** A prescription after `update set is_dispensed = true, dispensed_at, dispensed_by`. */
  function Dispensed(p: Prescription, at: int, dispenser: string): (r: Prescription)
    ensures r.isDispensed && r.dispensedAt == Some(at) && r.dispensedBy == Some(dispenser)
    ensures r.(isDispensed := p.isDispensed, dispensedAt := p.dispensedAt, dispensedBy := p.dispensedBy) == p
  {
    p.(isDispensed := true, dispensedAt := Some(at), dispensedBy := Some(dispenser))
  }

  /** The dispensing update applied to the prescription rows whose id matches. */
  function DispenseWhereId(rows: seq<Prescription>, id: string, at: int, dispenser: string): (r: seq<Prescription>)
    ensures |r| == |rows|
    ensures forall i :: 0 <= i < |rows| && rows[i].id != id ==> r[i] == rows[i]
    ensures forall i :: 0 <= i < |rows| && rows[i].id == id ==> r[i] == Dispensed(rows[i], at, dispenser)
  {
    if rows == [] then []
    else [if rows[0].id == id then Dispensed(rows[0], at, dispenser) else rows[0]] + DispenseWhereId(rows[1..], id, at, dispenser)
  }

  /**
   * `.single()`: the one row of `matches`, or an error (None) when there is
   * none or more than one.
   */
  function Single<T>(matches: seq<T>): (r: Option<T>)
    ensures r.Some? <==> |matches| == 1
    ensures r.Some? ==> r.value == matches[0]
  {
    if |matches| == 1 then Some(matches[0]) else None
  }

  function IsAvailable(d: Doctor): bool {
    d.isAvailable
  }

  function ResponseTime(d: Doctor): int {
    d.responseTimeMinutes
  }

  class Database {
    var consultations: seq<Consultation>
    var prescriptions: seq<Prescription>
    var statusLogs: seq<StatusLogEntry>
    var doctors: seq<Doctor>

    /** Primary keys: no two rows of a table share an id. */
    ghost predicate Valid()
      reads this
    {
      UniqueIds(consultations, ConsultationKey)
      && UniqueIds(prescriptions, PrescriptionKey)
      && UniqueIds(doctors, DoctorKey)
    }

    /** A backend holding the given doctors and no consultation, prescription or log yet. */
    constructor (doctors: seq<Doctor>)
      requires UniqueIds(doctors, DoctorKey)
      ensures Valid()
      ensures this.doctors == doctors
      ensures consultations == [] && prescriptions == [] && statusLogs == []
    {
      this.doctors := doctors;
      consultations := [];
      prescriptions := [];
      statusLogs := [];
    }

    /** `select * from consultations order by created_at desc`. */
    function ConsultationsNewestFirst(): seq<Consultation>
      reads this
    {
      NewestFirst(consultations)
    }

    /** `select * from doctors where is_available order by response_time_minutes`. */
    function AvailableDoctors(): (r: seq<Doctor>)
      reads this
      ensures forall d :: d in r <==> d in doctors && d.isAvailable
      ensures forall d :: multiset(r)[d] == if d.isAvailable then multiset(doctors)[d] else 0
      ensures forall i, j :: 0 <= i < j < |r| ==> r[i].responseTimeMinutes <= r[j].responseTimeMinutes
    {
      var available := Filter(doctors, IsAvailable);
      var r := OrderBy(available, ResponseTime);
      forall d ensures multiset(r)[d] == if d.isAvailable then multiset(doctors)[d] else 0 {
        FilterCount(doctors, IsAvailable, d);
      }
      forall d ensures d in r <==> d in doctors && d.isAvailable {
        FilterMembers(doctors, IsAvailable, d);
        assert d in r <==> d in multiset(r);
      }
      assert forall i, j :: 0 <= i < j < |r| ==> ResponseTime(r[i]) <= ResponseTime(r[j]);
      r
    }

    /** `select * from doctors where id = <id>` followed by `.single()`. */
    function SingleDoctor(id: string): Option<Doctor>
      reads this
    {
      Single(Filter(doctors, HasId(DoctorKey, id)))
    }

    /** `select * from prescriptions where id = <id>` followed by `.single()`. */
    function SinglePrescription(id: string): Option<Prescription>
      reads this
    {
      Single(Filter(prescriptions, HasId(PrescriptionKey, id)))
    }

    /** `insert into consultations` returning the new row; fails on a write error or a taken id. */
    method InsertConsultation(payload: ConsultationInsert, newId: string, now: int, fails: bool)
      returns (row: Option<Consultation>)
      requires Valid()
      modifies this`consultations
      ensures Valid()
      ensures row.Some? <==> !fails && newId !in Ids(old(consultations), ConsultationKey)
      ensures row.Some? ==> row.value == NewConsultationRow(payload, newId, now)
      ensures consultations == if row.Some? then old(consultations) + [row.value] else old(consultations)
    {
      if fails || newId in Ids(consultations, ConsultationKey) {
        row := None;
      } else {
        var r := NewConsultationRow(payload, newId, now);
        assert forall i :: 0 <= i < |consultations| ==> consultations[i].id != newId by {
          forall i | 0 <= i < |consultations| ensures consultations[i].id != newId {
            assert consultations[i] in consultations;
          }
        }
        consultations := consultations + [r];
        row := Some(r);
      }
    }

    /** `update consultations set <patch> where id = <id>`. */
    method UpdateConsultation(id: string, patch: ConsultationPatch, fails: bool) returns (ok: bool)
      requires Valid()
      modifies this`consultations
      ensures Valid()
      ensures ok == !fails
      ensures consultations == if ok then UpdateWhereId(old(consultations), id, patch) else old(consultations)
    {
      ok := !fails;
      if ok {
        consultations := UpdateWhereId(consultations, id, patch);
      }
    }

    /** `insert into prescriptions` returning the new row; fails on a write error or a taken id. */
    method InsertPrescription(payload: PrescriptionInsert, newId: string, now: int, fails: bool)
      returns (row: Option<Prescription>)
      requires Valid()
      modifies this`prescriptions
      ensures Valid()
      ensures row.Some? <==> !fails && newId !in Ids(old(prescriptions), PrescriptionKey)
      ensures row.Some? ==> row.value == NewPrescriptionRow(payload, newId, now)
      ensures prescriptions == if row.Some? then old(prescriptions) + [row.value] else old(prescriptions)
    {
      if fails || newId in Ids(prescriptions, PrescriptionKey) {
        row := None;
      } else {
        var r := NewPrescriptionRow(payload, newId, now);
        assert forall i :: 0 <= i < |prescriptions| ==> prescriptions[i].id != newId by {
          forall i | 0 <= i < |prescriptions| ensures prescriptions[i].id != newId {
            assert prescriptions[i] in prescriptions;
          }
        }
        prescriptions := prescriptions + [r];
        row := Some(r);
      }
    }

    /** `update prescriptions set is_dispensed = true, dispensed_at = <at>, dispensed_by = <dispenser> where id = <id>`. */
    method DispensePrescription(id: string, at: int, dispenser: string, fails: bool) returns (ok: bool)
      requires Valid()
      modifies this`prescriptions
      ensures Valid()
      ensures ok == !fails
      ensures prescriptions == if ok then DispenseWhereId(old(prescriptions), id, at, dispenser) else old(prescriptions)
    {
      ok := !fails;
      if ok {
        prescriptions := DispenseWhereId(prescriptions, id, at, dispenser);
      }
    }

    /** `insert into consultation_status_logs`. */
    method InsertStatusLog(entry: StatusLogEntry, fails: bool) returns (ok: bool)
      modifies this`statusLogs
      ensures ok == !fails
      ensures statusLogs == if ok then old(statusLogs) + [entry] else old(statusLogs)
    {
      ok := !fails;
      if ok {
        statusLogs := statusLogs + [entry];
      }
    }
  }
}
