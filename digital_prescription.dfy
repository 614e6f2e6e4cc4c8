/**
 * The prescription viewer: it loads one prescription by id, shows a
 * Dispensed/Pending badge, and offers "Mark as Dispensed" while the
 * prescription is not dispensed; marking writes the flag, the time and the
 * dispenser to the store and flips only the flag of the local copy.
 */
module DigitalPrescription {
  import opened Wrappers
  import opened Records
  import opened Query
  import opened Database

  const Dispenser: string := "Pharmacy Staff"

  datatype Badge = DispensedBadge | PendingBadge

  function BadgeFor(p: Prescription): Badge {
    if p.isDispensed then DispensedBadge else PendingBadge
  }

  function MarkButtonShown(p: Prescription): bool {
    !p.isDispensed
  }

  /** The badge reads Dispensed exactly when the flag is set, and the button shows exactly while it reads Pending. */
  lemma BadgeAndButton(p: Prescription)
    ensures BadgeFor(p) == DispensedBadge <==> p.isDispensed
    ensures MarkButtonShown(p) <==> BadgeFor(p) == PendingBadge
  {
  }

  /** Every prescription of `ps`, dispensed. */
  function DispensedAll(ps: seq<Prescription>, at: int, dispenser: string): (r: seq<Prescription>)
    ensures |r| == |ps| && forall i :: 0 <= i < |ps| ==> r[i] == Dispensed(ps[i], at, dispenser)
  {
    if ps == [] then [] else [Dispensed(ps[0], at, dispenser)] + DispensedAll(ps[1..], at, dispenser)
  }

  /** Selecting by id after the dispensing update finds the rows found before, dispensed. */
  lemma SelectAfterDispense(rows: seq<Prescription>, id: string, at: int, dispenser: string)
    ensures Filter(DispenseWhereId(rows, id, at, dispenser), HasId(PrescriptionKey, id))
            == DispensedAll(Filter(rows, HasId(PrescriptionKey, id)), at, dispenser)
  {
    SelectAfterDispenseBy(rows, id, at, dispenser, HasId(PrescriptionKey, id));
  }

  /** The same, for any predicate that tests the id; the induction runs here. */
  lemma {:induction false} SelectAfterDispenseBy(rows: seq<Prescription>, id: string, at: int, dispenser: string,
                                                 p: Prescription -> bool)
    requires forall x :: p(x) <==> x.id == id
    ensures Filter(DispenseWhereId(rows, id, at, dispenser), p) == DispensedAll(Filter(rows, p), at, dispenser)
  {
    if rows != [] {
      var t := rows[1..];
      var first := if rows[0].id == id then Dispensed(rows[0], at, dispenser) else rows[0];
      var tail := DispenseWhereId(t, id, at, dispenser);
      assert DispenseWhereId(rows, id, at, dispenser) == [first] + tail;
      assert rows == [rows[0]] + t;
      SelectAfterDispenseBy(t, id, at, dispenser, p);
      FilterCons(first, tail, p);
      FilterCons(rows[0], t, p);
      if p(rows[0]) {
        var rest := Filter(t, p);
        assert ([rows[0]] + rest)[1..] == rest;
      }
    }
  }

  /**
   * After a successful dispensing write, loading the prescription again shows
   * it dispensed, by "Pharmacy Staff" at the time written, and without the
   * button; every other prescription row is untouched.
   */
  lemma ReloadAfterDispense(rows: seq<Prescription>, id: string, at: int, p: Prescription)
    requires Single(Filter(rows, HasId(PrescriptionKey, id))) == Some(p)
    ensures Single(Filter(DispenseWhereId(rows, id, at, Dispenser), HasId(PrescriptionKey, id)))
            == Some(Dispensed(p, at, Dispenser))
    ensures BadgeFor(Dispensed(p, at, Dispenser)) == DispensedBadge && !MarkButtonShown(Dispensed(p, at, Dispenser))
    ensures forall i :: 0 <= i < |rows| && rows[i].id != id ==> DispenseWhereId(rows, id, at, Dispenser)[i] == rows[i]
  {
    SelectAfterDispense(rows, id, at, Dispenser);
  }

  class PrescriptionViewer {
    const prescriptionId: string
    var prescription: Option<Prescription>
    var isLoading: bool

    constructor (prescriptionId: string)
      ensures this.prescriptionId == prescriptionId && prescription == None && isLoading
    {
      this.prescriptionId := prescriptionId;
      prescription := None;
      isLoading := true;
    }

    /** `fetchPrescription`: the single row with the id; an error (none, several, or a failed query) keeps the copy. */
    method FetchPrescription(db: Database, fails: bool)
      modifies this`prescription, this`isLoading
      ensures prescription == if fails || db.SinglePrescription(prescriptionId).None? then old(prescription)
                              else db.SinglePrescription(prescriptionId)
      ensures !isLoading
    {
      var found := db.SinglePrescription(prescriptionId);
      if !fails && found.Some? {
        prescription := found;
      }
      isLoading := false;
    }

    /**
     * `markAsDispensed`: the three dispensing columns are written on the row
     * with this id only; on success the local copy gains the flag and keeps its
     * old timestamp and dispenser; on error nothing changes.
     */
    method MarkAsDispensed(db: Database, now: int, fails: bool) returns (ok: bool)
      requires db.Valid()
      modifies db`prescriptions, this`prescription
      ensures db.Valid()
      ensures ok == !fails
      ensures db.prescriptions == if ok then DispenseWhereId(old(db.prescriptions), prescriptionId, now, Dispenser)
                                  else old(db.prescriptions)
      ensures prescription == if ok && old(prescription).Some? then Some(old(prescription).value.(isDispensed := true))
                              else old(prescription)
    {
      ok := db.DispensePrescription(prescriptionId, now, Dispenser, fails);
      if ok && prescription.Some? {
        prescription := Some(prescription.value.(isDispensed := true));
      }
    }
  }
}
