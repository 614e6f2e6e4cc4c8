/**
 * The `notify-doctor` edge function: look the doctor up, store the video room
 * and link on the consultation, compose the message, log the notification and
 * answer with the link. Only a failed doctor lookup aborts; a failed
 * consultation update or log insert is reported on the console and ignored.
 */
module NotifyDoctor {
  import opened Wrappers
  import opened Records
  import opened Query
  import opened Text
  import opened Database
  import opened VideoRoom
  import ConsultationDashboard

  /** The decoded request body. */
  datatype NotificationRequest = NotificationRequest(
    consultationId: string,
    doctorId: string,
    patientName: string,
    symptoms: string,
    consultationType: string,
    scheduledTime: Option<string>)

  /** The JSON answer: `{ success, message, videoCallLink, roomId }`, or `{ error }` with status 500. */
  datatype Response =
    | Success(message: string, videoCallLink: string, roomId: string)
    | Failure(error: string)
  {
    function StatusCode(): int {
      if Success? then 200 else 500
    }
  }

  /** Which of the handler's three backend calls fail. */
  datatype Faults = Faults(lookupFails: bool, updateFails: bool, logFails: bool)

  const EmergencyText: string := "\U{1F6A8} EMERGENCY"
  const ScheduledText: string := "\U{1F4C5} SCHEDULED"
  const SuccessMessage: string := "Doctor notification sent successfully"
  const DoctorNotFound: string := "Doctor not found"

  /** The headline: the emergency variant exactly for emergency requests. */
  function UrgencyText(consultationType: string): (r: string)
    ensures r == EmergencyText <==> consultationType == "emergency"
    ensures r == ScheduledText <==> consultationType != "emergency"
  {
    if consultationType == "emergency" then EmergencyText else ScheduledText
  }

  /**
   * "ASAP" when no scheduled time was sent (absent or the empty string),
   * otherwise "at " and the time as the runtime's locale renders it.
   */
  function TimeText(scheduledTime: Option<string>, localTime: string): (r: string)
    ensures r == "ASAP" <==> scheduledTime.None? || scheduledTime.value == ""
  {
    if scheduledTime.Some? && scheduledTime.value != "" then
      var t := "at " + localTime;
      assert t[1] != "ASAP"[1];
      t
    else "ASAP"
  }

  /** The text sent by SMS and WhatsApp. */
  function Message(req: NotificationRequest, link: string, timeText: string): string {
    UrgencyText(req.consultationType) + " CONSULTATION REQUEST\n    \nPatient: " + req.patientName
    + "\nSymptoms: " + req.symptoms + "\nTime: " + timeText
    + "\n\nSecure Video Call Link: " + link
    + "\n\nPlease join the call to connect with the patient.\n\nRural Health Portal"
  }

  /** The message names the patient, the time and the call link. */
  lemma MessageCarriesDetails(req: NotificationRequest, link: string, timeText: string)
    ensures Contains(Message(req, link, timeText), req.patientName)
    ensures Contains(Message(req, link, timeText), timeText)
    ensures Contains(Message(req, link, timeText), link)
  {
    var head := UrgencyText(req.consultationType) + " CONSULTATION REQUEST\n    \nPatient: ";
    var tail := "\n\nPlease join the call to connect with the patient.\n\nRural Health Portal";
    var m := Message(req, link, timeText);
    var beforeTime := head + req.patientName + "\nSymptoms: " + req.symptoms + "\nTime: ";
    var beforeLink := beforeTime + timeText + "\n\nSecure Video Call Link: ";
    assert m == head + req.patientName + (m[|head| + |req.patientName|..]);
    ContainsPiece(head, req.patientName, m[|head| + |req.patientName|..]);
    assert m == beforeTime + timeText + (m[|beforeTime| + |timeText|..]);
    ContainsPiece(beforeTime, timeText, m[|beforeTime| + |timeText|..]);
    assert m == beforeLink + link + tail;
    ContainsPiece(beforeLink, link, tail);
  }

  /** The update the handler sends: the room and the link, not the status. */
  function NotifyPatch(consultationId: string): ConsultationPatch {
    ConsultationPatch(None, Some(RoomId(consultationId)), Some(CallLink(RoomId(consultationId))), None)
  }

  /** The single audit row of a notification. */
  function LogEntry(req: NotificationRequest, doctor: Doctor): StatusLogEntry {
    StatusLogEntry(req.consultationId, None, "notification_sent", "system",
                   "Notification sent to Dr. " + doctor.name + " via phone: " + doctor.contactPhone
                   + ", email: " + doctor.contactEmail)
  }

  /** `select * from doctors where id = doctorId` and `.single()`; a failed query finds nothing. */
  function LookupDoctor(doctors: seq<Doctor>, req: NotificationRequest, faults: Faults): (r: Option<Doctor>)
    ensures r.Some? ==> r.value in doctors && r.value.id == req.doctorId
  {
    if faults.lookupFails then None
    else
      var matches := Filter(doctors, HasId(DoctorKey, req.doctorId));
      assert |matches| == 1 ==> matches[0] in doctors && matches[0].id == req.doctorId by {
        if |matches| == 1 {
          assert matches[0] in matches;
          FilterMembers(doctors, HasId(DoctorKey, req.doctorId), matches[0]);
          assert DoctorKey(matches[0]) == req.doctorId;
        }
      }
      Single(matches)
  }

  /** The answer the handler gives. */
  function ResponseFor(doctors: seq<Doctor>, req: NotificationRequest, faults: Faults): Response {
    if LookupDoctor(doctors, req, faults).None? then Failure(DoctorNotFound)
    else Success(SuccessMessage, CallLink(RoomId(req.consultationId)), RoomId(req.consultationId))
  }

  /** The consultations table after the handler. */
  function ConsultationsAfter(rows: seq<Consultation>, doctors: seq<Doctor>, req: NotificationRequest, faults: Faults)
    : seq<Consultation>
  {
    if LookupDoctor(doctors, req, faults).None? || faults.updateFails then rows
    else UpdateWhereId(rows, req.consultationId, NotifyPatch(req.consultationId))
  }

  /** The status log after the handler. */
  function LogsAfter(logs: seq<StatusLogEntry>, doctors: seq<Doctor>, req: NotificationRequest, faults: Faults)
    : seq<StatusLogEntry>
  {
    match LookupDoctor(doctors, req, faults)
    case None => logs
    case Some(doctor) => if faults.logFails then logs else logs + [LogEntry(req, doctor)]
  }

  /** A doctor that cannot be found aborts with status 500 before any write. */
  lemma MissingDoctorAborts(rows: seq<Consultation>, logs: seq<StatusLogEntry>, doctors: seq<Doctor>,
                            req: NotificationRequest, faults: Faults)
    requires faults.lookupFails || forall d :: d in doctors ==> d.id != req.doctorId
    ensures ResponseFor(doctors, req, faults) == Failure(DoctorNotFound)
    ensures ResponseFor(doctors, req, faults).StatusCode() == 500
    ensures ConsultationsAfter(rows, doctors, req, faults) == rows
    ensures LogsAfter(logs, doctors, req, faults) == logs
  {
  }

  /**
   * Once the doctor is found the answer is a success whatever happens to the two
   * writes; the answer carries the room and link derived from the id, which are
   * the values the update writes, and at most one log row is added, with the
   * fixed fields of a notification.
   */
  lemma FoundDoctorSucceeds(rows: seq<Consultation>, logs: seq<StatusLogEntry>, doctors: seq<Doctor>,
                            req: NotificationRequest, faults: Faults)
    requires !faults.lookupFails && UniqueIds(doctors, DoctorKey)
    requires exists d :: d in doctors && d.id == req.doctorId
    ensures var resp := ResponseFor(doctors, req, faults);
      resp.Success? && resp.StatusCode() == 200
      && resp.roomId == RoomId(req.consultationId) && resp.videoCallLink == CallLink(resp.roomId)
    ensures |LogsAfter(logs, doctors, req, faults)| == |logs| + (if faults.logFails then 0 else 1)
    ensures LogsAfter(logs, doctors, req, faults)[..|logs|] == logs
    ensures !faults.logFails ==>
      var e := LogsAfter(logs, doctors, req, faults)[|logs|];
      e.consultationId == req.consultationId && e.oldStatus == None
      && e.newStatus == "notification_sent" && e.changedBy == "system"
    ensures !faults.updateFails ==> forall i :: 0 <= i < |rows| && rows[i].id == req.consultationId ==>
      var c := ConsultationsAfter(rows, doctors, req, faults)[i];
      c.videoRoomId == Some(ResponseFor(doctors, req, faults).roomId)
      && c.videoCallLink == Some(ResponseFor(doctors, req, faults).videoCallLink)
      && c.status == rows[i].status
  {
    var d :| d in doctors && d.id == req.doctorId;
    var p := HasId(DoctorKey, req.doctorId);
    FilterMembers(doctors, p, d);
    var matches := Filter(doctors, p);
    SingleMatch(doctors, p, req.doctorId);
  }

  /** With unique ids, at most one row matches an id. */
  lemma {:induction false} SingleMatch(doctors: seq<Doctor>, p: Doctor -> bool, id: string)
    requires UniqueIds(doctors, DoctorKey)
    requires forall x :: p(x) <==> x.id == id
    ensures |Filter(doctors, p)| <= 1
  {
    if doctors != [] {
      var t := doctors[1..];
      SingleMatch(t, p, id);
      if p(doctors[0]) {
        forall i | 0 <= i < |t| ensures !p(t[i]) {
          assert t[i] == doctors[i + 1];
        }
        FilterDropsAll(t, p);
      }
    }
  }

  /**
   * The dashboard's "start call" and this handler write the same room and link,
   * so whichever runs last, the row ends with the values derived from its id.
   */
  lemma WritersAgreeOnRoom(c: Consultation)
    ensures var a := Patched(Patched(c, NotifyPatch(c.id)), ConsultationDashboard.GoLivePatch(c.id));
            var b := Patched(Patched(c, ConsultationDashboard.GoLivePatch(c.id)), NotifyPatch(c.id));
      a.videoRoomId == b.videoRoomId == Some(RoomId(c.id))
      && a.videoCallLink == b.videoCallLink == Some(CallLink(RoomId(c.id)))
  {
  }

  /** The handler, step by step: lookup, update, message, log, answer. */
  method Handle(db: Database, req: NotificationRequest, faults: Faults) returns (resp: Response)
    requires db.Valid()
    modifies db`consultations, db`statusLogs
    ensures db.Valid()
    ensures resp == ResponseFor(db.doctors, req, faults)
    ensures db.consultations == ConsultationsAfter(old(db.consultations), db.doctors, req, faults)
    ensures db.statusLogs == LogsAfter(old(db.statusLogs), db.doctors, req, faults)
  {
    var doctor := LookupDoctor(db.doctors, req, faults);
    if doctor.None? {
      return Failure(DoctorNotFound);
    }
    var roomId := RoomId(req.consultationId);
    var videoCallLink := CallLink(roomId);
    var _ := db.UpdateConsultation(req.consultationId, NotifyPatch(req.consultationId), faults.updateFails);
    var _ := db.InsertStatusLog(LogEntry(req, doctor.value), faults.logFails);
    resp := Success(SuccessMessage, videoCallLink, roomId);
  }
}
