/**
 * The video room of a consultation. The dashboard's `startVideoCall` and the
 * `notify-doctor` function both derive the room name and the meeting link from
 * the consultation id alone, so whichever writes first, both write the same values.
 */
module VideoRoom {
  import opened Wrappers

  const RoomPrefix: string := "consultation-"
  const MeetingHost: string := "https://meet.jit.si/"

  /** `consultation-${id}`. */
  function RoomId(consultationId: string): string {
    RoomPrefix + consultationId
  }

  /** `https://meet.jit.si/${roomId}`. */
  function CallLink(roomId: string): string {
    MeetingHost + roomId
  }

  /** The text after `prefix`, when `s` starts with it. */
  function StripPrefix(s: string, prefix: string): (r: Option<string>)
    ensures r.Some? <==> prefix <= s
    ensures r.Some? ==> s == prefix + r.value
  {
    if prefix <= s then
      assert s == prefix + s[|prefix|..];
      Some(s[|prefix|..])
    else None
  }

  /** Reads the consultation id back from a meeting link. */
  function ConsultationOfLink(link: string): Option<string> {
    match StripPrefix(link, MeetingHost)
    case None => None
    case Some(room) => StripPrefix(room, RoomPrefix)
  }

  /** The link determines the consultation: reading it back gives the id it was made from. */
  lemma LinkRoundTrip(consultationId: string)
    ensures ConsultationOfLink(CallLink(RoomId(consultationId))) == Some(consultationId)
  {
    var room := RoomId(consultationId);
    assert MeetingHost <= CallLink(room);
    assert CallLink(room)[|MeetingHost|..] == room;
    assert RoomPrefix <= room;
    assert room[|RoomPrefix|..] == consultationId;
  }

  /** Distinct consultations never share a room or a link. */
  lemma DistinctConsultationsDistinctRooms(a: string, b: string)
    requires a != b
    ensures RoomId(a) != RoomId(b)
    ensures CallLink(RoomId(a)) != CallLink(RoomId(b))
  {
    LinkRoundTrip(a);
    LinkRoundTrip(b);
  }
}
