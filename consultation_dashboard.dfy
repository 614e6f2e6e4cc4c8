/**
 * The consultation dashboard: the fetched list, its status filter and counts,
 * the buttons each consultation offers, and the writes those buttons make.
 * Status writes are unconditional updates keyed by id; the list is refreshed
 * only by re-fetching it, which every realtime change notification triggers.
 */
module ConsultationDashboard {
  import opened Wrappers
  import opened Records
  import opened Query
  import opened Database
  import opened VideoRoom

  /** 'all' or one status: the filter state before the dashboard restricts it. */
  datatype StatusFilter = All | Only(status: Status)

  /** The filter values the dashboard offers: every status except cancelled has a card. */
  type DashboardFilter = f: StatusFilter | !(f.Only? && f.status == Cancelled) witness All

  function Admits(f: StatusFilter): Consultation -> bool {
    (c: Consultation) => f.All? || c.status == f.status
  }

  function HasStatus(s: Status): Consultation -> bool {
    (c: Consultation) => c.status == s
  }

  /** `filteredConsultations`: the whole list for 'all', otherwise exactly the rows with that status, in list order. */
  function FilteredConsultations(list: seq<Consultation>, f: StatusFilter): (r: seq<Consultation>)
    ensures f.All? ==> r == list
    ensures f.Only? ==> forall c :: c in r <==> c in list && c.status == f.status
    ensures f.Only? ==> forall c :: multiset(r)[c] == if c.status == f.status then multiset(list)[c] else 0
    ensures SubsequenceOf(r, list)
  {
    FilterIsSubsequence(list, Admits(f));
    forall c ensures multiset(Filter(list, Admits(f)))[c] == if Admits(f)(c) then multiset(list)[c] else 0 {
      FilterCount(list, Admits(f), c);
    }
    if f.All? then
      FilterKeepsAll(list, Admits(f));
      Filter(list, Admits(f))
    else
      forall c ensures c in Filter(list, Admits(f)) <==> c in list && c.status == f.status {
        FilterMembers(list, Admits(f), c);
      }
      Filter(list, Admits(f))
  }

  /** The five counters of the stats cards. */
  datatype Stats = Stats(total: nat, pending: nat, scheduled: nat, live: nat, completed: nat)

  /** `stats`: counted over the unfiltered list. */
  function ComputeStats(list: seq<Consultation>): Stats {
    Stats(|list|, CountStatus(list, Pending), CountStatus(list, Scheduled),
          CountStatus(list, Live), CountStatus(list, Completed))
  }

  /** The number of rows with status `s`, as the stats compute it. */
  function CountStatus(list: seq<Consultation>, s: Status): nat {
    |Filter(list, HasStatus(s))|
  }

  /** Counting peels off the first row. */
  lemma CountStatusStep(list: seq<Consultation>, s: Status)
    requires list != []
    ensures CountStatus(list, s) == (if list[0].status == s then 1 else 0) + CountStatus(list[1..], s)
  {
  }

  /**
   * Every row is counted by exactly one status, so the four displayed counters
   * and the undisplayed cancelled count add up to the total.
   */
  lemma {:induction false} StatsAddUp(list: seq<Consultation>)
    ensures var st := ComputeStats(list);
      st.pending + st.scheduled + st.live + st.completed + CountStatus(list, Cancelled) == st.total
    ensures var st := ComputeStats(list);
      st.pending + st.scheduled + st.live + st.completed <= st.total
  {
    if list != [] {
      StatsAddUp(list[1..]);
      CountStatusStep(list, Pending);
      CountStatusStep(list, Scheduled);
      CountStatusStep(list, Live);
      CountStatusStep(list, Completed);
      CountStatusStep(list, Cancelled);
    }
  }

  /** A status counter equals the length of the list the matching card shows when clicked. */
  lemma CounterMatchesFilteredView(list: seq<Consultation>, s: Status)
    ensures CountStatus(list, s) == |FilteredConsultations(list, Only(s))|
  {
    FilterAgree(list, HasStatus(s), Admits(Only(s)));
  }

  /** The buttons of a consultation card. */
  datatype Action = StartCall | JoinCall | Cancel | RejoinCall | EndCall | CreatePrescription | ViewPrescription

  /** JavaScript truthiness of a nullable string column. */
  predicate IsSet(o: Option<string>) {
    o.Some? && o.value != ""
  }

  /** The buttons shown for a consultation, by status. */
  function OfferedActions(c: Consultation): set<Action> {
    match c.status
    case Pending => {StartCall, Cancel}
    case Scheduled => {JoinCall, Cancel}
    case Live => {RejoinCall, EndCall}
    case Completed => if IsSet(c.prescriptionId) then {ViewPrescription} else {CreatePrescription}
    case Cancelled => {}
  }

  /** The status a button writes to the store, if it writes one. */
  function StatusWritten(a: Action): Option<Status> {
    match a
    case StartCall => Some(Live)
    case JoinCall => Some(Live)
    case Cancel => Some(Cancelled)
    case EndCall => Some(Completed)
    case RejoinCall => None
    case CreatePrescription => None
    case ViewPrescription => None
  }

  /** The statuses a consultation can be moved to from its card. */
  function NextStatuses(c: Consultation): set<Status> {
    set a | a in OfferedActions(c) && StatusWritten(a).Some? :: StatusWritten(a).value
  }

  /**
   * The lifecycle the buttons implement: pending and scheduled go to live or
   * cancelled, live goes to completed, completed and cancelled go nowhere.
   */
  lemma OfferedTransitions(c: Consultation)
    ensures c.status == Pending || c.status == Scheduled ==> NextStatuses(c) == {Live, Cancelled}
    ensures c.status == Live ==> NextStatuses(c) == {Completed}
    ensures c.status == Completed || c.status == Cancelled ==> NextStatuses(c) == {}
  {
    match c.status
    case Pending =>
      assert StatusWritten(StartCall).value == Live;
      assert StatusWritten(Cancel).value == Cancelled;
    case Scheduled =>
      assert StatusWritten(JoinCall).value == Live;
      assert StatusWritten(Cancel).value == Cancelled;
    case Live =>
      assert StatusWritten(EndCall).value == Completed;
    case Completed =>
    case Cancelled =>
  }

  /** "Create Prescription" and "View Prescription" both need a completed consultation and split on `prescription_id`. */
  lemma PrescriptionButtons(c: Consultation)
    ensures CreatePrescription in OfferedActions(c) <==> c.status == Completed && !IsSet(c.prescriptionId)
    ensures ViewPrescription in OfferedActions(c) <==> c.status == Completed && IsSet(c.prescriptionId)
    ensures !(CreatePrescription in OfferedActions(c) && ViewPrescription in OfferedActions(c))
  {
  }

  /** The update `updateConsultationStatus` sends: only the status column. */
  function StatusPatch(s: Status): ConsultationPatch {
    ConsultationPatch(Some(s), None, None, None)
  }

  /** The update `startVideoCall` sends: live, with the room and link derived from the id. */
  function GoLivePatch(id: string): ConsultationPatch {
    ConsultationPatch(Some(Live), Some(RoomId(id)), Some(CallLink(RoomId(id))), None)
  }

  /** A status update rewrites the status of the matching rows and nothing else. */
  lemma StatusUpdateTouchesOnlyStatus(rows: seq<Consultation>, id: string, s: Status)
    ensures |UpdateWhereId(rows, id, StatusPatch(s))| == |rows|
    ensures forall i :: 0 <= i < |rows| ==>
      UpdateWhereId(rows, id, StatusPatch(s))[i] == if rows[i].id == id then rows[i].(status := s) else rows[i]
  {
  }

  /**
   * Starting the call puts the matching row live with the derived room and link,
   * and starting it again writes the very same values.
   */
  lemma StartCallIdempotent(rows: seq<Consultation>, id: string)
    ensures forall i :: 0 <= i < |rows| && rows[i].id == id ==>
      var c := UpdateWhereId(rows, id, GoLivePatch(id))[i];
      c.status == Live && c.videoRoomId == Some(RoomId(id)) && c.videoCallLink == Some(CallLink(RoomId(id)))
    ensures UpdateWhereId(UpdateWhereId(rows, id, GoLivePatch(id)), id, GoLivePatch(id))
         == UpdateWhereId(rows, id, GoLivePatch(id))
  {
    UpdateIdempotent(rows, id, GoLivePatch(id));
  }

  /** The update a button sends to the store, if it sends one. */
  function ActionPatch(c: Consultation, a: Action): Option<ConsultationPatch> {
    match a
    case StartCall => Some(GoLivePatch(c.id))
    case JoinCall => Some(GoLivePatch(c.id))
    case Cancel => Some(StatusPatch(Cancelled))
    case EndCall => Some(StatusPatch(Completed))
    case _ => None
  }

  /** The call link a button opens in a new tab, if any; start and join open it only after a successful write. */
  function LinkOpened(c: Consultation, a: Action, fails: bool): Option<string> {
    match a
    case StartCall => if fails then None else Some(CallLink(RoomId(c.id)))
    case JoinCall => if fails then None else Some(CallLink(RoomId(c.id)))
    case RejoinCall => Some(c.videoCallLink.GetOr(""))
    case _ => None
  }

  /**
   * A button writes to the store exactly when it has a target status, the
   * write sets that status, and only start and join also write the room and
   * link; a button that writes opens no link unless it goes live.
   */
  lemma ActionPatchWritesTargetStatus(c: Consultation, a: Action)
    ensures ActionPatch(c, a).Some? <==> StatusWritten(a).Some?
    ensures ActionPatch(c, a).Some? ==> ActionPatch(c, a).value.status == StatusWritten(a)
    ensures ActionPatch(c, a).Some? ==> ActionPatch(c, a).value.prescriptionId.None?
    ensures ActionPatch(c, a).Some? && ActionPatch(c, a).value.videoCallLink.Some? <==> a == StartCall || a == JoinCall
    ensures LinkOpened(c, a, false).Some? ==> StatusWritten(a) == Some(Live) || a == RejoinCall
  {
  }

  class Dashboard {
    var consultations: seq<Consultation>
    var isLoading: bool
    var filter: DashboardFilter
    var selectedConsultation: Option<Consultation>
    var viewPrescription: Option<string>

    /** Mounted: loading, nothing fetched, filter 'all', no form or prescription open. */
    constructor ()
      ensures consultations == [] && isLoading && filter == All
      ensures selectedConsultation == None && viewPrescription == None
    {
      consultations := [];
      isLoading := true;
      filter := All;
      selectedConsultation := None;
      viewPrescription := None;
    }

    /** The list on screen. */
    function Shown(): seq<Consultation>
      reads this
    {
      FilteredConsultations(consultations, filter)
    }

    /** The counters on screen. */
    function ShownStats(): Stats
      reads this
    {
      ComputeStats(consultations)
    }

    /** A stats card was clicked. */
    method SetFilter(f: DashboardFilter)
      modifies this`filter
      ensures filter == f
    {
      filter := f;
    }

    /** `fetchConsultations`: on success the list is the table newest first; on error it stays as it was. */
    method FetchConsultations(db: Database, fails: bool)
      modifies this`consultations, this`isLoading
      ensures consultations == if fails then old(consultations) else db.ConsultationsNewestFirst()
      ensures !isLoading
    {
      if !fails {
        consultations := db.ConsultationsNewestFirst();
      }
      isLoading := false;
    }

    /** `handleRealtimeUpdate`: any change notification re-fetches the whole list. */
    method HandleRealtimeUpdate(db: Database, fails: bool)
      modifies this`consultations, this`isLoading
      ensures consultations == if fails then old(consultations) else db.ConsultationsNewestFirst()
      ensures !isLoading
    {
      FetchConsultations(db, fails);
    }

    /** `updateConsultationStatus`: an unconditional status write; the local list waits for the re-fetch. */
    method UpdateConsultationStatus(db: Database, id: string, newStatus: Status, fails: bool) returns (ok: bool)
      requires db.Valid()
      modifies db`consultations
      ensures db.Valid()
      ensures ok == !fails
      ensures db.consultations == if ok then UpdateWhereId(old(db.consultations), id, StatusPatch(newStatus))
                                  else old(db.consultations)
    {
      ok := db.UpdateConsultation(id, StatusPatch(newStatus), fails);
    }

    /** `startVideoCall`: goes live with the derived room and link and opens the link once the write succeeded. */
    method StartVideoCall(db: Database, c: Consultation, fails: bool) returns (openedLink: Option<string>)
      requires db.Valid()
      modifies db`consultations
      ensures db.Valid()
      ensures openedLink == if fails then None else Some(CallLink(RoomId(c.id)))
      ensures db.consultations == if fails then old(db.consultations)
                                  else UpdateWhereId(old(db.consultations), c.id, GoLivePatch(c.id))
    {
      var ok := db.UpdateConsultation(c.id, GoLivePatch(c.id), fails);
      openedLink := if ok then Some(CallLink(RoomId(c.id))) else None;
    }

    /**
     * A button of `c`'s card was clicked: the start/join, cancel and end buttons
     * send `ActionPatch`; rejoin only opens the stored link; the prescription
     * buttons open the form or the prescription.
     */
    method PerformAction(db: Database, c: Consultation, a: Action, fails: bool) returns (openedLink: Option<string>)
      requires db.Valid()
      modifies db`consultations, this`selectedConsultation, this`viewPrescription
      ensures db.Valid()
      ensures openedLink == LinkOpened(c, a, fails)
      ensures db.consultations == if fails || ActionPatch(c, a).None? then old(db.consultations)
                                  else UpdateWhereId(old(db.consultations), c.id, ActionPatch(c, a).value)
      ensures selectedConsultation == if a == CreatePrescription then Some(c) else old(selectedConsultation)
      ensures viewPrescription == if a == ViewPrescription then c.prescriptionId else old(viewPrescription)
    {
      openedLink := None;
      match a
      case StartCall =>
        openedLink := StartVideoCall(db, c, fails);
      case JoinCall =>
        openedLink := StartVideoCall(db, c, fails);
      case Cancel =>
        var _ := UpdateConsultationStatus(db, c.id, Cancelled, fails);
      case EndCall =>
        var _ := UpdateConsultationStatus(db, c.id, Completed, fails);
      case RejoinCall =>
        openedLink := Some(c.videoCallLink.GetOr(""));
      case CreatePrescription =>
        selectedConsultation := Some(c);
      case ViewPrescription =>
        viewPrescription := c.prescriptionId;
    }

    /** The prescription form reported a new prescription: close the form, show it, and re-fetch. */
    method OnPrescriptionCreated(db: Database, prescriptionId: string, fetchFails: bool)
      modifies this`selectedConsultation, this`viewPrescription, this`consultations, this`isLoading
      ensures selectedConsultation == None && viewPrescription == Some(prescriptionId)
      ensures consultations == if fetchFails then old(consultations) else db.ConsultationsNewestFirst()
    {
      selectedConsultation := None;
      viewPrescription := Some(prescriptionId);
      FetchConsultations(db, fetchFails);
    }
  }
}
