/**
 * The view state of the attendance page (src/app/attendance/page.tsx:276-278,
 * 309-310): the open tab, the project and alert-type selects of the records
 * tab, and the status multi-selects of the leave and overtime tabs, with the
 * handlers that change them: the summary chips, the tab bar, the selects.
 */
module AttendanceView {
  import opened Seqs
  import opened Text
  import AttendanceTypes
  import Attendance
  import opened AttendanceRequests

  /** The records tab, the leave tab and the overtime tab; the tab bar shows no others. */
  const RecordsTab: nat := 0
  const LeaveTab: nat := 1
  const OvertimeTab: nat := 2

  /** A snapshot of the page's five pieces of view state. */
  datatype ViewState = ViewState(
    activeTab: nat,
    projectFilter: string,
    alertTypeFilter: Attendance.AlertTypeFilter,
    ptoStatusFilter: seq<RequestStatus>,
    otStatusFilter: seq<RequestStatus>)

  /** The state the page mounts with: the records tab, every project, every alert type, no status chosen. */
  const InitialView: ViewState := ViewState(RecordsTab, "all", Attendance.AnyType, [], [])

  /** The tab a summary chip opens. */
  function ChipTab(t: Attendance.AlertType): nat {
    match t
    case Absent => RecordsTab
    case WorkError => RecordsTab
    case PtoPending => LeaveTab
    case OtPending => OvertimeTab
  }

  /**
   * A summary chip's `onClick`. A chip opens the tab that lists its kind and
   * keeps the project select. An absence or work-error chip chooses its own
   * alert type and leaves the request filters. A leave or overtime chip
   * selects only "pending" in its own tab's status filter and leaves the
   * other filters.
   */
  function ChipClicked(s: ViewState, t: Attendance.AlertType): (s': ViewState)
    ensures s'.activeTab == ChipTab(t) <= OvertimeTab
    ensures s'.projectFilter == s.projectFilter
    ensures t == Attendance.Absent || t == Attendance.WorkError ==>
      !s'.alertTypeFilter.AnyType? && s'.alertTypeFilter.Kind() == t && s'.ptoStatusFilter == s.ptoStatusFilter && s'.otStatusFilter == s.otStatusFilter
    ensures t == Attendance.PtoPending ==>
      s'.ptoStatusFilter == [Pending] && s'.alertTypeFilter == s.alertTypeFilter && s'.otStatusFilter == s.otStatusFilter
    ensures t == Attendance.OtPending ==>
      s'.otStatusFilter == [Pending] && s'.alertTypeFilter == s.alertTypeFilter && s'.ptoStatusFilter == s.ptoStatusFilter
  {
    match t
    case Absent => s.(activeTab := RecordsTab, alertTypeFilter := Attendance.OnlyAbsent)
    case WorkError => s.(activeTab := RecordsTab, alertTypeFilter := Attendance.OnlyWorkError)
    case PtoPending => s.(activeTab := LeaveTab, ptoStatusFilter := [Pending])
    case OtPending => s.(activeTab := OvertimeTab, otStatusFilter := [Pending])
  }

  /** Clicking the same chip a second time changes nothing more. */
  lemma ChipIdempotent(s: ViewState, t: Attendance.AlertType)
    ensures ChipClicked(ChipClicked(s, t), t) == ChipClicked(s, t)
  {
  }

  /**
   * After the leave chip the leave tab lists exactly the month's pending
   * requests, and its multi-select reads "未承認"; the overtime chip does the
   * same for the overtime tab.
   */
  lemma PendingChipsListPending(s: ViewState, pto: seq<PtoRequest>, ot: seq<OtRequest>, month: string)
    ensures forall r :: r in PtoFiltered(pto, month, ChipClicked(s, Attendance.PtoPending).ptoStatusFilter) <==>
      (r in pto && StartsWith(r.date, month) && r.status == Pending)
    ensures forall r :: r in OtFiltered(ot, month, ChipClicked(s, Attendance.OtPending).otStatusFilter) <==>
      (r in ot && StartsWith(r.date, month) && r.status == Pending)
    ensures SelectionText(ChipClicked(s, Attendance.PtoPending).ptoStatusFilter) == RequestStatusLabel(Pending)
  {
  }

  /**
   * After the absence (or work-error) chip the records tab lists exactly the
   * rows of the chosen project whose employee has an in-scope alert of that
   * type.
   */
  lemma RecordChipsListAlerted(s: ViewState, t: Attendance.AlertType, rows: seq<AttendanceTypes.AttendanceRecord>, inScope: seq<Attendance.AlertItem>)
    requires t == Attendance.Absent || t == Attendance.WorkError
    ensures var s' := ChipClicked(s, t);
      forall r :: r in Filter(rows, Attendance.RowShown(s'.projectFilter, s'.alertTypeFilter, inScope)) <==>
        (r in rows && (s.projectFilter == "all" || r.projectId == s.projectFilter) &&
         exists a :: a in inScope && a.kind == t && a.name == r.employeeName)
  {
  }

  /**
   * The page's view state, updated in place by its event handlers. The tab
   * bar has three tabs, so the open tab is always one of them.
   */
  class View {
    var activeTab: nat
    var projectFilter: string
    var alertTypeFilter: Attendance.AlertTypeFilter
    var ptoStatusFilter: seq<RequestStatus>
    var otStatusFilter: seq<RequestStatus>

    ghost predicate Valid()
      reads this
    {
      activeTab <= OvertimeTab
    }

    function State(): ViewState
      reads this
    {
      ViewState(activeTab, projectFilter, alertTypeFilter, ptoStatusFilter, otStatusFilter)
    }

    constructor()
      ensures Valid()
      ensures State() == InitialView
    {
      activeTab := RecordsTab;
      projectFilter := "all";
      alertTypeFilter := Attendance.AnyType;
      ptoStatusFilter := [];
      otStatusFilter := [];
    }

    /** A summary chip's `onClick`. */
    method ClickChip(t: Attendance.AlertType)
      requires Valid()
      modifies this
      ensures Valid()
      ensures State() == ChipClicked(old(State()), t)
    {
      if t == Attendance.Absent || t == Attendance.WorkError {
        activeTab := RecordsTab;
        alertTypeFilter := if t == Attendance.Absent then Attendance.OnlyAbsent else Attendance.OnlyWorkError;
      } else if t == Attendance.PtoPending {
        activeTab := LeaveTab;
        ptoStatusFilter := [Pending];
      } else {
        activeTab := OvertimeTab;
        otStatusFilter := [Pending];
      }
    }

    /** The tab bar's `onChange`, which passes the index of a tab. */
    method ChangeTab(v: nat)
      requires Valid() && v <= OvertimeTab
      modifies this
      ensures Valid()
      ensures State() == old(State()).(activeTab := v)
    {
      activeTab := v;
    }

    /** The project select's `onChange`: `"all"` or a project id. */
    method ChangeProjectFilter(value: string)
      requires Valid()
      modifies this
      ensures Valid()
      ensures State() == old(State()).(projectFilter := value)
    {
      projectFilter := value;
    }

    /** The alert-type select's `onChange`. */
    method ChangeAlertTypeFilter(value: Attendance.AlertTypeFilter)
      requires Valid()
      modifies this
      ensures Valid()
      ensures State() == old(State()).(alertTypeFilter := value)
    {
      alertTypeFilter := value;
    }

    /** The leave tab's multi-select `onChange`. */
    method ChangePtoSelection(chosen: seq<StatusOption>)
      requires Valid()
      modifies this
      ensures Valid()
      ensures State() == old(State()).(ptoStatusFilter := StatusSelection(chosen))
    {
      ptoStatusFilter := StatusSelection(chosen);
    }

    /** The overtime tab's multi-select `onChange`. */
    method ChangeOtSelection(chosen: seq<StatusOption>)
      requires Valid()
      modifies this
      ensures Valid()
      ensures State() == old(State()).(otStatusFilter := StatusSelection(chosen))
    {
      otStatusFilter := StatusSelection(chosen);
    }
  }
}
