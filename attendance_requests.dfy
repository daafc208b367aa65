/**
 * The leave (PTO) and overtime request lists of the attendance page
 * (src/app/attendance/page.tsx:255-267, 309-318, 435-449, 466, 519): the
 * month and status filter, the status multi-select with its "all" entry,
 * and the status labels and colours.
 */
module AttendanceRequests {
  import opened Wrappers
  import opened Seqs
  import opened Text
  import Chips

  datatype RequestStatus = Pending | Approved | Rejected

  const AllRequestStatuses: seq<RequestStatus> := [Pending, Approved, Rejected]

  datatype LeaveKind = FullDay | Morning | Afternoon

  datatype PtoRequest = PtoRequest(id: string, name: string, department: string, date: string, kind: LeaveKind, status: RequestStatus)

  datatype OtRequest = OtRequest(id: string, name: string, department: string, date: string, hours: real, reason: Option<string>, status: RequestStatus)

  /** A request is listed when it is dated in the month in view and the status filter is empty or holds its status. */
  predicate RequestShown(date: string, status: RequestStatus, month: string, statusFilter: seq<RequestStatus>) {
    StartsWith(date, month) && (|statusFilter| == 0 || status in statusFilter)
  }

  function PtoShown(month: string, statusFilter: seq<RequestStatus>): PtoRequest -> bool {
    (r: PtoRequest) => RequestShown(r.date, r.status, month, statusFilter)
  }

  function OtShown(month: string, statusFilter: seq<RequestStatus>): OtRequest -> bool {
    (r: OtRequest) => RequestShown(r.date, r.status, month, statusFilter)
  }

  /** `ptoFiltered`. */
  function PtoFiltered(requests: seq<PtoRequest>, month: string, statusFilter: seq<RequestStatus>): (shown: seq<PtoRequest>)
    ensures IsSubsequence(shown, requests)
    ensures forall r :: r in shown <==>
      (r in requests && StartsWith(r.date, month) && (statusFilter == [] || r.status in statusFilter))
  {
    Filter(requests, PtoShown(month, statusFilter))
  }

  /** `otFiltered`. */
  function OtFiltered(requests: seq<OtRequest>, month: string, statusFilter: seq<RequestStatus>): (shown: seq<OtRequest>)
    ensures IsSubsequence(shown, requests)
    ensures forall r :: r in shown <==>
      (r in requests && StartsWith(r.date, month) && (statusFilter == [] || r.status in statusFilter))
  {
    Filter(requests, OtShown(month, statusFilter))
  }

  lemma StatusListed(s: RequestStatus)
    ensures s in AllRequestStatuses
  {
    match s
    case Pending => assert AllRequestStatuses[0] == s;
    case Approved => assert AllRequestStatuses[1] == s;
    case Rejected => assert AllRequestStatuses[2] == s;
  }

  /** Selecting every status lists the same requests as selecting none. */
  lemma AllStatusesSameAsNone(pto: seq<PtoRequest>, ot: seq<OtRequest>, month: string)
    ensures PtoFiltered(pto, month, AllRequestStatuses) == PtoFiltered(pto, month, [])
    ensures OtFiltered(ot, month, AllRequestStatuses) == OtFiltered(ot, month, [])
  {
    forall r | r in pto ensures PtoShown(month, AllRequestStatuses)(r) == PtoShown(month, [])(r) {
      StatusListed(r.status);
    }
    forall r | r in ot ensures OtShown(month, AllRequestStatuses)(r) == OtShown(month, [])(r) {
      StatusListed(r.status);
    }
    FilterSamePredicate(pto, PtoShown(month, AllRequestStatuses), PtoShown(month, []));
    FilterSamePredicate(ot, OtShown(month, AllRequestStatuses), OtShown(month, []));
  }

  /** An entry of the status multi-select: the "all" item or one status. */
  datatype StatusOption = SelectAll | SelectStatus(status: RequestStatus)

  /** The multi-select's `onChange`: "all" among the chosen items selects every status, otherwise the chosen statuses. */
  function StatusSelection(chosen: seq<StatusOption>): (selected: seq<RequestStatus>)
    ensures SelectAll in chosen ==> selected == [Pending, Approved, Rejected]
    ensures SelectAll !in chosen ==>
      |selected| == |chosen| && forall i :: 0 <= i < |chosen| ==> chosen[i] == SelectStatus(selected[i])
  {
    if SelectAll in chosen then AllRequestStatuses else ChosenStatuses(chosen)
  }

  /** The statuses of a choice without "all", item by item. */
  function ChosenStatuses(chosen: seq<StatusOption>): (statuses: seq<RequestStatus>)
    requires SelectAll !in chosen
    ensures |statuses| == |chosen| && forall i :: 0 <= i < |chosen| ==> chosen[i] == SelectStatus(statuses[i])
  {
    if chosen == [] then []
    else
      assert chosen[0] in chosen;
      var rest := ChosenStatuses(chosen[1..]);
      var statuses := [chosen[0].status] + rest;
      assert forall i :: 1 <= i < |chosen| ==> chosen[i] == chosen[1..][i - 1] && statuses[i] == rest[i - 1];
      statuses
  }

  /** The label of a request status, in the status chips and in the multi-select. */
  function RequestStatusLabel(s: RequestStatus): string {
    match s
    case Pending => "未承認"
    case Approved => "承認"
    case Rejected => "差戻し"
  }

  /** The leave list's status chip colour. */
  function PtoStatusColor(s: RequestStatus): Chips.Color {
    match s
    case Pending => Chips.Primary
    case Approved => Chips.Success
    case Rejected => Chips.Error
  }

  /** The overtime list's status chip colour. */
  function OtStatusColor(s: RequestStatus): Chips.Color {
    match s
    case Pending => Chips.Secondary
    case Approved => Chips.Success
    case Rejected => Chips.Error
  }

  /**
   * The leave and overtime lists label their statuses alike and colour them
   * alike except for "pending", which is primary in the leave list and
   * secondary in the overtime list.
   */
  lemma RequestChipTables(s: RequestStatus, s': RequestStatus)
    ensures RequestStatusLabel(s) == RequestStatusLabel(s') ==> s == s'
    ensures PtoStatusColor(s) == OtStatusColor(s) <==> s != Pending
    ensures PtoStatusColor(s) == PtoStatusColor(s') ==> s == s'
    ensures OtStatusColor(s) == OtStatusColor(s') ==> s == s'
  {
  }

  /**
   * The multi-select's `renderValue`: "全て" when three statuses are
   * selected, otherwise the labels of the selected statuses joined by ", ".
   */
  function SelectionText(selected: seq<RequestStatus>): (text: string)
    ensures |selected| == 3 ==> text == "全て"
    ensures selected == [] ==> text == ""
    ensures |selected| == 1 ==> text == RequestStatusLabel(selected[0])
    ensures |selected| == 2 ==> text == RequestStatusLabel(selected[0]) + ", " + RequestStatusLabel(selected[1])
  {
    if |selected| == 3 then "全て"
    else
      var labels := seq(|selected|, i requires 0 <= i < |selected| => RequestStatusLabel(selected[i]));
      assert |selected| == 2 ==> Join(labels, ", ") == labels[0] + ", " + Join(labels[1..], ", ");
      assert |selected| == 2 ==> Join(labels[1..], ", ") == labels[1];
      Join(labels, ", ")
  }

  /** Choosing "all" shows "全て". */
  lemma SelectAllShowsAll(chosen: seq<StatusOption>)
    requires SelectAll in chosen
    ensures SelectionText(StatusSelection(chosen)) == "全て"
  {
  }
}
