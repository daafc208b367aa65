/**
 * The derivations of the attendance page (src/app/attendance/page.tsx): the
 * records selected by the `approval` query parameter, the month in view, the
 * alerts in scope for it, the rows left after the project and alert-type
 * filters, the per-type alert tally, the project select's options, the
 * edited-hours check, the `workPeriod` label and the status label and colour
 * tables. The leave and overtime lists are in `AttendanceRequests`.
 */
module Attendance {
  import opened Wrappers
  import opened Seqs
  import opened Text
  import opened QueryParam
  import opened AttendanceTypes
  import Chips

  // ---------------------------------------------------------------------
  // Status tables and chips of the records grid

  /** `statusColorMap`. */
  function MatchingColor(m: MatchingStatus): Chips.Color {
    match m
    case Unverified => Chips.Warning
    case Matched => Chips.Success
    case Mismatch => Chips.Error
  }

  /** `approvalLabelMap`. */
  function ApprovalLabel(s: ApprovalStatus): string {
    match s
    case Draft => "下書き"
    case Pending => "承認待ち"
    case Approved => "承認済み"
    case Rejected => "差戻し"
  }

  /** `matchingLabelMap`. */
  function MatchingLabel(m: MatchingStatus): string {
    match m
    case Unverified => "未照合"
    case Matched => "照合済み"
    case Mismatch => "不一致"
  }

  /** The two label tables tell every status apart. */
  lemma LabelsDistinguishStatuses(s: ApprovalStatus, s': ApprovalStatus, m: MatchingStatus, m': MatchingStatus)
    ensures ApprovalLabel(s) == ApprovalLabel(s') ==> s == s'
    ensures MatchingLabel(m) == MatchingLabel(m') ==> m == m'
  {
  }

  /** The approval chip: its label falls back to "pending" when the cell has no value. */
  function ApprovalChipLabel(v: Option<ApprovalStatus>): (caption: string)
    ensures v.None? ==> caption == ApprovalLabel(Pending)
    ensures v.Some? ==> caption == ApprovalLabel(v.value)
  {
    ApprovalLabel(v.GetOr(Pending))
  }

  /** The approval chip is green for approved, red for rejected, and plain otherwise (a missing value too). */
  function ApprovalChipColor(v: Option<ApprovalStatus>): (c: Chips.Color)
    ensures c == Chips.Success <==> v == Some(Approved)
    ensures c == Chips.Error <==> v == Some(Rejected)
    ensures c == Chips.Default <==> v != Some(Approved) && v != Some(Rejected)
  {
    if v == Some(Approved) then Chips.Success
    else if v == Some(Rejected) then Chips.Error
    else Chips.Default
  }

  /** The approval chip is filled exactly for a decided record (approved or rejected). */
  function ApprovalChipVariant(v: Option<ApprovalStatus>): (variant: Chips.Variant)
    ensures variant == Chips.Filled <==> v == Some(Approved) || v == Some(Rejected)
  {
    if v == Some(Approved) || v == Some(Rejected) then Chips.Filled else Chips.Outlined
  }

  /** The matching chip: label and colour of the status, "unverified" when the cell has no value. */
  function MatchingChip(v: Option<MatchingStatus>): (chip: (string, Chips.Color))
    ensures v.None? ==> chip == ("未照合", Chips.Warning)
    ensures v.Some? ==> chip == (MatchingLabel(v.value), MatchingColor(v.value))
  {
    var m := v.GetOr(Unverified);
    (MatchingLabel(m), MatchingColor(m))
  }

  // ---------------------------------------------------------------------
  // Editing and formatting cells

  /**
   * The check on an edited total-hours cell. `v` is `Number(value)`, with
   * `None` for `NaN`; the edit is flagged exactly when the value is not a
   * number or lies outside 0..200 hours.
   */
  function HoursEditError(v: Option<real>): (hasError: bool)
    ensures !hasError <==> v.Some? && 0.0 <= v.value <= 200.0
  {
    v.None? || v.value < 0.0 || v.value > 200.0
  }

  /**
   * The billing-amount cell is marked as an error exactly when the record
   * carries a validation issue about the `expectedBillingAmount` field.
   */
  function AmountCellFlagged(r: AttendanceRecord): (flagged: bool)
    ensures flagged <==>
      (r.validationIssues.Some? &&
       exists k :: 0 <= k < |r.validationIssues.value| && r.validationIssues.value[k].field == "expectedBillingAmount")
  {
    r.validationIssues.Some? && AnyIssueAbout(r.validationIssues.value, "expectedBillingAmount")
  }

  /** `issues.some((issue) => issue.field === field)`. */
  function AnyIssueAbout(issues: seq<ValidationIssue>, field: string): (found: bool)
    ensures found <==> exists k :: 0 <= k < |issues| && issues[k].field == field
  {
    if issues == [] then false
    else if issues[0].field == field then true
    else
      var rest := AnyIssueAbout(issues[1..], field);
      assert rest <==> exists k :: 1 <= k < |issues| && issues[k].field == field by {
        if rest {
          var k :| 0 <= k < |issues[1..]| && issues[1..][k].field == field;
          assert issues[k + 1].field == field;
        }
      }
      rest
  }

  /**
   * The `workPeriod` cell label: the first "-" becomes "年" and "月" is
   * appended; an empty value shows as "-".
   */
  function FormatWorkPeriod(v: string): (caption: string)
    ensures v == [] ==> caption == "-"
    ensures v != [] ==> |caption| >= 1 && caption[|caption| - 1] == '月'
    ensures v != [] && '-' !in v ==> caption == v + "月"
  {
    if v == [] then "-"
    else
      var r := ReplaceFirst(v, '-', "年");
      assert '-' !in v ==> r == v by {
        if '-' !in v {
          ReplaceFirstAbsent(v, '-', "年");
        }
      }
      r + "月"
  }

  /** A `year-month` value such as "2025-09" is shown as "2025年09月". */
  lemma {:induction false} FormatWorkPeriodYearMonth(year: string, month: string)
    requires '-' !in year
    ensures FormatWorkPeriod(year + "-" + month) == year + "年" + month + "月"
  {
    ReplaceFirstAt(year, month, '-', "年");
  }

  /** Only the first "-" is replaced: "2025-09-30" becomes "2025年09-30月". */
  lemma FormatWorkPeriodOnlyFirstDash()
    ensures FormatWorkPeriod("2025-09-30") == "2025年09-30月"
  {
    var year, rest := "2025", "09-30";
    assert '-' !in year by {
      assert year == ['2', '0', '2', '5'];
    }
    assert "2025-09-30" == year + "-" + rest;
    FormatWorkPeriodYearMonth(year, rest);
    assert year + "年" + rest + "月" == "2025年09-30月";
  }

  // ---------------------------------------------------------------------
  // Records selected by the query parameter, the month in view

  /** `rows`: the records the `approval` parameter selects (see `QueryParam.FilterByParam`). */
  function Rows(records: seq<AttendanceRecord>, approvalParam: Option<string>): (rows: seq<AttendanceRecord>)
    ensures IsSubsequence(rows, records)
    ensures forall r :: r in rows <==>
      (r in records && (!Narrows(approvalParam) || ApprovalName(r.approvalStatus) in ParseList(approvalParam).value))
  {
    FilterByParam(records, RecordApprovalName, approvalParam)
  }

  /**
   * `currentMonth`: the `workPeriod` of the first row, or, when no row is
   * selected, the first seven characters ("YYYY-MM") of the current time in
   * ISO form, which the caller passes as `nowIso`.
   */
  function CurrentMonth(rows: seq<AttendanceRecord>, nowIso: string): (month: string)
    ensures rows != [] ==> month == rows[0].workPeriod
    ensures rows == [] ==> month == Prefix(nowIso, 7)
  {
    if rows != [] then rows[0].workPeriod else Prefix(nowIso, 7)
  }

  // ---------------------------------------------------------------------
  // Alerts

  datatype AlertType = Absent | WorkError | PtoPending | OtPending

  const AllAlertTypes: set<AlertType> := {Absent, WorkError, PtoPending, OtPending}

  datatype AlertItem = AlertItem(id: string, kind: AlertType, name: string, department: string, date: string, detail: Option<string>)

  /** The label of each summary chip (`alertMeta[t].label`). */
  function AlertLabel(t: AlertType): string {
    match t
    case Absent => "未出勤"
    case WorkError => "勤務登録エラー"
    case PtoPending => "有給申請 未承認"
    case OtPending => "残業申請 未承認"
  }

  /** The colour of each summary chip (`alertMeta[t].color`). */
  function AlertColor(t: AlertType): Chips.Color {
    match t
    case Absent => Chips.Warning
    case WorkError => Chips.Error
    case PtoPending => Chips.Primary
    case OtPending => Chips.Secondary
  }

  /** The four summary chips are told apart by colour as well as by label, and none is drawn in the default colour. */
  lemma SummaryChipsDistinct(t: AlertType, u: AlertType)
    ensures AlertColor(t) == AlertColor(u) ==> t == u
    ensures AlertLabel(t) == AlertLabel(u) ==> t == u
    ensures AlertColor(t) != Chips.Default
  {
  }

  /**
   * The text of a summary chip: the type's label and a space, then the count
   * written in decimal without leading zeros, then "件".
   */
  function SummaryChipLabel(t: AlertType, count: nat): (caption: string)
    ensures var n := |AlertLabel(t)|;
      |caption| >= n + 3 && caption[..n + 1] == AlertLabel(t) + " " && caption[|caption| - 1] == '件' &&
      AllDigits(caption[n + 1..|caption| - 1]) && DecimalValue(caption[n + 1..|caption| - 1]) == count &&
      (|caption| > n + 3 ==> caption[n + 1] != '0')
  {
    var d := NatToDecimal(count);
    DecimalRoundTrip(count);
    var caption := AlertLabel(t) + " " + d + "件";
    assert caption[|AlertLabel(t)| + 1..|caption| - 1] == d;
    assert caption[..|AlertLabel(t)| + 1] == AlertLabel(t) + " ";
    caption
  }

  /** `namesInScope`: the employee names of the selected rows. */
  function NamesInScope(rows: seq<AttendanceRecord>): set<string> {
    set r | r in rows :: r.employeeName
  }

  function InScope(month: string, names: set<string>): AlertItem -> bool {
    (a: AlertItem) => StartsWith(a.date, month) && a.name in names
  }

  /**
   * `alertInScope`: the alerts dated in the month in view whose name is the
   * employee name of some selected row, in their original order.
   */
  function AlertInScope(alerts: seq<AlertItem>, rows: seq<AttendanceRecord>, month: string): (inScope: seq<AlertItem>)
    ensures IsSubsequence(inScope, alerts)
    ensures forall a :: a in inScope <==>
      a in alerts && StartsWith(a.date, month) && exists r :: r in rows && r.employeeName == a.name
  {
    Filter(alerts, InScope(month, NamesInScope(rows)))
  }

  // ---------------------------------------------------------------------
  // The project and alert-type filters of the records tab

  /** The alert-type select: `"all" | "absent" | "work_error"`. */
  datatype AlertTypeFilter = AnyType | OnlyAbsent | OnlyWorkError {
    function Kind(): AlertType
      requires !AnyType?
    {
      if OnlyAbsent? then Absent else WorkError
    }
  }

  /** `r => projectFilter === "all" ? true : r.projectId === projectFilter`. */
  function ProjectMatches(projectFilter: string): AttendanceRecord -> bool {
    (r: AttendanceRecord) => projectFilter == "all" || r.projectId == projectFilter
  }

  /** The names of the in-scope alerts of type `t`. */
  function NamesWithAlert(inScope: seq<AlertItem>, t: AlertType): set<string> {
    set a | a in inScope && a.kind == t :: a.name
  }

  function HasName(names: set<string>): AttendanceRecord -> bool {
    (r: AttendanceRecord) => r.employeeName in names
  }

  /**
   * The one-pass condition for a row to stay in `filteredRows`: the row is of
   * the chosen project, and, when an alert type is chosen, some in-scope alert
   * of that type carries the row's employee name.
   */
  function RowShown(projectFilter: string, alertTypeFilter: AlertTypeFilter, inScope: seq<AlertItem>): (shown: AttendanceRecord -> bool)
    ensures forall r :: shown(r) <==>
      ((projectFilter == "all" || r.projectId == projectFilter) &&
       (alertTypeFilter.AnyType? ||
        exists a :: a in inScope && a.kind == alertTypeFilter.Kind() && a.name == r.employeeName))
  {
    (r: AttendanceRecord) => (projectFilter == "all" || r.projectId == projectFilter) &&
         (alertTypeFilter.AnyType? || r.employeeName in NamesWithAlert(inScope, alertTypeFilter.Kind()))
  }

  /**
   * `filteredRows`: first keep the rows of the chosen project, then, when an
   * alert type is chosen, only those whose employee has an in-scope alert of
   * that type. The result is the one-pass filter by `RowShown`; with both
   * selects on "all" it is `rows` itself.
   */
  method FilteredRows(rows: seq<AttendanceRecord>, projectFilter: string, alertTypeFilter: AlertTypeFilter, inScope: seq<AlertItem>)
    returns (base: seq<AttendanceRecord>)
    ensures base == Filter(rows, RowShown(projectFilter, alertTypeFilter, inScope))
    ensures forall r :: r in base <==>
      (r in rows &&
       (projectFilter == "all" || r.projectId == projectFilter) &&
       (alertTypeFilter.AnyType? ||
        exists a :: a in inScope && a.kind == alertTypeFilter.Kind() && a.name == r.employeeName))
    ensures projectFilter == "all" && alertTypeFilter == AnyType ==> base == rows
  {
    var shown := RowShown(projectFilter, alertTypeFilter, inScope);
    base := Filter(rows, ProjectMatches(projectFilter));
    if alertTypeFilter != AnyType {
      var names := NamesWithAlert(inScope, alertTypeFilter.Kind());
      FilterConj(rows, ProjectMatches(projectFilter), HasName(names), shown);
      base := Filter(base, HasName(names));
    } else {
      FilterSamePredicate(rows, ProjectMatches(projectFilter), shown);
    }
    if projectFilter == "all" && alertTypeFilter == AnyType {
      FilterAllPass(rows, shown);
    }
  }

  // ---------------------------------------------------------------------
  // The tally per alert type

  /** The number of alerts of type `t`, counted from the left as the tally loop does. */
  function CountOf(alerts: seq<AlertItem>, t: AlertType): nat {
    if alerts == [] then 0
    else CountOf(alerts[..|alerts| - 1], t) + (if alerts[|alerts| - 1].kind == t then 1 else 0)
  }

  function OfKind(t: AlertType): AlertItem -> bool {
    (a: AlertItem) => a.kind == t
  }

  /** The tally of a type is the number of alerts of that type. */
  lemma {:induction false} CountOfIsFilterLength(alerts: seq<AlertItem>, t: AlertType)
    ensures CountOf(alerts, t) == |Filter(alerts, OfKind(t))|
  {
    if alerts != [] {
      var front, last := alerts[..|alerts| - 1], alerts[|alerts| - 1];
      CountOfIsFilterLength(front, t);
      assert alerts == front + [last];
      FilterAppend(front, [last], OfKind(t));
      assert |Filter([last], OfKind(t))| == if last.kind == t then 1 else 0 by {
        assert [last][1..] == [];
      }
    }
  }

  /** Every alert has exactly one type, so the four tallies add up to the number of alerts. */
  lemma {:induction false} CountsSum(alerts: seq<AlertItem>)
    ensures CountOf(alerts, Absent) + CountOf(alerts, WorkError) + CountOf(alerts, PtoPending) + CountOf(alerts, OtPending) == |alerts|
  {
    if alerts != [] {
      CountsSum(alerts[..|alerts| - 1]);
    }
  }

  /**
   * `countByType`: every type starts at 0 and each in-scope alert adds one to
   * its type. Each count is the number of in-scope alerts of that type and
   * the four counts sum to the number of in-scope alerts.
   */
  method CountByType(inScope: seq<AlertItem>) returns (counts: map<AlertType, nat>)
    ensures counts.Keys == AllAlertTypes
    ensures forall t :: t in counts ==> counts[t] == |Filter(inScope, OfKind(t))|
    ensures counts[Absent] + counts[WorkError] + counts[PtoPending] + counts[OtPending] == |inScope|
  {
    counts := map[Absent := 0, WorkError := 0, PtoPending := 0, OtPending := 0];
    for i := 0 to |inScope|
      invariant counts.Keys == AllAlertTypes
      invariant forall t :: t in counts ==> counts[t] == CountOf(inScope[..i], t)
    {
      assert inScope[..i + 1][..i] == inScope[..i];
      var t := inScope[i].kind;
      assert t == Absent || t == WorkError || t == PtoPending || t == OtPending;
      counts := counts[t := counts[t] + 1];
    }
    assert inScope[..|inScope|] == inScope;
    forall t | t in counts ensures counts[t] == |Filter(inScope, OfKind(t))| {
      CountOfIsFilterLength(inScope, t);
    }
    CountsSum(inScope);
  }

  // ---------------------------------------------------------------------
  // The project select's options

  function ProjectIds(rows: seq<AttendanceRecord>): (ids: seq<string>)
    ensures |ids| == |rows| && forall i :: 0 <= i < |rows| ==> ids[i] == rows[i].projectId
  {
    seq(|rows|, i requires 0 <= i < |rows| => rows[i].projectId)
  }

  /** The project name of the last row with project `id` (`""` when there is none). */
  function LastProjectName(rows: seq<AttendanceRecord>, id: string): string {
    if rows == [] then ""
    else if rows[|rows| - 1].projectId == id then rows[|rows| - 1].projectName
    else LastProjectName(rows[..|rows| - 1], id)
  }

  /**
   * The `Map` lookup of `projectOptions`: the position of the entry with key
   * `id`, or the number of entries when there is none.
   */
  method OptionIndex(options: seq<(string, string)>, id: string) returns (j: nat)
    ensures j <= |options|
    ensures j < |options| ==> options[j].0 == id
    ensures forall k :: 0 <= k < j ==> options[k].0 != id
  {
    j := 0;
    while j < |options| && options[j].0 != id
      invariant j <= |options|
      invariant forall k :: 0 <= k < j ==> options[k].0 != id
    {
      j := j + 1;
    }
  }

  /**
   * `projectOptions`: the entries of a `Map` into which every row put
   * `projectId -> projectName`, left to right. A `Map` keeps a key where it
   * was first inserted and overwrites its value, so the ids come in order of
   * first appearance and each carries the name of the last row with that id.
   */
  method ProjectOptions(rows: seq<AttendanceRecord>) returns (options: seq<(string, string)>)
    ensures |options| == |Distinct(ProjectIds(rows))|
    ensures forall k :: 0 <= k < |options| ==>
      options[k].0 == Distinct(ProjectIds(rows))[k] && options[k].1 == LastProjectName(rows, options[k].0)
  {
    ghost var ids := ProjectIds(rows);
    options := [];
    for i := 0 to |rows|
      invariant |options| == |Distinct(ids[..i])|
      invariant forall k :: 0 <= k < |options| ==>
        options[k].0 == Distinct(ids[..i])[k] && options[k].1 == LastProjectName(rows[..i], options[k].0)
    {
      var id, name := rows[i].projectId, rows[i].projectName;
      ghost var before := Distinct(ids[..i]);
      assert ids[..i + 1][..i] == ids[..i] && ids[..i + 1][i] == id;
      assert rows[..i + 1][..i] == rows[..i];
      DistinctNoDuplicates(ids[..i]);
      var j := OptionIndex(options, id);
      if j < |options| {
        assert id in before;
        options := options[j := (id, name)];
      } else {
        assert forall k :: 0 <= k < |before| ==> before[k] != id;
        options := options + [(id, name)];
      }
    }
    assert rows[..|rows|] == rows && ids[..|rows|] == ids;
  }
}
