/**
 * The attendance record shapes of src/types/attendance.ts. Optional
 * properties become `Option` fields. Hours are `real` because an edited
 * value may be fractional; no arithmetic is done on them. Yen amounts are
 * integers.
 */
module AttendanceTypes {
  import opened Wrappers

  datatype MatchingStatus = Unverified | Matched | Mismatch

  datatype ApprovalStatus = Draft | Pending | Approved | Rejected

  /** The string literal of each approval status, as the query parameter spells it. */
  function ApprovalName(s: ApprovalStatus): (name: string)
    ensures ApprovalFromName(name) == Some(s)
  {
    match s
    case Draft => "draft"
    case Pending => "pending"
    case Approved => "approved"
    case Rejected => "rejected"
  }

  /** The approval status a string literal names, if any. */
  function ApprovalFromName(name: string): Option<ApprovalStatus> {
    if name == "draft" then Some(Draft)
    else if name == "pending" then Some(Pending)
    else if name == "approved" then Some(Approved)
    else if name == "rejected" then Some(Rejected)
    else None
  }

  datatype Severity = Error | Warning

  /** `field` is the name of an `AttendanceRecord` property (`keyof AttendanceRecord`). */
  datatype ValidationIssue = ValidationIssue(field: string, severity: Severity, message: string)

  datatype AttendanceRecord = AttendanceRecord(
    id: string,
    projectId: string,
    projectName: string,
    employeeId: string,
    employeeName: string,
    department: Option<string>,
    workPeriod: string,
    totalWorkHours: real,
    overtimeHours: real,
    midnightHours: real,
    holidayHours: real,
    approvalStatus: ApprovalStatus,
    matchingStatus: MatchingStatus,
    billingUnitPrice: int,
    expectedBillingAmount: int,
    reconciliationNotes: Option<string>,
    evidenceFileName: Option<string>,
    uploadedAt: Option<string>,
    validationIssues: Option<seq<ValidationIssue>>)

  /** A name that denotes an approval status is that status's literal. */
  lemma ApprovalFromNameInverse(name: string)
    ensures ApprovalFromName(name).Some? ==> ApprovalName(ApprovalFromName(name).value) == name
  {
  }

  /** The status name `approvals.includes(r.approvalStatus)` compares. */
  function RecordApprovalName(r: AttendanceRecord): string {
    ApprovalName(r.approvalStatus)
  }
}
