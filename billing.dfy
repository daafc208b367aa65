/**
 * The billing list page (src/app/billing/page.tsx): the records selected by
 * the `approval` query parameter and the label, colour and variant of the
 * workflow and payment chips, with their fallbacks for a missing value.
 */
module Billing {
  import opened Wrappers
  import opened Seqs
  import opened QueryParam
  import Chips

  datatype BillingApproval = Draft | Pending | Issued | Sent | Paid

  datatype PaymentStatus = Unpaid | Paid | Overdue

  datatype BillingRecord = BillingRecord(
    id: string,
    projectName: string,
    clientName: string,
    billingPeriod: string,
    amount: int,
    approvalStatus: BillingApproval,
    paymentDueDate: string,
    paymentStatus: PaymentStatus,
    lastAction: string)

  /** The string literal of each workflow status, as the query parameter spells it. */
  function ApprovalName(s: BillingApproval): (name: string)
    ensures ApprovalFromName(name) == Some(s)
  {
    match s
    case Draft => "draft"
    case Pending => "pending"
    case Issued => "issued"
    case Sent => "sent"
    case Paid => "paid"
  }

  /** The workflow status a string literal names, if any. */
  function ApprovalFromName(name: string): Option<BillingApproval> {
    if name == "draft" then Some(Draft)
    else if name == "pending" then Some(Pending)
    else if name == "issued" then Some(Issued)
    else if name == "sent" then Some(Sent)
    else if name == "paid" then Some(BillingApproval.Paid)
    else None
  }

  /** A name that denotes a workflow status is that status's literal. */
  lemma ApprovalFromNameInverse(name: string)
    ensures ApprovalFromName(name).Some? ==> ApprovalName(ApprovalFromName(name).value) == name
  {
  }

  function RecordApprovalName(r: BillingRecord): string {
    ApprovalName(r.approvalStatus)
  }

  // ---------------------------------------------------------------------
  // Chips

  /** `approvalLabelMap`. */
  function ApprovalLabel(s: BillingApproval): string {
    match s
    case Draft => "ドラフト"
    case Pending => "承認待ち"
    case Issued => "発行済み"
    case Sent => "送付済み"
    case Paid => "入金済み"
  }

  /** `approvalColorMap`. */
  function ApprovalColor(s: BillingApproval): Chips.Color {
    match s
    case Draft => Chips.Default
    case Pending => Chips.Warning
    case Issued => Chips.Primary
    case Sent => Chips.Primary
    case Paid => Chips.Success
  }

  /** `paymentLabelMap`. */
  function PaymentLabel(s: PaymentStatus): string {
    match s
    case Unpaid => "未入金"
    case Paid => "入金済み"
    case Overdue => "入金遅延"
  }

  /** `paymentColorMap`. */
  function PaymentColor(s: PaymentStatus): Chips.Color {
    match s
    case Unpaid => Chips.Default
    case Paid => Chips.Success
    case Overdue => Chips.Error
  }

  /** A chip's label, colour and variant. */
  datatype Chip = Chip(caption: string, color: Chips.Color, variant: Chips.Variant)

  /**
   * The workflow cell: the label and colour of the status, or of "draft"
   * when the cell has no value; outlined exactly for a "draft" value.
   */
  function ApprovalChip(v: Option<BillingApproval>): (chip: Chip)
    ensures v.None? ==> chip.caption == ApprovalLabel(Draft) && chip.color == ApprovalColor(Draft)
    ensures v.Some? ==> chip.caption == ApprovalLabel(v.value) && chip.color == ApprovalColor(v.value)
    ensures chip.variant == Chips.Outlined <==> v == Some(Draft)
  {
    var s := v.GetOr(Draft);
    Chip(ApprovalLabel(s), ApprovalColor(s), if v == Some(Draft) then Chips.Outlined else Chips.Filled)
  }

  /**
   * The payment cell: the label and colour of the status, or of "unpaid"
   * when the cell has no value; outlined exactly for an "unpaid" value.
   */
  function PaymentChip(v: Option<PaymentStatus>): (chip: Chip)
    ensures v.None? ==> chip.caption == PaymentLabel(Unpaid) && chip.color == PaymentColor(Unpaid)
    ensures v.Some? ==> chip.caption == PaymentLabel(v.value) && chip.color == PaymentColor(v.value)
    ensures chip.variant == Chips.Outlined <==> v == Some(Unpaid)
  {
    var s := v.GetOr(Unpaid);
    Chip(PaymentLabel(s), PaymentColor(s), if v == Some(Unpaid) then Chips.Outlined else Chips.Filled)
  }

  /**
   * The fallback applies to label and colour but not to the variant: a cell
   * without a value reads "draft" ("unpaid") like a draft (unpaid) cell, yet
   * is drawn filled where the draft (unpaid) cell is outlined.
   */
  lemma MissingValueDrawnFilled()
    ensures ApprovalChip(None).caption == ApprovalChip(Some(Draft)).caption
    ensures ApprovalChip(None).variant == Chips.Filled && ApprovalChip(Some(Draft)).variant == Chips.Outlined
    ensures PaymentChip(None).caption == PaymentChip(Some(Unpaid)).caption
    ensures PaymentChip(None).variant == Chips.Filled && PaymentChip(Some(Unpaid)).variant == Chips.Outlined
  {
  }

  /**
   * Each table tells its statuses apart by label; the two tables share one
   * label, "入金済み", for the paid workflow status and the paid payment status.
   */
  lemma LabelTables(s: BillingApproval, s': BillingApproval, p: PaymentStatus, p': PaymentStatus)
    ensures ApprovalLabel(s) == ApprovalLabel(s') ==> s == s'
    ensures PaymentLabel(p) == PaymentLabel(p') ==> p == p'
    ensures ApprovalLabel(s) == PaymentLabel(p) <==> s == BillingApproval.Paid && p == PaymentStatus.Paid
  {
  }

  // ---------------------------------------------------------------------
  // Records selected by the query parameter

  /**
   * `rows`: all records when the `approval` parameter lists no name,
   * otherwise exactly those whose workflow status it lists, in order.
   */
  function Rows(records: seq<BillingRecord>, approvalParam: Option<string>): (rows: seq<BillingRecord>)
    ensures IsSubsequence(rows, records)
    ensures !Narrows(approvalParam) ==> rows == records
    ensures forall r :: r in rows <==>
      (r in records && (!Narrows(approvalParam) || ApprovalName(r.approvalStatus) in ParseList(approvalParam).value))
  {
    FilterByParam(records, RecordApprovalName, approvalParam)
  }

  /** Selecting the selected rows again by the same parameter changes nothing. */
  lemma RowsIdempotent(records: seq<BillingRecord>, approvalParam: Option<string>)
    ensures Rows(Rows(records, approvalParam), approvalParam) == Rows(records, approvalParam)
  {
    FilterByParamIdempotent(records, RecordApprovalName, approvalParam);
  }

  /**
   * A parameter that names no workflow status (a misspelt one, say) selects
   * no row at all rather than every row.
   */
  lemma UnknownNamesSelectNothing(records: seq<BillingRecord>, approvalParam: Option<string>)
    requires Narrows(approvalParam)
    requires forall name :: name in ParseList(approvalParam).value ==> ApprovalFromName(name).None?
    ensures Rows(records, approvalParam) == []
  {
    OnlyUnknownNamesEmpty(records, RecordApprovalName, approvalParam);
  }
}
