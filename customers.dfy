/**
 * The derivations of the customer list page (src/app/customers/page.tsx):
 * the status chip tables, the four-criterion search, the summary counts,
 * the industry and department options, the next customer id and the record
 * that the create dialog builds from its form.
 */
module Customers {
  import opened Wrappers
  import opened Seqs
  import opened Text
  import Chips

  datatype CustomerStatus = Prospect | Active | Inactive

  datatype Segment = Enterprise | SMB | Mid

  datatype CustomerRecord = CustomerRecord(
    id: string,
    name: string,
    industry: string,
    department: string,
    segment: Segment,
    status: CustomerStatus,
    owner: string,
    projects: int,
    mrr: int,
    lastActivity: string)

  // ---------------------------------------------------------------------
  // Status chips

  /** `statusLabel`. */
  function StatusLabel(s: CustomerStatus): string {
    match s
    case Prospect => "見込み"
    case Active => "取引中"
    case Inactive => "非取引"
  }

  /** `statusColor`. */
  function StatusColor(s: CustomerStatus): Chips.Color {
    match s
    case Prospect => Chips.Primary
    case Active => Chips.Success
    case Inactive => Chips.Warning
  }

  /** The status cell: label and colour of the status, or of "prospect" when the cell has no value. */
  function StatusChip(v: Option<CustomerStatus>): (chip: (string, Chips.Color))
    ensures v.None? ==> chip == ("見込み", Chips.Primary)
    ensures v.Some? ==> chip == (StatusLabel(v.value), StatusColor(v.value))
  {
    var s := v.GetOr(Prospect);
    (StatusLabel(s), StatusColor(s))
  }

  /** Both tables tell the three statuses apart. */
  lemma StatusTablesDistinguish(s: CustomerStatus, s': CustomerStatus)
    ensures StatusLabel(s) == StatusLabel(s') ==> s == s'
    ensures StatusColor(s) == StatusColor(s') ==> s == s'
  {
  }

  // ---------------------------------------------------------------------
  // The search

  /** The status select: `"all"` or one status. */
  datatype StatusChoice = AnyStatus | OnlyStatus(status: CustomerStatus)

  /**
   * The search predicate of `filtered`: all four criteria must hold. The text
   * criterion accepts a record exactly when the text occurs in its name or in
   * its id: the empty text occurs in every string, so the explicit case for it
   * agrees with the substring test.
   */
  function Matches(text: string, status: StatusChoice, industry: string, dept: string): (m: CustomerRecord -> bool)
    ensures forall c :: m(c) <==>
      ((Contains(c.name, text) || Contains(c.id, text)) &&
       (status.AnyStatus? || c.status == status.status) &&
       (industry == "all" || c.industry == industry) &&
       (dept == "all" || c.department == dept))
  {
    assert forall s: string :: text == [] ==> Contains(s, text) by {
      forall s: string ensures text == [] ==> Contains(s, text) {
        assert text == [] ==> StartsWith(s, text);
      }
    }
    (c: CustomerRecord) =>
      var okText := if text != [] then Contains(c.name, text) || Contains(c.id, text) else true;
      var okStatus := if status.AnyStatus? then true else c.status == status.status;
      var okIndustry := if industry == "all" then true else c.industry == industry;
      var okDept := if dept == "all" then true else c.department == dept;
      okText && okStatus && okIndustry && okDept
  }

  /**
   * `filtered`: the records, in their order, that pass the text, status,
   * industry and department criteria; with the empty text and every select
   * on "all" it is the whole list.
   */
  function Filtered(data: seq<CustomerRecord>, text: string, status: StatusChoice, industry: string, dept: string)
    : (shown: seq<CustomerRecord>)
    ensures IsSubsequence(shown, data)
    ensures forall c :: c in shown <==>
      (c in data && (Contains(c.name, text) || Contains(c.id, text)) &&
       (status.AnyStatus? || c.status == status.status) &&
       (industry == "all" || c.industry == industry) &&
       (dept == "all" || c.department == dept))
    ensures text == [] && status.AnyStatus? && industry == "all" && dept == "all" ==> shown == data
  {
    var p := Matches(text, status, industry, dept);
    if text == [] && status.AnyStatus? && industry == "all" && dept == "all" then
      FilterAllPass(data, p);
      Filter(data, p)
    else
      Filter(data, p)
  }

  // ---------------------------------------------------------------------
  // The summary cards

  datatype Summary = Summary(total: nat, active: nat, prospect: nat, atRisk: nat)

  function HasStatus(s: CustomerStatus): CustomerRecord -> bool {
    (c: CustomerRecord) => c.status == s
  }

  /**
   * `summary`: the number of records and the number with each status. Every
   * record has exactly one status, so the three counts add up to the total.
   */
  function ComputeSummary(data: seq<CustomerRecord>): (s: Summary)
    ensures s.total == |data|
    ensures s.active + s.prospect + s.atRisk == s.total
  {
    FilterPartition3(data, HasStatus(Active), HasStatus(Prospect), HasStatus(Inactive));
    Summary(|data|, |Filter(data, HasStatus(Active))|, |Filter(data, HasStatus(Prospect))|,
      |Filter(data, HasStatus(Inactive))|)
  }

  /** Appending a record grows the total and the count of the record's status by one and leaves the others. */
  lemma SummaryAfterAppend(data: seq<CustomerRecord>, c: CustomerRecord)
    ensures var before, after := ComputeSummary(data), ComputeSummary(data + [c]);
      after.total == before.total + 1 &&
      after.active == before.active + (if c.status == Active then 1 else 0) &&
      after.prospect == before.prospect + (if c.status == Prospect then 1 else 0) &&
      after.atRisk == before.atRisk + (if c.status == Inactive then 1 else 0)
  {
    FilterAppend(data, [c], HasStatus(Active));
    FilterAppend(data, [c], HasStatus(Prospect));
    FilterAppend(data, [c], HasStatus(Inactive));
  }

  // ---------------------------------------------------------------------
  // The industry and department options

  function Industries(data: seq<CustomerRecord>): (xs: seq<string>)
    ensures |xs| == |data| && forall i :: 0 <= i < |data| ==> xs[i] == data[i].industry
  {
    seq(|data|, i requires 0 <= i < |data| => data[i].industry)
  }

  function Departments(data: seq<CustomerRecord>): (xs: seq<string>)
    ensures |xs| == |data| && forall i :: 0 <= i < |data| ==> xs[i] == data[i].department
  {
    seq(|data|, i requires 0 <= i < |data| => data[i].department)
  }

  /** A record's industry (or department) read off `data` is exactly the entry at that record's position. */
  lemma ColumnMembership(data: seq<CustomerRecord>)
    ensures forall x :: x in Industries(data) <==> exists c :: c in data && c.industry == x
    ensures forall x :: x in Departments(data) <==> exists c :: c in data && c.department == x
  {
    var ind, dep := Industries(data), Departments(data);
    forall x | x in ind ensures exists c :: c in data && c.industry == x {
      var i :| 0 <= i < |ind| && ind[i] == x;
      assert data[i] in data;
    }
    forall x | x in dep ensures exists c :: c in data && c.department == x {
      var i :| 0 <= i < |dep| && dep[i] == x;
      assert data[i] in data;
    }
    forall c | c in data ensures c.industry in ind && c.department in dep {
      var i :| 0 <= i < |data| && data[i] == c;
      assert ind[i] == c.industry && dep[i] == c.department;
    }
  }

  /**
   * `industryOptions`: every record adds its industry to a `Set`, left to
   * right, and the options are the set's entries. They are the distinct
   * industries, each once, in order of first appearance.
   */
  method IndustryOptions(data: seq<CustomerRecord>) returns (options: seq<string>)
    ensures options == Distinct(Industries(data))
    ensures NoDuplicates(options)
    ensures forall x :: x in options <==> exists c :: c in data && c.industry == x
    ensures forall i, j :: 0 <= i < j < |options| ==>
      FirstIndex(Industries(data), options[i]) < FirstIndex(Industries(data), options[j])
  {
    ghost var xs := Industries(data);
    options := [];
    for i := 0 to |data|
      invariant options == Distinct(xs[..i])
    {
      var industry := data[i].industry;
      assert xs[..i + 1][..i] == xs[..i] && xs[..i + 1][i] == industry;
      if industry !in options {
        options := options + [industry];
      }
    }
    assert xs[..|data|] == xs;
    DistinctNoDuplicates(xs);
    DistinctMembership(xs);
    DistinctFirstAppearance(xs);
    ColumnMembership(data);
  }

  /** The department select's options, `Array.from(new Set(data.map((c) => c.department)))`. */
  function DepartmentOptions(data: seq<CustomerRecord>): (options: seq<string>)
    ensures NoDuplicates(options)
    ensures forall x :: x in options <==> exists c :: c in data && c.department == x
    ensures forall i, j :: 0 <= i < j < |options| ==>
      FirstIndex(Departments(data), options[i]) < FirstIndex(Departments(data), options[j])
  {
    DistinctNoDuplicates(Departments(data));
    DistinctMembership(Departments(data));
    DistinctFirstAppearance(Departments(data));
    ColumnMembership(data);
    Distinct(Departments(data))
  }

  // ---------------------------------------------------------------------
  // The next customer id

  /** `id.replace(/\D/g, "")`: the ASCII digits of `id`, in order. */
  function StripNonDigits(id: string): (digits: string)
    ensures AllDigits(digits)
    ensures IsSubsequence(digits, id)
    ensures forall c :: c in digits <==> c in id && IsDigit(c)
    ensures forall c :: multiset(digits)[c] == if IsDigit(c) then multiset(id)[c] else 0
  {
    FilterCounts(id, IsDigit);
    Filter(id, IsDigit)
  }

  /**
   * `parseInt(id.replace(/\D/g, ""), 10)` where it is finite: the number
   * the digits of `id` spell, or `None` (`NaN`) for an id without digits.
   */
  function IdNumber(id: string): (n: Option<nat>)
    ensures n.None? <==> forall i :: 0 <= i < |id| ==> !IsDigit(id[i])
  {
    var digits := StripNonDigits(id);
    if digits == [] then None else Some(DecimalValue(digits))
  }

  /**
   * The `reduce` of `nextId`, for any number a record yields: from 0, each
   * record's number replaces the running value when it is larger, and a record
   * without one (`NaN`) is skipped. The result bounds every record's number
   * and is 0 or one of them.
   */
  function MaxNumber<T(==,!new)>(data: seq<T>, number: T -> Option<nat>): (max: nat)
    ensures forall c :: c in data && number(c).Some? ==> number(c).value <= max
    ensures max == 0 || exists c :: c in data && number(c) == Some(max)
  {
    if data == [] then 0
    else
      var front, last := data[..|data| - 1], data[|data| - 1];
      assert data == front + [last];
      var m := MaxNumber(front, number);
      var n := number(last);
      if n.Some? && n.value > m then n.value else m
  }

  /** The `reduce` of `nextId` with the numbers of the ids. */
  function MaxIdNumber(data: seq<CustomerRecord>): (max: nat)
    ensures forall c :: c in data && IdNumber(c.id).Some? ==> IdNumber(c.id).value <= max
    ensures max == 0 || exists c :: c in data && IdNumber(c.id) == Some(max)
  {
    MaxNumber(data, (c: CustomerRecord) => IdNumber(c.id))
  }

  /** The id prefix of every generated id. */
  const IdPrefix: string := "CUST-"

  /** `nextId`: "CUST-" and one more than the largest number, zero-padded to at least four digits. */
  function NextId(data: seq<CustomerRecord>): string
  {
    IdPrefix + PaddedNumber(MaxIdNumber(data) + 1)
  }

  /**
   * `String(n).padStart(4, "0")`: at least four digits that spell `n`, with
   * zeros added only to reach four digits.
   */
  function PaddedNumber(n: nat): (p: string)
    ensures AllDigits(p) && |p| >= 4 && DecimalValue(p) == n
    ensures |p| > 4 ==> p[0] != '0'
  {
    var d := NatToDecimal(n);
    LeadingZeros(if |d| < 4 then 4 - |d| else 0, d);
    DecimalRoundTrip(n);
    PadStart(d, 4, '0')
  }

  /** The number of "CUST-" followed by digits is the number those digits spell. */
  lemma PrefixedIdNumber(digits: string)
    requires AllDigits(digits) && digits != []
    ensures IdNumber(IdPrefix + digits) == Some(DecimalValue(digits))
  {
    forall x | x in IdPrefix ensures !IsDigit(x) {
    }
    FilterNonePass(IdPrefix, IsDigit);
    FilterAllPass(digits, IsDigit);
    FilterAppend(IdPrefix, digits, IsDigit);
    assert StripNonDigits(IdPrefix + digits) == [] + digits == digits;
  }

  /** "CUST-" and the padded digits of `n` is an id whose number is `n`. */
  lemma GeneratedId(n: nat)
    ensures IdNumber(IdPrefix + PaddedNumber(n)) == Some(n)
    ensures StartsWith(IdPrefix + PaddedNumber(n), IdPrefix)
  {
    var p := PaddedNumber(n);
    PrefixedIdNumber(p);
    assert (IdPrefix + p)[..|IdPrefix|] == IdPrefix;
  }

  /**
   * The number of the next id is one more than the largest number among the
   * existing ids (0 when none has digits).
   */
  lemma NextIdNumber(data: seq<CustomerRecord>)
    ensures IdNumber(NextId(data)) == Some(MaxIdNumber(data) + 1)
  {
    GeneratedId(MaxIdNumber(data) + 1);
  }

  /** The next id is "CUST-" followed by at least four digits, with no leading zero beyond four. */
  lemma NextIdShape(data: seq<CustomerRecord>)
    ensures StartsWith(NextId(data), IdPrefix) && |NextId(data)| >= |IdPrefix| + 4
    ensures AllDigits(NextId(data)[|IdPrefix|..])
    ensures |NextId(data)| > |IdPrefix| + 4 ==> NextId(data)[|IdPrefix|] != '0'
  {
    var p := PaddedNumber(MaxIdNumber(data) + 1);
    assert NextId(data) == IdPrefix + p;
    assert (IdPrefix + p)[..|IdPrefix|] == IdPrefix && (IdPrefix + p)[|IdPrefix|..] == p;
  }

  /** The next id is none of the existing ids: its number exceeds every existing id's number. */
  lemma NextIdFresh(data: seq<CustomerRecord>)
    ensures forall c :: c in data ==> c.id != NextId(data)
  {
    NextIdNumber(data);
  }

  /** On an empty list the first id is "CUST-0001". */
  lemma FirstNextId()
    ensures NextId([]) == "CUST-0001"
  {
    assert NatToDecimal(1) == "1";
    assert Repeat('0', 3) == "000";
  }

  // ---------------------------------------------------------------------
  // The create dialog

  /**
   * The create dialog's form (`newCustomer`). `projects` and `mrr` hold
   * `Number(input)`, with `None` for `NaN`.
   */
  datatype Draft = Draft(
    name: string,
    industry: string,
    department: string,
    segment: Segment,
    status: CustomerStatus,
    owner: string,
    projects: Option<int>,
    mrr: Option<int>,
    lastActivity: string)

  /** The form's initial and reset value; `today` is the current time in ISO form. */
  function DefaultDraft(today: string): (d: Draft)
    ensures d.segment == SMB && d.status == Prospect
    ensures d.name == d.industry == d.department == d.owner == []
    ensures d.projects == d.mrr == Some(0)
    ensures d.lastActivity == Prefix(today, 10)
  {
    Draft("", "", "", SMB, Prospect, "", Some(0), Some(0), Prefix(today, 10))
  }

  /** `Number(v) || 0`: `NaN` and `0` become 0, any other number is kept. */
  function OrZero(v: Option<int>): (n: int)
    ensures n == 0 <==> v.None? || v.value == 0
    ensures n != 0 ==> v == Some(n)
  {
    v.GetOr(0)
  }

  const UnnamedCustomer: string := "未命名顧客"
  const NotSet: string := "未設定"
  const Unassigned: string := "未割当"

  /** A fallback text is its own trimmed value and is not empty. */
  lemma FallbacksTrimmed()
    ensures Trim(UnnamedCustomer) == UnnamedCustomer != []
    ensures Trim(NotSet) == NotSet != []
    ensures Trim(Unassigned) == Unassigned != []
  {
    UnnamedCustomerTrimmed();
    NotSetTrimmed();
    UnassignedTrimmed();
  }

  lemma UnnamedCustomerTrimmed()
    ensures Trim(UnnamedCustomer) == UnnamedCustomer != []
  {
    assert |UnnamedCustomer| == 5 && UnnamedCustomer[0] == '未' && UnnamedCustomer[4] == '客';
    TrimUnpadded(UnnamedCustomer);
  }

  lemma NotSetTrimmed()
    ensures Trim(NotSet) == NotSet != []
  {
    assert |NotSet| == 3 && NotSet[0] == '未' && NotSet[2] == '定';
    TrimUnpadded(NotSet);
  }

  lemma UnassignedTrimmed()
    ensures Trim(Unassigned) == Unassigned != []
  {
    assert |Unassigned| == 3 && Unassigned[0] == '未' && Unassigned[2] == '当';
    TrimUnpadded(Unassigned);
  }

  /** Ids that no two records share. */
  predicate UniqueIds(data: seq<CustomerRecord>) {
    forall i, j :: 0 <= i < j < |data| ==> data[i].id != data[j].id
  }

  /**
   * The record `handleCreate` builds from the form, given the id it takes
   * (`nextId`): the trimmed name, industry, department and owner, each
   * replaced by its placeholder when it is blank; `projects` and `mrr` with
   * `|| 0`; segment, status and date as entered.
   */
  function BuildRecord(id: string, d: Draft): (rec: CustomerRecord)
    ensures rec.id == id
    ensures Trim(d.name) == [] ==> rec.name == UnnamedCustomer
    ensures Trim(d.name) != [] ==> rec.name == Trim(d.name)
    ensures Trim(d.industry) == [] ==> rec.industry == NotSet
    ensures Trim(d.industry) != [] ==> rec.industry == Trim(d.industry)
    ensures Trim(d.department) == [] ==> rec.department == NotSet
    ensures Trim(d.department) != [] ==> rec.department == Trim(d.department)
    ensures Trim(d.owner) == [] ==> rec.owner == Unassigned
    ensures Trim(d.owner) != [] ==> rec.owner == Trim(d.owner)
    ensures rec.segment == d.segment && rec.status == d.status && rec.lastActivity == d.lastActivity
    ensures rec.projects == 0 <==> d.projects.None? || d.projects.value == 0
    ensures rec.mrr == 0 <==> d.mrr.None? || d.mrr.value == 0
    ensures d.projects.Some? && d.projects.value != 0 ==> rec.projects == d.projects.value
    ensures d.mrr.Some? && d.mrr.value != 0 ==> rec.mrr == d.mrr.value
  {
    CustomerRecord(id, TrimOr(d.name, UnnamedCustomer), TrimOr(d.industry, NotSet),
      TrimOr(d.department, NotSet), d.segment, d.status, TrimOr(d.owner, Unassigned),
      OrZero(d.projects), OrZero(d.mrr), d.lastActivity)
  }

  /** Whatever the form holds, the created record's name, industry, department and owner are non-empty and trimmed. */
  lemma CreatedTextFilled(id: string, d: Draft)
    ensures var rec := BuildRecord(id, d);
      rec.name != [] && Trim(rec.name) == rec.name &&
      rec.industry != [] && Trim(rec.industry) == rec.industry &&
      rec.department != [] && Trim(rec.department) == rec.department &&
      rec.owner != [] && Trim(rec.owner) == rec.owner
  {
    FallbacksTrimmed();
    TrimOrFilled(d.name, UnnamedCustomer);
    TrimOrFilled(d.industry, NotSet);
    TrimOrFilled(d.department, NotSet);
    TrimOrFilled(d.owner, Unassigned);
  }

  /**
   * Appending the record created with the next id keeps the ids unique,
   * keeps every earlier record where it was and grows the list by one.
   */
  lemma CreateKeepsIdsUnique(data: seq<CustomerRecord>, d: Draft)
    requires UniqueIds(data)
    ensures var after := data + [BuildRecord(NextId(data), d)];
      UniqueIds(after) && |after| == |data| + 1 && after[..|data|] == data
  {
    var rec := BuildRecord(NextId(data), d);
    var after := data + [rec];
    NextIdFresh(data);
    forall i, j | 0 <= i < j < |after| ensures after[i].id != after[j].id {
      if j == |data| {
        assert after[i] == data[i] && data[i] in data;
      } else {
        assert after[i] == data[i] && after[j] == data[j];
      }
    }
    assert after[..|data|] == data;
  }

  // ---------------------------------------------------------------------
  // The page's initial data

  const InitialCustomers: seq<CustomerRecord> := [
    CustomerRecord("CUST-1001", "株式会社アバンス", "製造", "テックフラッグ事業部", Enterprise, Active, "田中 遥", 3, 820000, "2025-09-29"),
    CustomerRecord("CUST-1002", "クライアントA", "金融", "管理事業部", Mid, Prospect, "佐藤 健", 1, 0, "2025-09-25"),
    CustomerRecord("CUST-1003", "株式会社ユナイト", "通信・インフラ", "DC事業部", Enterprise, Active, "鈴木 智子", 2, 680000, "2025-09-27"),
    CustomerRecord("CUST-1004", "クライアントB", "流通・小売", "管理事業部", SMB, Inactive, "山田 樹", 0, 0, "2025-08-30")
  ]

  /** The initial ids are unique. */
  lemma InitialIdsUnique()
    ensures UniqueIds(InitialCustomers)
  {
  }
}
