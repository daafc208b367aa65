# Attendance, customer and billing list logic

A model, in Dafny, of the client-side logic of three pages in a management
console mock-up. Each page holds a static list of records and derives from it
what it shows.

- **Attendance** (`src/app/attendance/page.tsx`):
  - the records that the `approval` query parameter selects;
  - the month in view, and the alerts in scope for it;
  - the rows left after the project and alert-type selects;
  - the alert tally behind the four summary chips;
  - the options of the project select;
  - the leave (PTO) and overtime request lists, with their status multi-selects and their "all" entry;
  - the summary chips, which switch tab and preset a filter;
  - the edited-hours check, the `workPeriod` label, and the label and colour tables.
- **Customers** (`src/app/customers/page.tsx`):
  - the four-criterion search;
  - the summary counts;
  - the industry and department options;
  - the next customer id;
  - the create dialog: it builds a record from the form, appends it, closes itself and resets the form.
- **Billing** (`src/app/billing/page.tsx`):
  - the same `approval` parameter filter;
  - the workflow and payment chip tables, with their fallbacks for a missing value.

Modules:

- `Wrappers`: `Option`.
- `Seqs`: filter, subsequence, distinct elements in order of first appearance.
- `Text`: the JavaScript string operations the pages use.
  - `split`, `join`, `includes`, `startsWith`, `trim`, `slice(0, n)`.
  - `replace` with a one-character pattern, `padStart`.
  - `String(n)`, and `parseInt` of a digit string.
- `QueryParam`: the parameter parse and filter shared by attendance and billing.
- `Chips`: chip colours and variants.
- `AttendanceTypes`: the record shapes of `src/types/attendance.ts`.
- `Attendance`, `AttendanceRequests`.
- `AttendanceView`: the page's view state, as a class.
- `Customers`.
- `CustomersPage`: the page's list, dialog flag and form, as a class.
- `Billing`.

Form of the model:

- Derivations the source writes as `filter`/`includes`/`reduce` expressions are functions.
- `countByType`, `projectOptions`, `filteredRows` and `industryOptions` update local variables step by step. They are methods, each proved equal to a specification function whose properties are lemmas.
- The attendance view state and the customer page state are classes whose methods update their fields in place. Each method states its whole new state, and the customer page's methods keep the invariant that no two customers share an id.

Modelling choices:

- Status values stay strings wherever the source compares them as strings. The parameter is split into `seq<string>` names, and a record matches when the string literal of its status is among them. So an unknown name matches nothing.
- Hours are `real`. The page does no arithmetic on them, only the 0–200 range check. Yen amounts and counts are integers.
- `Number(x)` of a form input is `Option<int>`, with `None` for `NaN`.
- The current time is a parameter: `nowIso` for the attendance month fallback, `today` for the customer form's date.

## Model

| member | source | states |
|---|---|---|
| QueryParam.ParseList | src/app/attendance/page.tsx:272-274 | no list exactly for a missing or empty parameter; otherwise the names are exactly the non-empty comma-separated pieces, and none contains a comma |
| QueryParam.FilterByParam | src/app/attendance/page.tsx:271-275 | the rows are a subsequence of the records; all records when the parameter names nothing; otherwise exactly the records whose status name is listed |
| QueryParam.NoParamKeepsAll | src/app/attendance/page.tsx:272-275 | a missing or empty parameter keeps every record in order |
| QueryParam.OnlyCommasKeepsAll | src/app/attendance/page.tsx:273-275 | a parameter of commas only names nothing once empty pieces are dropped, so every record is kept |
| QueryParam.NarrowedRows | src/app/attendance/page.tsx:275 | a parameter that names something gives exactly the filter by membership in the list |
| QueryParam.FilterByParamIdempotent | src/app/billing/page.tsx:182 | applying the same parameter twice equals applying it once |
| QueryParam.OnlyUnknownNamesEmpty | src/app/billing/page.tsx:179-182 | a non-empty list naming no record's status gives the empty list, not the full one |
| Seqs.Filter | src/app/customers/page.tsx:115-121 | `filter` keeps the passing elements in their order: a subsequence of the input holding exactly its passing elements |
| Seqs.FilterCounts | src/app/customers/page.tsx:115-121 | `filter` keeps every occurrence of a passing element and none of a failing one |
| Seqs.Distinct | src/app/customers/page.tsx:108-112 | the entries of a `Set` filled left to right are at most as many as the input |
| Seqs.DistinctMembership | src/app/customers/page.tsx:108-112 | the `Set` holds every input element and nothing else |
| Seqs.DistinctNoDuplicates | src/app/customers/page.tsx:108-112 | the `Set` holds each element once |
| Seqs.DistinctFirstAppearance | src/app/customers/page.tsx:108-112 | `Array.from(set)` lists the elements in order of first insertion |
| Text.Split | src/app/attendance/page.tsx:273 | `split` gives at least one piece, no piece contains the separator, and every character of a piece is in the input |
| Text.JoinSplit | src/app/attendance/page.tsx:273 | joining the pieces with the separator gives the input back |
| Text.SplitOnlySeparators | src/app/attendance/page.tsx:273 | a string of separators only splits into empty pieces |
| Text.ContainsAt | src/app/customers/page.tsx:116 | `includes` holds exactly when the text occurs at some position |
| Text.Prefix | src/app/attendance/page.tsx:284 | `slice(0, n)` is a prefix of length min(n, length) |
| Text.Trim | src/app/customers/page.tsx:143-148 | `trim()` neither starts nor ends with whitespace, and the input is whitespace, then the result, then whitespace |
| Text.TrimPadded | src/app/customers/page.tsx:143-148 | non-blank text with no whitespace at its ends, padded by whitespace on either side, trims back to exactly that text |
| Text.TrimStart | src/app/customers/page.tsx:144 | the result is a suffix of the input that does not start with whitespace, and it drops only whitespace |
| Text.TrimEnd | src/app/customers/page.tsx:144 | the result is a prefix of the input that does not end with whitespace, and it drops only whitespace |
| Text.TrimShape | src/app/customers/page.tsx:144-148 | `trim()` is a contiguous piece of the input without whitespace at either end, and it is empty exactly when the input is all whitespace |
| Text.TrimEmptyIff | src/app/customers/page.tsx:143-148 | the trimmed text is empty exactly when every character is whitespace |
| Text.TrimIdempotent | src/app/customers/page.tsx:144 | trimming twice equals trimming once |
| Text.TrimUnpadded | src/app/customers/page.tsx:143-148 | a text without whitespace at either end is its own trimmed value |
| Text.TrimOr | src/app/customers/page.tsx:144-148 | `value.trim() \|\| fallback` is the trimmed text, or the fallback when that is empty |
| Text.TrimOrFilled | src/app/customers/page.tsx:143-148 | with a non-empty trimmed fallback, `value.trim() \|\| fallback` is non-empty and trimmed |
| Text.NatToDecimal | src/app/customers/page.tsx:137 | `String(n)` is a non-empty digit string without a leading zero |
| Text.DecimalRoundTrip | src/app/customers/page.tsx:134-137 | reading back the digits `String(n)` writes gives `n` |
| Text.LeadingZeros | src/app/customers/page.tsx:137 | zero padding keeps a digit string's value |
| Text.PadStart | src/app/customers/page.tsx:137 | `padStart` yields length max(width, length), padding characters followed by the input |
| Text.DecimalValue | src/app/customers/page.tsx:134-135 | `parseInt` of a digit string is 0 exactly when every digit is "0" |
| Text.ReplaceFirstAt | src/app/attendance/page.tsx:146 | only the first occurrence of the pattern is replaced; the text before and after it is kept |
| Text.ReplaceFirstAbsent | src/app/attendance/page.tsx:146 | without an occurrence nothing changes |
| AttendanceTypes.ApprovalName | src/types/attendance.ts:3 | the literal of each approval status names that status back |
| AttendanceTypes.ApprovalFromNameInverse | src/types/attendance.ts:3 | a name that denotes an approval status is that status's literal |
| Attendance.LabelsDistinguishStatuses | src/app/attendance/page.tsx:124-135 | the approval and matching label tables give distinct statuses distinct labels |
| Attendance.ApprovalChipLabel | src/app/attendance/page.tsx:195 | the approval chip shows the status's label, and "pending"'s label when the cell has no value |
| Attendance.ApprovalChipColor | src/app/attendance/page.tsx:196 | green exactly for approved, red exactly for rejected, plain otherwise |
| Attendance.ApprovalChipVariant | src/app/attendance/page.tsx:197 | filled exactly for approved or rejected |
| Attendance.MatchingChip | src/app/attendance/page.tsx:206 | label and colour of the matching status, "unverified"'s when the cell has no value |
| Attendance.HoursEditError | src/app/attendance/page.tsx:158-161 | an edited total is flagged exactly when it is not a number or lies outside 0..200 |
| Attendance.AmountCellFlagged | src/app/attendance/page.tsx:183-185 | the amount cell is marked exactly when some validation issue is about `expectedBillingAmount` |
| Attendance.AnyIssueAbout | src/app/attendance/page.tsx:184 | `some(issue => issue.field === f)` holds exactly when some issue has that field |
| Attendance.FormatWorkPeriod | src/app/attendance/page.tsx:146 | an empty value shows "-"; any other value's label ends in "月", and a value without "-" is shown unchanged followed by "月" |
| Attendance.FormatWorkPeriodYearMonth | src/app/attendance/page.tsx:146 | "YYYY-MM" is shown as "YYYY年MM月" |
| Attendance.FormatWorkPeriodOnlyFirstDash | src/app/attendance/page.tsx:146 | a value with two dashes keeps the second: "2025-09-30" becomes "2025年09-30月" |
| Attendance.Rows | src/app/attendance/page.tsx:271-275 | the selected records are a subsequence, holding exactly the records whose approval literal is listed, or all when none is listed |
| Attendance.CurrentMonth | src/app/attendance/page.tsx:284 | the first row's `workPeriod`, or the first seven characters of the current time when there is no row |
| Attendance.SummaryChipLabel | src/app/attendance/page.tsx:335 | the label is the type's label and a space, then the count in decimal digits without a leading zero, then "件" |
| Attendance.SummaryChipsDistinct | src/app/attendance/page.tsx:248-252 | the four summary chips differ in colour and in label, and none uses the default colour |
| Attendance.AlertInScope | src/app/attendance/page.tsx:285-292 | an alert is in scope exactly when its date starts with the month and its name is some selected row's employee name; order is kept |
| Attendance.FilteredRows | src/app/attendance/page.tsx:294-301 | the two-stage filter equals the one-pass filter by project and alert type; a row stays exactly when its project is chosen (or "all") and the chosen type (unless "all") has an in-scope alert with its employee's name; both "all" give the rows unchanged |
| Attendance.RowShown | src/app/attendance/page.tsx:294-301 | a row stays exactly when it is of the chosen project and, with an alert type chosen, some in-scope alert of that type carries its employee name |
| Attendance.CountOfIsFilterLength | src/app/attendance/page.tsx:303-306 | the tally of a type is the number of in-scope alerts of that type |
| Attendance.CountsSum | src/app/attendance/page.tsx:303-306 | the four tallies add up to the number of in-scope alerts |
| Attendance.CountByType | src/app/attendance/page.tsx:303-307 | every type has a count; each count is the number of in-scope alerts of its type; the counts sum to the number of in-scope alerts |
| Attendance.OptionIndex | src/app/attendance/page.tsx:281 | the `Map` lookup finds the first entry with the key, or reports that none has it |
| Attendance.ProjectOptions | src/app/attendance/page.tsx:279-283 | one option per distinct project id, in order of first appearance, each paired with the name of the last row with that id |
| AttendanceRequests.PtoFiltered | src/app/attendance/page.tsx:311-314 | a leave request is listed exactly when its date starts with the month and the status filter is empty or holds its status; order is kept |
| AttendanceRequests.OtFiltered | src/app/attendance/page.tsx:315-318 | the same for overtime requests |
| AttendanceRequests.AllStatusesSameAsNone | src/app/attendance/page.tsx:311-318 | selecting all three statuses lists the same requests as selecting none |
| AttendanceRequests.StatusSelection | src/app/attendance/page.tsx:435-442 | "all" among the chosen items selects exactly [pending, approved, rejected]; otherwise the chosen statuses, in order |
| AttendanceRequests.ChosenStatuses | src/app/attendance/page.tsx:441 | without "all" the chosen options become the statuses they name, one for one and in order |
| AttendanceRequests.SelectionText | src/app/attendance/page.tsx:444-448 | three statuses read "全て", none reads "", one reads its label, and two read their labels joined by ", " |
| AttendanceRequests.SelectAllShowsAll | src/app/attendance/page.tsx:437-448 | choosing "all" makes the multi-select read "全て" |
| AttendanceRequests.RequestChipTables | src/app/attendance/page.tsx:466-519 | the leave and overtime status chips share their labels and colours except pending, primary in one and secondary in the other; each table tells its statuses apart |
| AttendanceView.ChipClicked | src/app/attendance/page.tsx:337-348 | a chip opens tab 0, 1 or 2 for its kind and keeps the project select; the absence and work-error chips choose their own alert type and leave the request filters; each request chip selects only "pending" in its own tab and leaves the other filters |
| AttendanceView.ChipIdempotent | src/app/attendance/page.tsx:337-348 | clicking a chip twice equals clicking it once |
| AttendanceView.PendingChipsListPending | src/app/attendance/page.tsx:341-347 | after the leave (overtime) chip its tab lists exactly the month's pending requests, and the multi-select reads "未承認" |
| AttendanceView.RecordChipsListAlerted | src/app/attendance/page.tsx:338-340 | after the absence (work-error) chip the records tab lists exactly the chosen project's rows whose employee has an in-scope alert of that type |
| AttendanceView.View.constructor | src/app/attendance/page.tsx:276-278 | the page mounts on the records tab, every project, every alert type, and no status chosen |
| AttendanceView.View.ClickChip | src/app/attendance/page.tsx:337-348 | the new view state is the chip's fixed transition of the old one, and the open tab stays one of the three |
| AttendanceView.View.ChangeTab | src/app/attendance/page.tsx:370 | only the open tab changes |
| AttendanceView.View.ChangeProjectFilter | src/app/attendance/page.tsx:385 | only the project select changes |
| AttendanceView.View.ChangeAlertTypeFilter | src/app/attendance/page.tsx:399 | only the alert-type select changes |
| AttendanceView.View.ChangePtoSelection | src/app/attendance/page.tsx:435-442 | only the leave status filter changes, to the multi-select's selection |
| AttendanceView.View.ChangeOtSelection | src/app/attendance/page.tsx:487-495 | only the overtime status filter changes, to the multi-select's selection |
| Customers.StatusChip | src/app/customers/page.tsx:71 | label and colour of the status, "prospect"'s when the cell has no value |
| Customers.StatusTablesDistinguish | src/app/customers/page.tsx:53-58 | distinct statuses have distinct labels and distinct colours |
| Customers.Matches | src/app/customers/page.tsx:115-121 | a record passes exactly when the text occurs in its name or id (the empty text in every record), its status, industry and department match, and "all" matches anything |
| Customers.Filtered | src/app/customers/page.tsx:114-122 | the result is a subsequence of the list, holding exactly the records that pass all four criteria; empty text and "all" everywhere give the whole list |
| Customers.ComputeSummary | src/app/customers/page.tsx:124-130 | the total is the list's length, and active + prospect + at-risk equals the total |
| Customers.SummaryAfterAppend | src/app/customers/page.tsx:124-130 | appending a customer adds one to the total and to its status's count only |
| Customers.ColumnMembership | src/app/customers/page.tsx:109 | a value is in the industry (department) column exactly when some customer has it |
| Customers.IndustryOptions | src/app/customers/page.tsx:108-112 | the options are the distinct industries: no duplicates, exactly the customers' industries, in order of first appearance |
| Customers.DepartmentOptions | src/app/customers/page.tsx:240 | each distinct department once, exactly the departments of the records, in order of first appearance |
| Customers.StripNonDigits | src/app/customers/page.tsx:134 | the ASCII digits of the id, in order: every digit as many times as the id has it, and nothing else |
| Customers.IdNumber | src/app/customers/page.tsx:134-135 | there is no number exactly when the id has no digit |
| Customers.MaxIdNumber | src/app/customers/page.tsx:133-136 | at least every customer's number, and either 0 or some customer's number |
| Customers.MaxNumber | src/app/customers/page.tsx:133-136 | the `reduce` with `Math.max` from 0 bounds every record's number and is 0 or one of them; records without a number are skipped |
| Customers.PaddedNumber | src/app/customers/page.tsx:137 | the padded number is at least four digits and spells the number; zeros are added only to reach four digits |
| Customers.PrefixedIdNumber | src/app/customers/page.tsx:137 | the number of "CUST-" followed by digits is the value of those digits |
| Customers.GeneratedId | src/app/customers/page.tsx:137 | a generated id starts with "CUST-" and its number is the number it was made from |
| Customers.NextIdNumber | src/app/customers/page.tsx:132-138 | the number of `nextId` is one more than the largest existing number (0 when none) |
| Customers.NextIdShape | src/app/customers/page.tsx:137 | the next id is "CUST-" followed by at least four digits, with no leading zero once there are more than four |
| Customers.NextIdFresh | src/app/customers/page.tsx:132-138 | the next id differs from every existing id |
| Customers.FirstNextId | src/app/customers/page.tsx:137 | the first id for an empty list is "CUST-0001" |
| Customers.DefaultDraft | src/app/customers/page.tsx:96-106 | an empty form: SMB, prospect, zero projects and MRR, dated with today's date |
| Customers.OrZero | src/app/customers/page.tsx:149-150 | `Number(v) \|\| 0` is 0 exactly for NaN or 0, and otherwise the number |
| Customers.FallbacksTrimmed | src/app/customers/page.tsx:144-148 | each placeholder is non-empty and its own trimmed value |
| Customers.UnnamedCustomerTrimmed | src/app/customers/page.tsx:143 | "未命名顧客" is non-empty and its own trimmed value |
| Customers.NotSetTrimmed | src/app/customers/page.tsx:144-145 | "未設定" is non-empty and its own trimmed value |
| Customers.UnassignedTrimmed | src/app/customers/page.tsx:148 | "未割当" is non-empty and its own trimmed value |
| Customers.BuildRecord | src/app/customers/page.tsx:141-152 | the record has the given id; each text field is its trimmed input, or its placeholder when blank; segment, status and date are as entered; each count is 0 exactly for NaN or 0, and otherwise the entered number |
| Customers.CreatedTextFilled | src/app/customers/page.tsx:144-148 | whatever the form holds, the new record's name, industry, department and owner are non-empty and trimmed |
| Customers.CreateKeepsIdsUnique | src/app/customers/page.tsx:141-153 | appending the record created with `nextId` keeps ids unique, keeps every earlier record in place and adds exactly one |
| Customers.InitialIdsUnique | src/app/customers/page.tsx:46-51 | the initial customers have distinct ids |
| CustomersPage.Page.constructor | src/app/customers/page.tsx:90-106 | the page mounts with the initial list, the dialog closed and an empty form |
| CustomersPage.Page.OpenDialog | src/app/customers/page.tsx:248 | the dialog opens; list and form unchanged |
| CustomersPage.Page.CloseDialog | src/app/customers/page.tsx:311 | the dialog closes; list and form unchanged |
| CustomersPage.Page.EditDraft | src/app/customers/page.tsx:269 | only the form changes |
| CustomersPage.Page.Create | src/app/customers/page.tsx:140-166 | exactly one record, the one built from the form with the next id, is appended after the unchanged existing ones; the dialog closes; the form resets; ids stay unique |
| CustomersPage.Page.ResetDialog | src/app/customers/page.tsx:154-165 | the dialog closes and the form returns to its defaults; the list is unchanged |
| Billing.ApprovalName | src/app/billing/page.tsx:29 | the literal of each workflow status names that status back |
| Billing.ApprovalFromNameInverse | src/app/billing/page.tsx:29 | a name that denotes a workflow status is that status's literal |
| Billing.ApprovalChip | src/app/billing/page.tsx:132-134 | label and colour of the status, "draft"'s when the cell has no value; outlined exactly for a "draft" value |
| Billing.PaymentChip | src/app/billing/page.tsx:145-147 | label and colour of the status, "unpaid"'s when the cell has no value; outlined exactly for an "unpaid" value |
| Billing.MissingValueDrawnFilled | src/app/billing/page.tsx:132-147 | a cell without a value reads like draft (unpaid), yet is filled where a draft (unpaid) cell is outlined |
| Billing.LabelTables | src/app/billing/page.tsx:84-104 | each label table tells its statuses apart, and the two share only "入金済み", for paid |
| Billing.Rows | src/app/billing/page.tsx:177-182 | the selected rows are a subsequence, holding exactly the records whose workflow literal is listed, or all when none is listed |
| Billing.RowsIdempotent | src/app/billing/page.tsx:182 | filtering again by the same parameter changes nothing |
| Billing.UnknownNamesSelectNothing | src/app/billing/page.tsx:179-182 | a parameter naming no workflow status selects no row |

## Left out

- Rendering: JSX, the MUI components, DataGrid configuration, icons, routing and `useSearchParams`. The query string is an input string, with `None` for a missing parameter.
- The clock: `new Date().toISOString()` is the parameter `nowIso` (attendance) or `today` (customers).
- Currency and number display: `Intl.NumberFormat`, `toLocaleString` and `toFixed(1)`. These are library formatting calls.
- Customers.IdNumber: `parseInt` returns a double. The model reads digits as an unbounded natural number. It leaves out rounding above 2^53, the exponent notation `String` uses from 10^21, and the `Infinity` that very long digit strings give (`Number.isFinite` skips such ids).
- Customers.NextIdFresh, Customers.NextIdNumber, Customers.CreateKeepsIdsUnique, CustomersPage.Page.Create and CustomersPage.Page.Valid hold only in this unbounded model, that is, while every id number is below 2^53. Beyond that the page can repeat an id. With an existing "CUST-9007199254740992", `parseInt` gives 2^53 and `max + 1` rounds back to 2^53, so `nextId` is that same id again.
- Customers.OrZero: the form's `Number(...)` is `Option<int>`, so fractional, negative-zero and infinite inputs are not modelled. `NaN` is `None`.
- Attendance.HoursEditError: `Number(value)` is `Option<real>`. Infinity is not modelled; the page flags it anyway, as above 200.
- CustomersPage.Page.EditDraft: each field's `onChange` builds `{ ...newCustomer, field: value }`. It is modelled as replacing the whole form with the edited one.
- `AttendanceTypes.ValidationIssue.field` is a string. The source types it as a key of `AttendanceRecord`, which the model does not restrict.
- The text, status, industry and department `useState` setters of the customer page are not part of `CustomersPage.Page`. `Customers.Filtered` takes those four values as parameters.
- The sample records, alerts and leave and overtime requests of the attendance page, the billing rows, and the `status` and icon entries of `alertMeta`. None of them is used in a computation: every operation takes its list as a parameter, and the page never reads `alertMeta[t].status`. Only the customer page's initial list is kept, because the create handler's id invariant starts from it.
- The dashboard, contracts, master data and uploads pages, the layout component and the theme files. They hold static data, chart geometry and styling, with no list logic.
