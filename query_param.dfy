/**
 * The `approval` query parameter shared by the attendance and the billing
 * page: a comma-separated list of status names that, when it names at least
 * one status, narrows the page's records to those whose status is listed.
 * Both pages do the same thing (src/app/attendance/page.tsx:271-275 and
 * src/app/billing/page.tsx:178-182); this module states it once, over any
 * record type and any function that gives a record's status name.
 */
module QueryParam {
  import opened Wrappers
  import opened Seqs
  import opened Text

  /** `Boolean` used as a filter predicate on strings: only `""` is falsy. */
  predicate NonEmpty(s: string) {
    s != []
  }

  /**
   * `param ? param.split(",").filter(Boolean) : undefined`: no list for a
   * missing or empty parameter; otherwise its comma-separated pieces with the
   * empty ones dropped. The names are not checked against any status type.
   */
  function ParseList(param: Option<string>): (r: Option<seq<string>>)
    ensures r.None? <==> param.None? || param.value == []
    ensures r.Some? ==> forall name :: name in r.value <==> name != [] && name in Split(param.value, ',')
    ensures r.Some? ==> forall name :: name in r.value ==> ',' !in name
  {
    if param.None? || param.value == [] then None
    else Some(Filter(Split(param.value, ','), NonEmpty))
  }

  /** The parameter names at least one status, so it narrows the list. */
  predicate Narrows(param: Option<string>) {
    var l := ParseList(param);
    l.Some? && |l.value| > 0
  }

  /** `r => approvals.includes(status(r))`. */
  function Listed<T>(status: T -> string, names: seq<string>): T -> bool {
    r => status(r) in names
  }

  /**
   * `approvals && approvals.length > 0 ? all.filter(r => approvals.includes(status(r))) : all`:
   * the result is always a subsequence of `all`, and holds exactly the
   * records whose status name is listed, or all of them when nothing is listed.
   */
  function FilterByParam<T(==,!new)>(all: seq<T>, status: T -> string, param: Option<string>): (rows: seq<T>)
    ensures IsSubsequence(rows, all)
    ensures !Narrows(param) ==> rows == all
    ensures forall r :: r in rows <==> r in all && (!Narrows(param) || status(r) in ParseList(param).value)
  {
    var approvals := ParseList(param);
    if approvals.Some? && |approvals.value| > 0 then Filter(all, Listed(status, approvals.value))
    else SubsequenceOfItself(all); all
  }

  /** Without a parameter, or with an empty one, every record is shown in its original order. */
  lemma NoParamKeepsAll<T(!new)>(all: seq<T>, status: T -> string, param: Option<string>)
    requires param.None? || param == Some([])
    ensures FilterByParam(all, status, param) == all
  {
  }

  /**
   * A parameter made of commas only (for instance `","`) lists nothing once
   * the empty pieces are dropped, so every record is shown.
   */
  lemma OnlyCommasKeepsAll<T(!new)>(all: seq<T>, status: T -> string, s: string)
    requires forall i :: 0 <= i < |s| ==> s[i] == ','
    ensures !Narrows(Some(s))
    ensures FilterByParam(all, status, Some(s)) == all
  {
    SplitOnlySeparators(s, ',');
    FilterNonePass(Split(s, ','), NonEmpty);
  }

  /**
   * When the parameter lists at least one name, the result is exactly the
   * records whose status name is listed, each kept where it stood.
   */
  lemma NarrowedRows<T(!new)>(all: seq<T>, status: T -> string, param: Option<string>)
    requires Narrows(param)
    ensures FilterByParam(all, status, param) == Filter(all, Listed(status, ParseList(param).value))
  {
  }

  /** Applying the same parameter to its own result changes nothing. */
  lemma {:induction false} FilterByParamIdempotent<T(!new)>(all: seq<T>, status: T -> string, param: Option<string>)
    ensures FilterByParam(FilterByParam(all, status, param), status, param) == FilterByParam(all, status, param)
  {
    if Narrows(param) {
      FilterIdempotent(all, Listed(status, ParseList(param).value));
    }
  }

  /**
   * A parameter that lists only names no record has (an unknown status, say)
   * gives an empty list, not the full one: the list is non-empty, so it
   * narrows, and nothing matches.
   */
  lemma {:induction false} OnlyUnknownNamesEmpty<T(!new)>(all: seq<T>, status: T -> string, param: Option<string>)
    requires Narrows(param)
    requires forall r :: r in all ==> status(r) !in ParseList(param).value
    ensures FilterByParam(all, status, param) == []
  {
    FilterNonePass(all, Listed(status, ParseList(param).value));
  }
}
