/**
 * The backend query vocabulary (query.go): filters, groups, the option list a
 * cloud parses, and the textual renderings of periods and groups.
 */
module Query {
  import opened Wrappers
  import opened Text
  import opened Dates
  import opened Periods
  import opened Parameters

  /** A filter: the parameter id and the value to keep. */
  datatype QueryFilter = QueryFilter(id: string, value: string)

  /** A grouping: the parameter id and, for data-carrying parameters, its data. */
  datatype QueryGroup = QueryGroup(id: string, data: string)

  /** One functional option of a backend query. The extra-data callback is
    * modelled by its presence only: the aggregation engine always installs the
    * same collecting callback. */
  datatype QueryOption =
    | WithQueryDates(start: Date, end: Date)
    | WithQueryGroupByDate(groupByDate: bool)
    | WithQueryGroups(groups: seq<QueryGroup>)
    | WithQueryFilters(filters: seq<QueryFilter>)
    | WithQueryExtraData

  datatype QueryOptions = QueryOptions(
    start: Date,
    end: Date,
    groupByDate: bool,
    groups: seq<QueryGroup>,
    filters: seq<QueryFilter>,
    extraData: bool)

  /** Go's zero `QueryOptions{}`. */
  const NoQueryOptions := QueryOptions(ZeroDate, ZeroDate, false, [], [], false)

  /** The effect of one option: dates, flag, groups and callback overwrite,
    * filters accumulate. */
  function Apply(o: QueryOptions, opt: QueryOption): QueryOptions {
    match opt
    case WithQueryDates(s, e) => o.(start := s, end := e)
    case WithQueryGroupByDate(b) => o.(groupByDate := b)
    case WithQueryGroups(g) => o.(groups := g)
    case WithQueryFilters(f) => o.(filters := o.filters + f)
    case WithQueryExtraData => o.(extraData := true)
  }

  /** The options applied in order to a zero value. */
  function ApplyAll(opts: seq<QueryOption>): QueryOptions {
    if opts == [] then NoQueryOptions
    else Apply(ApplyAll(opts[..|opts| - 1]), opts[|opts| - 1])
  }

  datatype QueryOptionsError = DatesRequired | GroupRequired

  /** ParseQueryOptions: the applied options, rejecting a zero start or end
    * date and then an empty group list. */
  function ParseQueryOptions(opts: seq<QueryOption>): (r: Result<QueryOptions, QueryOptionsError>)
    ensures r.Success? ==> r.value == ApplyAll(opts)
    ensures r.Success? <==> ApplyAll(opts).start != ZeroDate && ApplyAll(opts).end != ZeroDate && |ApplyAll(opts).groups| > 0
    ensures r.Failure? ==> (r.error == DatesRequired <==> ApplyAll(opts).start == ZeroDate || ApplyAll(opts).end == ZeroDate)
  {
    var o := ApplyAll(opts);
    if o.start == ZeroDate || o.end == ZeroDate then Failure(DatesRequired)
    else if |o.groups| == 0 then Failure(GroupRequired)
    else Success(o)
  }

  function FiltersOf(opts: seq<QueryOption>): seq<QueryFilter> {
    ApplyAll(opts).filters
  }

  /** Filters accumulate: the filters of two option lists applied one after
    * the other are the concatenation of each list's filters. */
  lemma {:induction false} FiltersAppend(a: seq<QueryOption>, b: seq<QueryOption>)
    ensures FiltersOf(a + b) == FiltersOf(a) + FiltersOf(b)
    decreases |b|
  {
    if b == [] {
      assert a + b == a;
    } else {
      var b' := b[..|b| - 1];
      assert (a + b)[..|a + b| - 1] == a + b';
      assert (a + b)[|a + b| - 1] == b[|b| - 1];
      FiltersAppend(a, b');
    }
  }

  /** Groups overwrite: the last groups option decides. */
  lemma {:induction false} GroupsLastWins(opts: seq<QueryOption>, k: nat)
    requires k < |opts| && opts[k].WithQueryGroups?
    requires forall j :: k < j < |opts| ==> !opts[j].WithQueryGroups?
    ensures ApplyAll(opts).groups == opts[k].groups
    decreases |opts|
  {
    if k < |opts| - 1 {
      GroupsLastWins(opts[..|opts| - 1], k);
    }
  }

  /** Dates overwrite: the last dates option decides. */
  lemma {:induction false} DatesLastWins(opts: seq<QueryOption>, k: nat)
    requires k < |opts| && opts[k].WithQueryDates?
    requires forall j :: k < j < |opts| ==> !opts[j].WithQueryDates?
    ensures ApplyAll(opts).start == opts[k].start && ApplyAll(opts).end == opts[k].end
    decreases |opts|
  {
    if k < |opts| - 1 {
      DatesLastWins(opts[..|opts| - 1], k);
    }
  }

  /** Without any groups option the parse fails: at least one group is required. */
  lemma {:induction false} NoGroupsOptionFails(opts: seq<QueryOption>)
    requires forall j :: 0 <= j < |opts| ==> !opts[j].WithQueryGroups?
    ensures ApplyAll(opts).groups == []
    ensures ParseQueryOptions(opts).Failure?
    decreases |opts|
  {
    if opts != [] {
      NoGroupsOptionFails(opts[..|opts| - 1]);
    }
  }

  /** A group as reported in the query result: its parameter and data. */
  datatype QueryResultGroup = QueryResultGroup(parameter: Parameter, data: string)

  /** The label a group shows before its data. */
  function GroupLabel(g: QueryResultGroup, isMenu: bool): string {
    if isMenu && g.parameter.menuTitle != "" then g.parameter.menuTitle else g.parameter.name
  }

  /** QueryResultGroup.Title: the name (the menu title in menus, when set),
    * followed by the data in brackets when there is data. */
  function Title(g: QueryResultGroup, isMenu: bool): (r: string)
    ensures HasPrefix(r, GroupLabel(g, isMenu))
    ensures g.data == "" <==> |r| == |GroupLabel(g, isMenu)|
    ensures g.data != "" ==> var n := |GroupLabel(g, isMenu)|;
              |r| == n + |g.data| + 2 && r[n] == '[' && r[n + 1..|r| - 1] == g.data && r[|r| - 1] == ']'
  {
    var heading := GroupLabel(g, isMenu);
    if g.data != "" then heading + "[" + g.data + "]" else heading
  }

  /** QueryResultGroup.String. */
  function GroupString(g: QueryResultGroup): (r: string)
    ensures r == Title(g, false)
  {
    Title(g, false)
  }

  /** Outside menus the menu title is never shown. */
  lemma TitleIgnoresMenuTitle(g: QueryResultGroup, menuTitle: string)
    ensures GroupString(g.(parameter := g.parameter.(menuTitle := menuTitle))) == GroupString(g)
    ensures GroupString(g) == GroupLabel(g, false) || g.data != ""
  {
  }

  lemma ShortMonthNameNoDash(m: int)
    requires 1 <= m <= 12
    ensures '-' !in ShortMonthName(m)
  {
  }

  lemma ShortDateNoDash(d: Date)
    ensures '-' !in FormatShortDate(d)
  {
    var s := FormatShortDate(d);
    ShortMonthNameNoDash(CivilOf(d).month);
    forall i | 0 <= i < |s|
      ensures s[i] != '-'
    {
      if i < 3 {
        assert s[i] == s[..3][i];
      }
    }
  }

  /** QueryPeriod.String: one short date for a single day, else "start-end". */
  function PeriodString(p: QueryPeriod): (r: string)
    ensures p.start == p.end ==> r == FormatShortDate(p.start)
  {
    if p.start == p.end then FormatShortDate(p.start)
    else FormatShortDate(p.start) + "-" + FormatShortDate(p.end)
  }

  /** The rendering has a dash exactly for multi-day periods, and then the
    * dash separates the two dates. */
  lemma PeriodStringDash(p: QueryPeriod)
    ensures '-' in PeriodString(p) <==> p.start != p.end
    ensures p.start != p.end ==>
              Cut(PeriodString(p), '-') == CutResult(FormatShortDate(p.start), FormatShortDate(p.end), true)
  {
    var a, b := FormatShortDate(p.start), FormatShortDate(p.end);
    ShortDateNoDash(p.start);
    if p.start != p.end {
      var s := a + "-" + b;
      assert s[|a|] == '-';
      CutAt(a, '-', b);
    }
  }

  lemma DurationSuffixShape(s: string, num: string)
    ensures var r := s + " (" + num + " days)";
            |r| == |s| + |num| + 8 && r[..|s|] == s && r[|s| + 2..|r| - 6] == num
  {
  }

  /** QueryPeriod.StringWithDuration: the rendering, followed by the number of
    * days of the period when asked for. */
  function StringWithDuration(p: QueryPeriod, showDuration: bool): (r: string)
    ensures HasPrefix(r, PeriodString(p))
    ensures !showDuration <==> r == PeriodString(p)
    ensures showDuration ==> var n := |PeriodString(p)|;
              |r| > n + 8 && Atoi(r[n + 2..|r| - 6]) == Some(Duration(p) + 1)
  {
    var s := PeriodString(p);
    if showDuration then
      var num := IntToString(Duration(p) + 1);
      DurationSuffixShape(s, num);
      AtoiIntToString(Duration(p) + 1);
      s + " (" + num + " days)"
    else s
  }

  /** QueryPeriod.StringFilter: "T" and the ISO start, then "|" and the ISO end
    * when the period spans more than one day. */
  function StringFilter(p: QueryPeriod): (r: string)
    ensures HasPrefix(r, "T" + FormatISO(p.start))
    ensures p.start == p.end <==> r == "T" + FormatISO(p.start)
  {
    var ret := "T" + FormatISO(p.start);
    var tail := if p.start == p.end then "" else [DataSeparator] + FormatISO(p.end);
    AppendPrefix(ret, tail);
    ret + tail
  }
}
