/**
 * The period specifications of the web front end (cmd/cloudcostexplorer/period.go):
 * "dN" (the last N days), "mN" (the last N months), "MYYYYMM" (one calendar
 * month), "TYYYY-MM-DD" and "TYYYY-MM-DD|YYYY-MM-DD" (explicit dates), the
 * "R<n>" repeat of the main period, and the extra comparison periods
 * "period2", "period3", ... of a request.
 *
 * The URL query is a map from parameter name to its first value; a missing
 * parameter reads as "", like `url.Values.Get`.
 */
module PeriodSpec {
  import opened Wrappers
  import opened Text
  import opened Dates
  import opened Periods
  import opened Parameters
  import opened Query

  /** The result of one specification: the interval and its description. */
  datatype PeriodValue = PeriodValue(start: Date, end: Date, desc: string)

  /** Why a specification was refused; each carries the offending text. */
  datatype PeriodError =
    | BadDays(spec: string)
    | BadMonths(spec: string)
    | BadMonth(spec: string)
    | InvalidMonth(spec: string)
    | BadDateRange(spec: string)
    | UnknownPeriod(spec: string)
    | BadRepeat(spec: string)

  /** `url.Values.Get`: the value, or "" for a missing parameter. */
  function Get(q: map<string, string>, key: string): string {
    if key in q then q[key] else ""
  }

  /** The "dN" branch: N days ending on the anchor. */
  function ParseDays(period: string, current: Date): (r: Result<PeriodValue, PeriodError>)
    requires HasPrefix(period, "d")
    ensures r.Success? <==> Atoi(period[1..]).Some?
    ensures r.Failure? ==> r.error == BadDays(period)
    ensures r.Success? ==> r.value.end == current && Sub(r.value.end, r.value.start) + 1 == Atoi(period[1..]).value
  {
    match Atoi(TrimPrefix(period, "d"))
    case None => Failure(BadDays(period))
    case Some(n) => Success(PeriodValue(AddDays(current, -n + 1), current, IntToString(n) + " days"))
  }

  /** The "mN" branch: from the day after the anchor N months back, to the anchor. */
  function ParseMonths(period: string, current: Date): (r: Result<PeriodValue, PeriodError>)
    requires HasPrefix(period, "m")
    ensures r.Success? <==> Atoi(period[1..]).Some?
    ensures r.Failure? ==> r.error == BadMonths(period)
    ensures r.Success? ==> r.value.end == current
  {
    match Atoi(TrimPrefix(period, "m"))
    case None => Failure(BadMonths(period))
    case Some(n) => Success(PeriodValue(Add(current, 0, -n, 1), current, IntToString(n) + " months"))
  }

  /** The "MYYYYMM" branch: exactly seven characters naming a calendar month;
    * the interval is that whole month. */
  function ParseMonth(period: string): (r: Result<PeriodValue, PeriodError>)
    requires HasPrefix(period, "M")
    ensures r.Success? <==> |period| == 7 && Atoi(period[1..5]).Some? && Atoi(period[5..7]).Some? &&
                            ValidCivil(Civil(Atoi(period[1..5]).value, Atoi(period[5..7]).value, 1))
    ensures r.Failure? ==> r.error == (if |period| == 7 && Atoi(period[1..5]).Some? && Atoi(period[5..7]).Some?
                                       then InvalidMonth(period) else BadMonth(period))
    ensures r.Success? ==> var y, m := Atoi(period[1..5]).value, Atoi(period[5..7]).value;
              CivilOf(r.value.start) == Civil(y, m, 1) && CivilOf(r.value.end) == Civil(y, m, DaysInMonth(y, m))
  {
    if |period| != 7 then Failure(BadMonth(period))
    else
      var year := Atoi(period[1..5]);
      var month := Atoi(period[5..7]);
      if year.None? || month.None? then Failure(BadMonth(period))
      else
        match NewDate(year.value, month.value, 1)
        case None => Failure(InvalidMonth(period))
        case Some(start) =>
          Success(PeriodValue(start, EndingOfMonth(start), ShortMonthName(month.value) + "/" + IntToString(year.value)))
  }

  /** The "T" branch: eleven characters for one day, or twenty-two for a range
    * whose end starts at index 12; the character at index 11 is not looked at. */
  function ParseDateRange(period: string): (r: Result<PeriodValue, PeriodError>)
    requires HasPrefix(period, "T")
    ensures r.Success? <==> (|period| == 11 || |period| == 22) && ParseISO(period[1..11]).Some? &&
                            (|period| == 22 ==> ParseISO(period[12..22]).Some?)
    ensures r.Failure? ==> r.error == BadDateRange(period)
    ensures r.Success? ==> (r.value.start == ParseISO(period[1..11]).value &&
              r.value.end == (if |period| == 22 then ParseISO(period[12..22]).value else r.value.start))
  {
    if |period| != 11 && |period| != 22 then Failure(BadDateRange(period))
    else
      match ParseISO(period[1..11])
      case None => Failure(BadDateRange(period))
      case Some(start) =>
        var end := if |period| == 22 then ParseISO(period[12..22]) else Some(start);
        if end.None? then Failure(BadDateRange(period))
        else
          var desc := if start == end.value then FormatDayMonthYear(start)
                      else FormatDayMonthYear(start) + " to " + FormatDayMonthYear(end.value);
          Success(PeriodValue(start, end.value, desc))
  }

  /** ParsePeriodValue: dispatch on the first character; anything else is an
    * unknown period. */
  function ParsePeriodValue(period: string, current: Date): (r: Result<PeriodValue, PeriodError>)
    ensures !HasPrefix(period, "d") && !HasPrefix(period, "m") && !HasPrefix(period, "M") && !HasPrefix(period, "T") ==>
              r == Failure(UnknownPeriod(period))
    ensures r.Failure? && r.error.UnknownPeriod? ==> period == [] || period[0] !in "dmMT"
  {
    if HasPrefix(period, "d") then ParseDays(period, current)
    else if HasPrefix(period, "m") then ParseMonths(period, current)
    else if HasPrefix(period, "M") then ParseMonth(period)
    else if HasPrefix(period, "T") then ParseDateRange(period)
    else Failure(UnknownPeriod(period))
  }

  /** A "T" specification goes to the date-range branch. */
  lemma DispatchDateRange(s: string, current: Date)
    requires |s| >= 1 && s[0] == 'T'
    ensures HasPrefix(s, "T") && ParsePeriodValue(s, current) == ParseDateRange(s)
  {
    assert !HasPrefix(s, "d") && !HasPrefix(s, "m") && !HasPrefix(s, "M");
  }

  /** An "M" specification goes to the calendar-month branch. */
  lemma DispatchMonth(s: string, current: Date)
    requires |s| >= 1 && s[0] == 'M'
    ensures HasPrefix(s, "M") && ParsePeriodValue(s, current) == ParseMonth(s)
  {
    assert !HasPrefix(s, "d") && !HasPrefix(s, "m");
  }

  /** "d" followed by a number of days n gives n days ending on the anchor. */
  lemma DaysRoundTrip(n: int, current: Date)
    ensures var r := ParsePeriodValue("d" + IntToString(n), current);
            r.Success? && r.value.end == current && r.value.start == current - n + 1
  {
    var s := "d" + IntToString(n);
    assert s[1..] == IntToString(n);
    assert HasPrefix(s, "d");
    AtoiIntToString(n);
  }

  /** "M" with a four-digit year and a two-digit month gives that whole month. */
  lemma MonthRoundTrip(y: int, m: int, current: Date)
    requires 0 <= y <= 9999 && 1 <= m <= 12
    ensures var r := ParsePeriodValue("M" + PadNat(y, 4) + PadNat(m, 2), current);
            r.Success? && CivilOf(r.value.start) == Civil(y, m, 1) && CivilOf(r.value.end) == Civil(y, m, DaysInMonth(y, m))
  {
    var s := "M" + PadNat(y, 4) + PadNat(m, 2);
    DispatchMonth(s, current);
    MonthFieldsRoundTrip(y, m);
  }

  lemma MonthFieldsRoundTrip(y: int, m: int)
    requires 0 <= y <= 9999 && 1 <= m <= 12
    ensures var s := "M" + PadNat(y, 4) + PadNat(m, 2);
            |s| == 7 && Atoi(s[1..5]) == Some(y) && Atoi(s[5..7]) == Some(m)
  {
    var ys, ms := PadNat(y, 4), PadNat(m, 2);
    PadNatLength(y, 4);
    PadNatLength(m, 2);
    AtoiPadNat(y, 4);
    AtoiPadNat(m, 2);
    MonthFields(ys, ms);
  }

  /** Where the fields sit in "M" + ys + ms. */
  lemma MonthFields(ys: string, ms: string)
    requires |ys| == 4 && |ms| == 2
    ensures var s := "M" + ys + ms;
            |s| == 7 && s[1..5] == ys && s[5..7] == ms
  {
  }

  /** A period's filter string parses back, through the "T" branch, to the
    * period's own dates (for years that print in four digits). */
  lemma StringFilterRoundTrip(p: QueryPeriod, current: Date)
    requires 0 <= CivilOf(p.start).year <= 9999 && 0 <= CivilOf(p.end).year <= 9999
    ensures var r := ParsePeriodValue(StringFilter(p), current);
            r.Success? && r.value.start == p.start && r.value.end == p.end
  {
    var s := StringFilter(p);
    assert s[0] == 'T';
    DispatchDateRange(s, current);
    if p.start == p.end {
      StringFilterDay(p);
    } else {
      StringFilterRange(p);
    }
  }

  /** A one-day period's filter is "T" and the date. */
  lemma StringFilterDay(p: QueryPeriod)
    requires 0 <= CivilOf(p.start).year <= 9999 && p.start == p.end
    ensures var s := StringFilter(p);
            |s| == 11 && ParseISO(s[1..11]) == Some(p.start)
  {
    ParseFormatISO(p.start);
    DateFields(FormatISO(p.start), "");
  }

  /** A longer period's filter is "T", the start, the separator and the end. */
  lemma StringFilterRange(p: QueryPeriod)
    requires 0 <= CivilOf(p.start).year <= 9999 && 0 <= CivilOf(p.end).year <= 9999 && p.start != p.end
    ensures var s := StringFilter(p);
            |s| == 22 && ParseISO(s[1..11]) == Some(p.start) && ParseISO(s[12..22]) == Some(p.end)
  {
    var a, b := FormatISO(p.start), FormatISO(p.end);
    ParseFormatISO(p.start);
    ParseFormatISO(p.end);
    DateFields(a, [DataSeparator] + b);
    assert StringFilter(p) == "T" + a + ([DataSeparator] + b);
  }

  /** Where the dates sit in "T" + a + tail, for a ten-character a. */
  lemma DateFields(a: string, tail: string)
    requires |a| == 10
    ensures var s := "T" + a + tail;
            |s| == 11 + |tail| && s[1..11] == a && s[11..] == tail && (|tail| == 11 ==> s[12..22] == tail[1..])
  {
  }

  /** The separator of a "T" range is never checked: any character between the
    * two dates gives the same result. */
  lemma DateRangeSeparatorIgnored(a: string, b: string, c: char, c': char, current: Date)
    requires |a| == 10 && |b| == 10
    ensures var r, r' := ParsePeriodValue("T" + a + [c] + b, current), ParsePeriodValue("T" + a + [c'] + b, current);
            r.Success? == r'.Success? && (r.Success? ==> r.value == r'.value)
  {
    var s, s' := "T" + a + [c] + b, "T" + a + [c'] + b;
    DateFields(a, [c] + b);
    DateFields(a, [c'] + b);
    DispatchDateRange(s, current);
    DispatchDateRange(s', current);
    DateRangeReadsFields(s, s');
  }

  /** The date-range branch looks at the length and the two date fields only. */
  lemma DateRangeReadsFields(s: string, s': string)
    requires HasPrefix(s, "T") && HasPrefix(s', "T") && |s| == |s'|
    requires |s| >= 11 ==> s[1..11] == s'[1..11]
    requires |s| == 22 ==> s[12..22] == s'[12..22]
    ensures ParseDateRange(s).Success? == ParseDateRange(s').Success?
    ensures ParseDateRange(s).Success? ==> ParseDateRange(s).value == ParseDateRange(s').value
  {
  }

  // ---------------------------------------------------------------------------
  // The request's period lists

  /** How many days before today the data is considered complete (time.go). */
  const DefaultSkipDays: int := -2

  /** initialDateWithSkipDays: today moved by the default skip, then back by
    * the "skipdays" parameter when that is a number; anything else is ignored. */
  function InitialDate(today: Date, skipDays: string): (r: Date)
    ensures skipDays == "" || Atoi(skipDays).None? ==> r == today + DefaultSkipDays
    ensures Atoi(skipDays).Some? ==> r == today + DefaultSkipDays - Atoi(skipDays).value
  {
    var ret := AddDays(today, DefaultSkipDays);
    if skipDays != "" then
      match Atoi(skipDays)
      case None => ret
      case Some(days) => AddDays(ret, -days)
    else ret
  }

  /** The name of the k-th comparison period parameter. */
  function PeriodKey(k: int): string {
    "period" + IntToString(k)
  }

  /** Distinct indices name distinct parameters. */
  ghost predicate Injective(key: int -> string) {
    forall i, j :: key(i) == key(j) ==> i == j
  }

  lemma PeriodKeyInjective()
    ensures Injective(PeriodKey)
  {
    forall i, j | PeriodKey(i) == PeriodKey(j)
      ensures i == j
    {
      assert IntToString(i) == PeriodKey(i)[6..];
      assert IntToString(j) == PeriodKey(j)[6..];
      IntToStringInjective(i, j);
    }
  }

  /** The parameters read before index k. */
  ghost function Seen(key: int -> string, k: int): set<string> {
    set j | 2 <= j < k :: key(j)
  }

  /** Reading one more present parameter leaves fewer unread ones. */
  lemma SeenStep(q: map<string, string>, key: int -> string, k: int)
    requires Injective(key) && k >= 2 && key(k) in q
    ensures |q.Keys - Seen(key, k + 1)| < |q.Keys - Seen(key, k)|
  {
    forall x
      ensures x in Seen(key, k + 1) <==> x in Seen(key, k) || x == key(k)
    {
      if x in Seen(key, k + 1) && x != key(k) {
        var j :| 2 <= j < k + 1 && key(j) == x;
        assert j != k;
      }
    }
    assert key(k) !in Seen(key, k);
    var unread := q.Keys - Seen(key, k);
    assert key(k) in unread;
    assert q.Keys - Seen(key, k + 1) == unread - {key(k)};
  }

  /** One single-period list. */
  function OnePeriod(v: PeriodValue): QueryPeriodList {
    QueryPeriodList(GenerateQueryPeriods(v.start, v.end, 1))
  }

  /** The values of key(k), key(k + 1), ... up to the first missing one: the
    * parameters the comparison loop reads, in reading order. */
  function ExtraSpecs(q: map<string, string>, key: int -> string, k: int): (r: seq<string>)
    requires Injective(key) && k >= 2
    ensures forall i :: 0 <= i < |r| ==> r[i] != ""
    ensures Get(q, key(k + |r|)) == ""
    decreases |q.Keys - Seen(key, k)|
  {
    var cur := Get(q, key(k));
    if cur == "" then []
    else
      SeenStep(q, key, k);
      [cur] + ExtraSpecs(q, key, k + 1)
  }

  /** Entry i of the specifications is the value of key(k + i). */
  lemma {:induction false} ExtraSpecsAt(q: map<string, string>, key: int -> string, k: int, i: int)
    requires Injective(key) && k >= 2 && 0 <= i < |ExtraSpecs(q, key, k)|
    ensures ExtraSpecs(q, key, k)[i] == Get(q, key(k + i))
    decreases i
  {
    if i > 0 {
      assert ExtraSpecs(q, key, k)[i] == ExtraSpecs(q, key, k + 1)[i - 1];
      ExtraSpecsAt(q, key, k + 1, i - 1);
      assert k + 1 + (i - 1) == k + i;
    }
  }

  /** One comparison specification parsed against `anchor`, as its list. */
  function ExtraList(spec: string, anchor: Date): (r: Result<QueryPeriodList, PeriodError>)
    ensures r.Success? <==> ParsePeriodValue(spec, anchor).Success?
    ensures r.Failure? ==> r.error == ParsePeriodValue(spec, anchor).error
    ensures r.Success? ==> r.value.periods == GenerateQueryPeriods(ParsePeriodValue(spec, anchor).value.start,
                                                                    ParsePeriodValue(spec, anchor).value.end, 1)
  {
    match ParsePeriodValue(spec, anchor)
    case Failure(e) => Failure(e)
    case Success(v) => Success(OnePeriod(v))
  }

  /** The comparison loop's parsing: each specification, in reading order, is
    * parsed and its list put in front of the lists so far; the first failure
    * ends the loop with that failure. */
  function ParseExtras(specs: seq<string>, parse: string -> Result<QueryPeriodList, PeriodError>)
    : (r: Result<seq<QueryPeriodList>, PeriodError>)
    ensures r.Success? ==> |r.value| == |specs|
  {
    if specs == [] then Success([])
    else
      match parse(specs[0])
      case Failure(e) => Failure(e)
      case Success(l) =>
        match ParseExtras(specs[1..], parse)
        case Failure(e) => Failure(e)
        case Success(rest) => Success(rest + [l])
  }

  /** The comparison lists come out in reverse reading order: the list at
    * index i is the one of the specification read last but i. */
  lemma {:induction false} ParseExtrasReversed(specs: seq<string>, parse: string -> Result<QueryPeriodList, PeriodError>)
    ensures var r := ParseExtras(specs, parse);
            r.Success? ==> forall i :: 0 <= i < |specs| ==>
              parse(specs[|specs| - 1 - i]) == Success(r.value[i])
  {
    if specs != [] {
      ParseExtrasReversed(specs[1..], parse);
      var r := ParseExtras(specs, parse);
      if r.Success? {
        var n := |specs|;
        var rest := ParseExtras(specs[1..], parse);
        assert r.value == rest.value + [parse(specs[0]).value];
        forall i | 0 <= i < n
          ensures parse(specs[n - 1 - i]) == Success(r.value[i])
        {
          if i < n - 1 {
            assert specs[n - 1 - i] == specs[1..][(n - 1) - 1 - i];
            assert r.value[i] == rest.value[i];
          }
        }
      }
    }
  }

  /** The loop fails exactly when some specification fails, and then with the
    * error of the first one that does. */
  lemma {:induction false} ParseExtrasFailure(specs: seq<string>, parse: string -> Result<QueryPeriodList, PeriodError>)
    ensures var r := ParseExtras(specs, parse);
            r.Failure? <==> exists i :: 0 <= i < |specs| && parse(specs[i]).Failure?
    ensures var r := ParseExtras(specs, parse);
            r.Failure? ==> exists i :: 0 <= i < |specs| && parse(specs[i]) == Failure(r.error) &&
                              forall j :: 0 <= j < i ==> parse(specs[j]).Success?
  {
    if specs != [] {
      ParseExtrasFailure(specs[1..], parse);
      var r := ParseExtras(specs, parse);
      assert forall i :: 1 <= i < |specs| ==> specs[i] == specs[1..][i - 1];
      if parse(specs[0]).Success? && r.Failure? {
        var i :| 0 <= i < |specs[1..]| && parse(specs[1..][i]) == Failure(r.error) &&
                 forall j :: 0 <= j < i ==> parse(specs[1..][j]).Success?;
        assert parse(specs[i + 1]) == Failure(r.error);
      }
    }
  }

  /** The comparison loop: "period2", "period3", ... read up to the first
    * missing one and parsed against `anchor`, the last one read first. */
  function ComparisonLists(q: map<string, string>, anchor: Date): Result<seq<QueryPeriodList>, PeriodError> {
    PeriodKeyInjective();
    ParseExtras(ExtraSpecs(q, PeriodKey, 2), s => ExtraList(s, anchor))
  }

  /** The parsed request: its period lists, in column order, and the
    * description of the main period. */
  datatype ParsedPeriods = ParsedPeriods(lists: seq<QueryPeriodList>, desc: string)

  /** The main period's specification, "d14" when absent. */
  function MainSpec(q: map<string, string>): string {
    if Get(q, "period") == "" then "d14" else Get(q, "period")
  }

  /** ParsePeriod: the main period as one list (or, with "period2=R<n>", n
    * repetitions of it), preceded by the comparison periods, the last one
    * first, each anchored at the day before the main period starts. */
  function ParsePeriod(q: map<string, string>, current: Date): (r: Result<ParsedPeriods, PeriodError>)
    ensures ParsePeriodValue(MainSpec(q), current).Failure? ==> r == Failure(ParsePeriodValue(MainSpec(q), current).error)
    ensures r.Success? ==> |r.value.lists| >= 1
  {
    var pv := ParsePeriodValue(MainSpec(q), current);
    if pv.Failure? then Failure(pv.error)
    else
      var v := pv.value;
      var period2 := Get(q, "period2");
      if HasPrefix(period2, "R") then
        match Atoi(TrimPrefix(period2, "R"))
        case None => Failure(BadRepeat(period2))
        case Some(n) =>
          Success(ParsedPeriods([QueryPeriodList(GenerateQueryPeriods(v.start, v.end, n))],
                                v.desc + " (repeat " + IntToString(n) + ")"))
      else
        var main := OnePeriod(v);
        if period2 == "" then Success(ParsedPeriods([main], v.desc))
        else
          match ComparisonLists(q, AddDays(v.start, -1))
          case Failure(e) => Failure(e)
          case Success(extra) => Success(ParsedPeriods(extra + [main], v.desc))
  }

  /** IsPeriod2: comparison periods are in use. */
  function IsPeriod2(q: map<string, string>): (r: bool)
    ensures r <==> Get(q, "period2") != "" && !HasPrefix(Get(q, "period2"), "R")
  {
    var period2 := Get(q, "period2");
    !(period2 == "" || HasPrefix(period2, "R"))
  }

  /** An absent main period is the last 14 days. */
  lemma EmptyPeriodIsD14(q: map<string, string>, current: Date)
    requires Get(q, "period") == ""
    ensures ParsePeriod(q, current) == ParsePeriod(q["period" := "d14"], current)
  {
    var q' := q["period" := "d14"];
    assert MainSpec(q) == MainSpec(q');
    assert Get(q, "period2") == Get(q', "period2");
    MainKeyIsNoComparisonKey(q, "d14");
    ComparisonListsSameKeys(q, q');
    ParsePeriodReads(q, q', current);
  }

  /** ParsePeriod looks at the main period, "period2" and the comparison lists only. */
  lemma ParsePeriodReads(q: map<string, string>, q': map<string, string>, current: Date)
    requires MainSpec(q) == MainSpec(q') && Get(q, "period2") == Get(q', "period2")
    requires forall anchor :: ComparisonLists(q, anchor) == ComparisonLists(q', anchor)
    ensures ParsePeriod(q, current) == ParsePeriod(q', current)
  {
  }

  /** The comparison lists depend on the comparison parameters only. */
  lemma ComparisonListsSameKeys(q: map<string, string>, q': map<string, string>)
    requires forall k :: Get(q, PeriodKey(k)) == Get(q', PeriodKey(k))
    ensures forall anchor :: ComparisonLists(q, anchor) == ComparisonLists(q', anchor)
  {
    PeriodKeyInjective();
    ExtraSpecsSameKeys(q, q', PeriodKey, 2);
  }

  /** Setting "period" changes none of the comparison parameters. */
  lemma MainKeyIsNoComparisonKey(q: map<string, string>, v: string)
    ensures forall k :: Get(q, PeriodKey(k)) == Get(q["period" := v], PeriodKey(k))
  {
    forall k
      ensures Get(q, PeriodKey(k)) == Get(q["period" := v], PeriodKey(k))
    {
      assert PeriodKey(k) != "period" by {
        assert |PeriodKey(k)| > |"period"|;
      }
    }
  }

  /** The loop reads only the parameters the key function names. */
  lemma {:induction false} ExtraSpecsSameKeys(q: map<string, string>, q': map<string, string>, key: int -> string, k: int)
    requires Injective(key) && k >= 2
    requires forall j :: j >= 2 ==> Get(q, key(j)) == Get(q', key(j))
    ensures ExtraSpecs(q, key, k) == ExtraSpecs(q', key, k)
    decreases |q.Keys - Seen(key, k)|
  {
    if Get(q, key(k)) != "" {
      SeenStep(q, key, k);
      SeenStep(q', key, k);
      ExtraSpecsSameKeys(q, q', key, k + 1);
    }
  }

  /** With a repeat, the main period is the only list: n periods of its length
    * ending with it, and no comparison parameter is read. */
  lemma RepeatList(q: map<string, string>, current: Date)
    requires HasPrefix(Get(q, "period2"), "R")
    ensures var r := ParsePeriod(q, current);
            var v := ParsePeriodValue(MainSpec(q), current);
            r.Success? <==> v.Success? && Atoi(Get(q, "period2")[1..]).Some?
    ensures var r := ParsePeriod(q, current);
            var v := ParsePeriodValue(MainSpec(q), current);
            r.Success? ==> (r.value.lists ==
              [QueryPeriodList(GenerateQueryPeriods(v.value.start, v.value.end, Atoi(Get(q, "period2")[1..]).value))])
  {
  }

  /** Without comparison periods the main period is the only list; with them
    * it is the last of at least two. */
  lemma Period2Lists(q: map<string, string>, current: Date)
    ensures var r := ParsePeriod(q, current);
            r.Success? ==> (IsPeriod2(q) <==> |r.value.lists| >= 2)
  {
    var r := ParsePeriod(q, current);
    if r.Success? && IsPeriod2(q) {
      var v := ParsePeriodValue(MainSpec(q), current);
      ComparisonListsCount(q, AddDays(v.value.start, -1));
    }
  }

  /** With comparison periods, the lists are the comparison lists (see
    * ComparisonListsOrder: "periodK", ..., "period2", each against the day
    * before the main start) followed by the main period's single list. */
  lemma Period2Order(q: map<string, string>, current: Date)
    requires IsPeriod2(q)
    ensures var r := ParsePeriod(q, current);
            var v := ParsePeriodValue(MainSpec(q), current);
            r.Success? ==> (var n := |r.value.lists|;
              var c := ComparisonLists(q, AddDays(v.value.start, -1));
              c.Success? && r.value.lists[n - 1] == OnePeriod(v.value) && r.value.lists[..n - 1] == c.value)
  {
    var r := ParsePeriod(q, current);
    if r.Success? {
      var n := |r.value.lists|;
      assert r.value.lists[..n - 1] + [r.value.lists[n - 1]] == r.value.lists;
    }
  }

  /** The loop reads "period2", "period3", ... up to the first missing one, so
    * it yields lists exactly when "period2" is present, and m lists mean
    * "period(2+m)" is missing. */
  lemma ComparisonListsCount(q: map<string, string>, anchor: Date)
    ensures var r := ComparisonLists(q, anchor);
            r.Success? ==> (var m := |r.value|;
              (m >= 1 <==> Get(q, "period2") != "") && Get(q, PeriodKey(2 + m)) == "")
  {
    var r := ComparisonLists(q, anchor);
    if r.Success? {
      PeriodKeyInjective();
      var specs := ExtraSpecs(q, PeriodKey, 2);
      assert r == ParseExtras(specs, s => ExtraList(s, anchor));
      assert PeriodKey(2) == "period2";
    }
  }

  /** Of the m comparison lists, index i holds the list of "period(m+1-i)":
    * the last parameter read comes first. */
  lemma ComparisonListsOrder(q: map<string, string>, anchor: Date)
    ensures var r := ComparisonLists(q, anchor);
            r.Success? ==> forall i :: 0 <= i < |r.value| ==>
              ExtraList(Get(q, PeriodKey(|r.value| + 1 - i)), anchor) == Success(r.value[i])
  {
    var r := ComparisonLists(q, anchor);
    if r.Success? {
      PeriodKeyInjective();
      var parse := s => ExtraList(s, anchor);
      assert r == ParseExtras(ExtraSpecs(q, PeriodKey, 2), parse);
      forall i | 0 <= i < |r.value|
        ensures parse(Get(q, PeriodKey(|r.value| + 1 - i))) == Success(r.value[i])
      {
        LoopOrder(q, PeriodKey, parse, i);
      }
    }
  }

  /** The loop in general: of the m lists, index i comes from key(m+1-i). */
  lemma LoopOrder(q: map<string, string>, key: int -> string, parse: string -> Result<QueryPeriodList, PeriodError>, i: int)
    requires Injective(key)
    ensures var r := ParseExtras(ExtraSpecs(q, key, 2), parse);
            r.Success? && 0 <= i < |r.value| ==> parse(Get(q, key(|r.value| + 1 - i))) == Success(r.value[i])
  {
    var specs := ExtraSpecs(q, key, 2);
    var r := ParseExtras(specs, parse);
    if r.Success? && 0 <= i < |r.value| {
      ParseExtrasReversed(specs, parse);
      var m := |specs|;
      var j := m - 1 - i;
      ExtraSpecsAt(q, key, 2, j);
      assert 2 + j == m + 1 - i;
    }
  }
}
