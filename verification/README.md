# cloudcostexplorer core in Dafny

A functional model of the multi-period cost aggregation engine of
cloudcostexplorer and of the pure helpers around it, with proofs of what
the code promises.

- **Engine** (query_handler.go). `QueryHandler` reads its options and lays
  out one column per period, in the caller's list order. It resolves the
  requested groups against the cloud's parameters. It then asks the backend
  once per period list, over the list's covering range, and merges the
  records into a table. The table has one row per key hash, per-column
  totals and a grand total. The backend is a value: its parameter list, a
  pure function from query options to a sequence of records or errors
  plus extra data, and the extra-output builder. The mismatch callback
  returns `None` for Go's nil error; every call made to it is recorded in
  the result, so properties can be stated about its arguments.
- **Periods and dates** (query.go, time.go). Dates are day numbers. Day 0
  is 0001-01-01 in the proleptic Gregorian calendar. A small calendar model
  gives the year, month and day of a day number and back again, plus
  timex-style `Add` normalisation. This layer covers `Range`,
  `DateBetweenDates` and `GenerateQueryPeriods`, the period strings, and
  the option lists of a backend query.
- **Period specifications** (cmd/cloudcostexplorer/period.go). It covers
  `ParsePeriodValue` with its `dN`, `mN`, `MYYYYMM` and `T…` forms. It
  also covers `ParsePeriod` with its `R<n>` repeat and the
  `period2`, `period3`, … comparison lists. The request's query is a
  `map<string, string>`, and today's date is a parameter.
- **Rows and parameters** (item.go, parameter.go). This covers
  `NewItem`, `Search` and `DefaultItemKeysHash`. MD5 is a parameter
  `string -> string`. It also covers `FindById`,
  `FindByGroupDefaultPriority` and `DefaultGroup`.
- **Cloud adapters**. For AWS and GCP this covers the parameter tables,
  `MaxGroupBy` and `ParameterTitle`, and GCP's `setParameterValue`. It
  also covers the AWS paginator `awsAPIIterator`, modelled as the trace of
  events it produces, and `buildCostExplorerFilter`. Last, it covers the
  extra-data merges and `QueryExtraOutput`.
- **Helpers**. This covers the `URLQuery` map algebra, `EllipticalTruncate`,
  `SortMapByValue` and the page's cost-difference helpers.

Costs are `real`. A Go `error` inside the extra data is the sequence of
its messages: `[]` is nil, and `errors.Join` is concatenation. Strings are
`seq<char>`; where the code indexes bytes, the model assumes ASCII text.

An extra-data error does not stop later merges: the code joins the errors
and still lets later error-free merges add data
(`ExtraData.ErrorDoesNotBlockUsage`). New usage-type groups are appended in
arrival order, so the order of merges shows in the result
(`ExtraData.MergeUsageOrdered`).

## Model

| member | source | states |
|---|---|---|
| Text.Atoi | cmd/cloudcostexplorer/period.go:84 | strconv.Atoi succeeds exactly on a non-empty digit string with an optional sign, and then gives its decimal value, negated after a "-" |
| Text.AtoiIntToString | cmd/cloudcostexplorer/period.go:84-91 | the decimal text of any integer parses back to that integer |
| Text.TrimPrefix | cmd/cloudcostexplorer/period.go:84 | with the prefix present, the prefix plus the result is the input; otherwise the input is returned unchanged |
| Text.Cut | parameter.go:28 | strings.Cut: found iff the separator occurs; then the input is before + separator + after, with no separator in before; otherwise before is the whole input |
| Text.CutAt | parameter.go:28-32 | an id built as name, the data separator, data, with no separator in the name, cuts back into name and data |
| Text.Contains | item.go:28-31 | strings.Contains is true exactly when the needle is a substring |
| Text.LowerIdempotent | item.go:25-30 | strings.ToLower on ASCII: lower-casing twice, or after upper-casing, gives the same as lower-casing once |
| Dates.NewDate | cmd/cloudcostexplorer/period.go:114-117 | timex.NewDate succeeds exactly for a valid year, month and day, and the date it gives has those fields |
| Dates.DateBetweenDates | time.go:28-30 | for start <= end, the date lies in [start, end]; for start > end, only start and end themselves qualify |
| Dates.EndingOfMonth | time.go:48-52 | the corrected function: same year and month as the input, on the month's last day, never before the input |
| Dates.EndingOfMonthFirstDay | time.go:49-52 | on the first day of a month, the code as written agrees with the corrected function |
| Dates.EndingOfMonthAsWrittenCounterexample | time.go:49-52 | as written, 31 January gives 1 or 2 March, while the corrected function gives 31 January |
| Dates.NormalizeLastDay | time.go:51 | day 0 of the next month normalises to the last day of the month |
| Dates.ShortMonthName | time.go:59-62 | defined only for months 1 to 12, giving a three-letter name |
| Dates.FormatShortDate | time.go:54-57 | the month's short name, a space, then the day's digits, which parse back to the day of the month |
| Dates.FormatShortDateMonthDay | time.go:54-57 | two dates print alike exactly when they share month and day, whatever the year |
| Dates.ParseISO | cmd/cloudcostexplorer/period.go:126 | a successful parse reads a 10-character YYYY-MM-DD string, and the date has exactly those fields |
| Dates.ParseFormatISO | cmd/cloudcostexplorer/period.go:126-132 | formatting a date of years 0-9999 as YYYY-MM-DD and parsing it back gives the date |
| Periods.RangeLoop | query.go:44-56 | the loop's result is set iff some period was seen, and it encloses every period seen |
| Periods.RangeLoopAttained | query.go:44-56 | the start and end found are the start and end of actual periods |
| Periods.Range | query.go:43-57 | false with zero dates exactly for an empty list; otherwise the least start and greatest end, which enclose every period |
| Periods.GenerateQueryPeriods | time.go:34-46 | max(amount, 0) periods, oldest first; the k-th is the input shifted back by (count-1-k) times the range's length |
| Periods.GenerateLastIsInput | time.go:37-44 | the last generated period is the input range |
| Periods.GenerateSameDuration | time.go:35-40 | every generated period has the input's End-Start |
| Periods.GenerateAdjacent | time.go:37-44 | each generated period starts the day after the previous one ends |
| Periods.GenerateCoversOnce | time.go:34-46 | every date from the first start to the input's end lies in exactly one generated period |
| Periods.GenerateRange | time.go:34-46 | the generated list's range is from the first period's start to the input's end |
| Parameters.FindById | parameter.go:22-38 | none iff no parameter matches (same id, or HasData and the same id before the first data separator); a result is a member that matches |
| Parameters.FindByIdFirst | parameter.go:22-38 | the parameter found is the first match in list order |
| Parameters.FindByIdPlain | parameter.go:27-31 | for an id without the data separator, found iff some parameter has exactly that id, and the one found does |
| Parameters.FindByIdWithData | parameter.go:27-34 | name, separator, data finds the first HasData parameter named name when no id equals the whole string |
| Parameters.FindByGroupDefaultPriority | parameter.go:41-48 | none iff no group has that priority; otherwise the first group with it |
| Parameters.FirstGroup | parameter.go:52-60 | none iff there is no group; otherwise the first group in list order |
| Parameters.DefaultGroup | parameter.go:51-65 | the first group of priority 1 if any, else the first group, else the zero parameter |
| Parameters.DefaultGroupIsGroup | parameter.go:51-63 | with any group in the list, the default is a group of the list |
| Items.NewItem | item.go:13-21 | the keys unchanged and max(periods, 0) values, all zero |
| Items.SearchKeys | item.go:26-35 | true iff some key matches |
| Items.Search | item.go:24-37 | true iff some string-valued key contains the lower-cased search in its lower-cased value |
| Items.SearchCaseInsensitive | item.go:25-31 | searching the upper-cased text gives the same answer |
| Items.SearchEmpty | item.go:24-37 | the empty search matches exactly the items with a string-valued key |
| Items.SearchNoStrings | item.go:27 | an item without string-valued keys never matches |
| Items.KeysHashIdsOnly | item.go:51-57 | keys with the same id sequence hash alike, whatever their values |
| Items.KeysHashJoinCollision | item.go:51-57 | the key "a-b" hashes like the keys "a", "b" |
| Query.ParseQueryOptions | query.go:139-152 | success iff the applied options have non-zero start and end and some group; the error names the dates first |
| Query.FiltersAppend | query.go:177-181 | filters of concatenated option lists are the concatenation of their filters |
| Query.GroupsLastWins | query.go:170-174 | the last WithQueryGroups option sets the groups |
| Query.DatesLastWins | query.go:155-160 | the last WithQueryDates option sets start and end |
| Query.NoGroupsOptionFails | query.go:148-150 | without a groups option, parsing fails |
| Query.Title | query.go:75-84 | the label (the menu title only when asked and non-empty), then "[data]" only when data is non-empty |
| Query.TitleIgnoresMenuTitle | query.go:71-79 | String, the non-menu title, does not depend on the menu title, and is the bare label unless there is data |
| Query.ShortDateNoDash | time.go:54-57 | a short date holds no "-", so the period string splits at its dash |
| Query.PeriodString | query.go:93-98 | a one-day period prints as a single short date |
| Query.PeriodStringDash | query.go:93-98 | a "-" appears iff start differs from end, and then splits the string into the two short dates |
| Query.StringWithDuration | query.go:110-116 | the period string, plus " (N days)" with N = End-Start+1 exactly when the flag is set |
| Query.StringFilter | query.go:101-107 | "T" + start, and nothing more exactly when start equals end |
| PeriodSpec.ParseDays | cmd/cloudcostexplorer/period.go:83-91 | "dN" succeeds iff N parses, and then ends at the anchor with N days inclusive; else the days error |
| PeriodSpec.ParseMonths | cmd/cloudcostexplorer/period.go:92-100 | "mN" succeeds iff N parses, and then ends at the anchor; else the months error |
| PeriodSpec.ParseMonth | cmd/cloudcostexplorer/period.go:101-120 | "MYYYYMM" succeeds iff it has length 7, both numbers parse and the month is valid; then the month's first to last day; the two errors otherwise |
| PeriodSpec.ParseDateRange | cmd/cloudcostexplorer/period.go:121-146 | "T" succeeds iff the length is 11 or 22 and the dates parse; the end is the second date or the start |
| PeriodSpec.ParsePeriodValue | cmd/cloudcostexplorer/period.go:147-149 | an unknown prefix fails with "unknown period value", and only an unknown prefix does |
| PeriodSpec.DaysRoundTrip | cmd/cloudcostexplorer/period.go:83-91 | "d" + N gives the N days ending at the anchor |
| PeriodSpec.MonthRoundTrip | cmd/cloudcostexplorer/period.go:101-120 | "M" + YYYY + MM gives that whole month |
| PeriodSpec.MonthFieldsRoundTrip | cmd/cloudcostexplorer/period.go:106-107 | the year and month fields of a formatted "MYYYYMM" read back as the numbers written |
| PeriodSpec.StringFilterRoundTrip | query.go:101-107 | re-parsing a period's filter string gives back its start and end |
| PeriodSpec.StringFilterDay | query.go:101-104 | a one-day filter string has length 11 and holds the day |
| PeriodSpec.StringFilterRange | query.go:101-107 | a range's filter string has length 22 and holds both dates |
| PeriodSpec.DateRangeSeparatorIgnored | cmd/cloudcostexplorer/period.go:126-132 | the character between the two dates is never read |
| PeriodSpec.DateRangeReadsFields | cmd/cloudcostexplorer/period.go:121-138 | the result depends only on the length and the date fields |
| PeriodSpec.InitialDate | cmd/cloudcostexplorer/period.go:154-165 | today minus two days, and minus skipdays more when that parses |
| PeriodSpec.PeriodKeyInjective | cmd/cloudcostexplorer/period.go:60 | distinct indexes give distinct "periodN" keys |
| PeriodSpec.ExtraSpecs | cmd/cloudcostexplorer/period.go:57-63 | the specs read are non-empty, and the key after the last one is absent or empty |
| PeriodSpec.ExtraSpecsAt | cmd/cloudcostexplorer/period.go:59-63 | the i-th spec read is the value of period(2+i) |
| PeriodSpec.ExtraSpecsSameKeys | cmd/cloudcostexplorer/period.go:59-63 | the specs read depend only on the periodN values |
| PeriodSpec.ExtraList | cmd/cloudcostexplorer/period.go:64-71 | a spec becomes the one-period list of its parsed range, or its parse error |
| PeriodSpec.ParseExtras | cmd/cloudcostexplorer/period.go:59-73 | on success, one list per spec |
| PeriodSpec.ParseExtrasReversed | cmd/cloudcostexplorer/period.go:69-71 | each list is inserted at the front, so the lists come out in reverse reading order |
| PeriodSpec.ParseExtrasFailure | cmd/cloudcostexplorer/period.go:64-67 | parsing fails iff some spec fails, with the error of the first failing one |
| PeriodSpec.ParsePeriod | cmd/cloudcostexplorer/period.go:23-37 | a main spec that fails to parse fails the whole; a success has at least one list |
| PeriodSpec.EmptyPeriodIsD14 | cmd/cloudcostexplorer/period.go:26-28 | an empty period behaves as "d14" |
| PeriodSpec.ParsePeriodReads | cmd/cloudcostexplorer/period.go:24-25 | the result depends only on period, period2 and the comparison lists |
| PeriodSpec.ComparisonListsSameKeys | cmd/cloudcostexplorer/period.go:57-74 | the comparison lists depend only on the periodN values |
| PeriodSpec.MainKeyIsNoComparisonKey | cmd/cloudcostexplorer/period.go:58-60 | the comparison loop never reads "period" |
| PeriodSpec.RepeatList | cmd/cloudcostexplorer/period.go:39-50 | "R<n>" succeeds iff the main spec and n parse, and gives the single list of n generated periods |
| PeriodSpec.Period2Lists | cmd/cloudcostexplorer/period.go:15-74 | there are two or more lists exactly when comparison periods are requested |
| PeriodSpec.Period2Order | cmd/cloudcostexplorer/period.go:57-76 | the main period's list comes last, after the comparison lists anchored the day before its start |
| PeriodSpec.ComparisonListsCount | cmd/cloudcostexplorer/period.go:57-63 | some comparison list iff period2 is set, and reading stops at the first missing key |
| PeriodSpec.ComparisonListsOrder | cmd/cloudcostexplorer/period.go:64-72 | list i comes from period(K+1-i), giving periodK, …, period2 |
| PeriodSpec.LoopOrder | cmd/cloudcostexplorer/period.go:58-73 | the reversed order holds for any injective key naming and parser |
| Engine.ParseHandlerOptions | query_handler.go:125-138 | fails iff no groups; otherwise keeps every option, and the hash defaults to DefaultItemKeysHash |
| Engine.PeriodListsAppend | query_handler.go:141-154 | period lists of concatenated option lists accumulate in order |
| Engine.HandlerGroupsLastWins | query_handler.go:157-161 | the last groups option sets the groups |
| Engine.SameDurationLoop | query_handler.go:23-35 | the corrected loop: true iff every period has the first period's End-Start |
| Engine.SameDuration | query_handler.go:21-36 | true iff every period has the same End-Start as the first |
| Engine.SameDurationAgrees | query_handler.go:23-34 | when no period has End-Start = -1, the loop as written agrees with the corrected one |
| Engine.SameDurationAgreesWhenSet | query_handler.go:23-34 | the same agreement, stated for every list of periods as an implication |
| Engine.SameDurationAsWrittenCounterexample | query_handler.go:23-34 | as written, periods of durations -1 and 5 are reported as the same duration |
| Engine.ResolveGroups | query_handler.go:41-51 | success iff every group id is found and is a group, with one result per group; otherwise an invalid-group error |
| Engine.ResolveGroupsValues | query_handler.go:47-50 | each result is the parameter found for the id, with the group's data |
| Engine.ResolveGroupsFirstInvalid | query_handler.go:41-45 | the error names the first invalid group |
| Engine.BumpedSums | query_handler.go:96-104 | after bucketing a record, each column sum grows by what the record adds to that column |
| Engine.Accumulate | query_handler.go:90-104 | the row is created on first sighting with the record's keys; other rows keep their keys; the grand total grows by the value; each column total grows by its share; column totals still equal column sums |
| Engine.Step | query_handler.go:86-111 | fails iff the callback is consulted and returns an error; a filtered record changes nothing; a call is logged iff the callback is consulted |
| Engine.RunRecords | query_handler.go:81-112 | succeeds iff no backend error and no callback error; keeps rows well formed, column totals equal column sums, and rows keyed by their hash |
| Engine.RunRecordsFailure | query_handler.go:81-111 | a failure carries the backend's error or the callback's error of some record |
| Engine.RunRecordsTotal | query_handler.go:94 | the grand total grows by the sum of the kept records' values, each counted once |
| Engine.RunRecordsTotals | query_handler.go:96-104 | each column total grows by the values of the records it takes |
| Engine.RunRecordsRows | query_handler.go:90-93 | the rows are the earlier rows plus one per distinct hash of a kept record |
| Engine.RunRecordsCalls | query_handler.go:106-111 | the callback is called once for each kept record whose match count is not 1, in order |
| Engine.FilteredRecordIgnored | query_handler.go:86-88 | a record rejected by filterKeys can be removed without changing anything |
| Engine.SinglePeriodTakesAll | query_handler.go:97-101 | in a single-period list the column takes every kept record, with no date check |
| Engine.MultiPeriodByDate | query_handler.go:97-101 | in a multi-period list a column takes a record iff the period contains its date |
| Engine.GeneratedListNeverMismatches | query_handler.go:96-106 | for a list from GenerateQueryPeriods, a record within the list's range matches exactly once and never reaches the callback |
| Engine.MismatchArgCounterexample | query_handler.go:107 | as written, a record matching two periods reports 0 (the column offset), while the corrected handler reports 2 |
| Engine.ListQueryOptionsParse | query_handler.go:61-79 | the backend query covers the list's range, with the handler's groups and filters, and groups by date iff the list has more than one period |
| Engine.RunLists | query_handler.go:56-115 | over all lists the table stays well formed, column totals equal column sums, rows are keyed by their hash, and rows already present keep their keys; when it succeeds, and what each column and row then holds, is stated by RunListsSucceeds, RunListsColumns and RunListsRows |
| Engine.RunListsSucceeds | query_handler.go:56-115 | the list loop succeeds exactly when every non-empty list's query returns only records and the callback rejects none of them |
| Engine.RunListsColumns | query_handler.go:94-104 | each column total grows by what the kept records of every list's query add to that column |
| Engine.RunListsRows | query_handler.go:90-93 | the rows are the earlier rows plus one per hash of a kept record of any list |
| Engine.ColumnTotalOutside | query_handler.go:97-102 | a list adds nothing to a column outside its own column range |
| Engine.ListsColumnTotalOwn | query_handler.go:97-114 | a column's total comes from the list whose periods cover it alone, at that list's column offset |
| Engine.AllPeriodsAt | query_handler.go:24-28 | column c is period c - offset of the list k covering it, the offset being the period count of the lists before k |
| Engine.RunListsTotals | query_handler.go:56-115 | the grand total is the sum of the kept records of every list |
| Engine.RunListsNoCallback | query_handler.go:106 | without a callback, no call is made |
| Engine.RunListsNoneReportsOne | query_handler.go:106-107 | passing the match count, the callback never receives 1 |
| Engine.RunRecordsNoneReportsOne | query_handler.go:106-107 | the same, for one list |
| Engine.CallsOfMatchCount | query_handler.go:106-107 | passing the match count, no call reports a count of 1 |
| Engine.NoCallbackNoCalls | query_handler.go:106 | no callback means no calls |
| Engine.QueryHandlerWith | query_handler.go:12-121 | the errors in order (no groups, no periods, invalid group); on success one column per period in caller order, every row as wide as the table, the resolved groups, and the same-duration flag: the loop as written in the as-written mode, "every End-Start equals the first" in the corrected mode; backend and callback failures are characterised by QueryHandlerRuns |
| Engine.QueryHandlerTable | query_handler.go:94-104 | on success each column total is the column's sum over the rows, each row sits under its keys' hash, and the grand total counts each kept record once |
| Engine.QueryHandlerRuns | query_handler.go:56-115 | past validation the handler succeeds exactly when every non-empty list's query returns only records the callback accepts |
| Engine.QueryHandlerRows | query_handler.go:90-93 | on success the rows are one per hash of a kept record of any list's query |
| Engine.QueryHandlerColumns | query_handler.go:94-104 | on success each column total is what the kept records of the lists' queries add to that column |
| Engine.QueryHandlerAsWritten | query_handler.go:21-121 | the handler as written: the column invariant holds; the same-duration flag is the loop as written, which agrees with "every End-Start equals the first" while no End-Start is -1 |
| Engine.QueryHandler | query_handler.go:12-121 | the corrected handler: the column invariant holds, the callback never receives a match count of 1, and the same-duration flag is set iff every period has the first one's End-Start |
| Engine.FailsBeforeQuery | query_handler.go:37-45 | with no groups, no periods or an invalid group, the handler fails with the same error whatever the backend returns |
| AwsPaging.BuildFilter | cloud/aws/util.go:14-24 | nil for no filters, the filter itself for one, an And of all for more |
| AwsPaging.BuildFilterConjuncts | cloud/aws/util.go:14-24 | the conjuncts of the result are exactly the input filters |
| AwsPaging.Iterate | cloud/aws/util.go:43-61 | each round starts with a fetch of the current token, and fetches never exceed the fuel |
| AwsPaging.Paginate | cloud/aws/util.go:39-63 | the first event is a fetch without a token |
| AwsPaging.IterateFollowsNext | cloud/aws/util.go:43-61 | every event of a round is the one the state machine prescribes |
| AwsPaging.IterateStopsWithNext | cloud/aws/util.go:57-59 | short of the fuel, iteration stops exactly where the state machine stops |
| AwsPaging.PaginateFollowsNext | cloud/aws/util.go:41-62 | each event is what the state machine allows after the events before it: first a fetch without a token; an error ends it; a page is delivered before its token is read; a declined page, a token error or an empty token ends it; otherwise the next fetch uses that token |
| AwsPaging.ErrorIsLast | cloud/aws/util.go:44-56 | an error is the last event |
| AwsPaging.DeclinedPageIsLast | cloud/aws/util.go:49-51 | a page the consumer declines is the last event |
| AwsPaging.InputCalls | cloud/aws/util.go:27-36 | the first call sends the input with no token, and its result becomes the first page or error |
| ExtraData.AppendNew | cloud/aws/extra_data.go:24-29 | keeps the old entries as a prefix, the result as a set is the union, and a duplicate-free list stays duplicate-free |
| ExtraData.AppendNewKnown | cloud/aws/extra_data.go:24-29 | entries already present add nothing |
| ExtraData.AppendNewIdempotent | cloud/aws/extra_data.go:24-29 | appending the same entries twice is appending them once |
| ExtraData.MergeUsage | cloud/aws/extra_data.go:20-31 | an incoming error is joined and its data ignored; otherwise the new groups are appended after the old, as a set union |
| ExtraData.MergeUsageIdempotent | cloud/aws/extra_data.go:24-29 | merging the same error-free input twice equals merging it once |
| ExtraData.ErrorDoesNotBlockUsage | cloud/aws/extra_data.go:20-31 | after an error, an error-free merge still adds data |
| ExtraData.MergeUsageOrdered | cloud/aws/extra_data.go:24-29 | the data keeps arrival order, so merge order matters |
| ExtraData.MergeTagMaps | cloud/aws/extra_data.go:46-58 | new tag names come in with their values; existing tags keep their values as a prefix and gain the others |
| ExtraData.MergeTagsLoop | cloud/aws/extra_data.go:46-58 | the names after the loop are the old ones plus those visited |
| ExtraData.MergeTagsLoopVisits | cloud/aws/extra_data.go:46-58 | the loop over a duplicate-free order is the per-name merge of the names visited |
| ExtraData.MergeTagsOrderIndependent | cloud/aws/extra_data.go:46-58 | any iteration order of the incoming map gives the same tags |
| ExtraData.MergeTags | cloud/aws/extra_data.go:42-60 | an incoming error is joined and its data ignored; otherwise the names are the union, and old values stay a prefix |
| ExtraData.CollectUsage | cloud/aws/extra_data.go:82-89 | an error iff some usage input has one; a group is present iff some error-free usage input has it; no duplicates |
| ExtraData.CollectTags | cloud/aws/extra_data.go:82-89 | an error iff some tag input has one; a name is present iff some error-free tag input has it |
| ExtraData.QueryExtraOutput | cloud/aws/extra_data.go:82-99 | each section is present iff some input of that kind has an error or data, and then holds the merged result; other kinds are ignored |
| ExtraData.UsageSectionPresent | cloud/aws/extra_data.go:91-93 | the merged usage has an error or data iff some usage input had one |
| ExtraData.TagSectionPresent | cloud/aws/extra_data.go:95-97 | the merged tags have an error or data iff some tag input had one |
| UrlQuery.NewURLQuery | urlq.go:15-20 | the path and no parameters |
| UrlQuery.Clone | urlq.go:23-28 | the same path and the same entries |
| UrlQuery.Set | urlq.go:39-42 | the key gets the value, and every other key keeps its presence and value |
| UrlQuery.SetFromQuery | urlq.go:44-49 | every listed key gets the request's first value or ""; the others are untouched |
| UrlQuery.Copy | urlq.go:51-56 | with from present, to gets its value and from stays; otherwise nothing changes |
| UrlQuery.Move | urlq.go:58-64 | from is always gone; to gets from's value when from was present and differs from to; others are untouched |
| UrlQuery.MoveSelfRemoves | urlq.go:58-64 | moving a key onto itself removes it |
| UrlQuery.Swap | urlq.go:66-75 | with both keys present the values are exchanged; otherwise nothing changes |
| UrlQuery.SwapTwice | urlq.go:66-75 | swapping twice is the identity |
| UrlQuery.Remove | urlq.go:81-86 | exactly the listed keys are deleted, and the rest keep their values |
| UrlQuery.Params | urlq.go:103-114 | exactly the entries with a non-empty value |
| UrlQuery.SetEmptyHides | urlq.go:103-114 | a key set to "" is hidden from Params, as if removed |
| UrlQuery.StringDependsOnParams | urlq.go:88-101 | with "" as the encoding of no values, the URL depends only on the path and the non-empty parameters |
| Util.LastSpace | util.go:77-86 | the last space at or before the bound, or the default when there is none |
| Util.EllipticalTruncate | util.go:76-90 | text no longer than maxLen is returned unchanged; longer text is cut at the last space among its first maxLen+1 characters (or at maxLen) and "..." appended |
| Util.TruncatedShape | util.go:76-87 | a truncated title is at most maxLen+3 long, a prefix of the text plus "...", cut at the last whitespace within the first maxLen+1 characters, and at maxLen only when there is none |
| Util.SortByValue | util.go:42-44 | the sort keeps exactly the input keys |
| Util.SortByValueSorted | util.go:42-44 | the keys come out non-decreasing by value under a weak order |
| Util.SortMapByValue | util.go:40-54 | every key of the map exactly once |
| Util.SortMapByValueOrder | util.go:40-54 | values non-decreasing, or non-increasing when reversed |
| Util.ReverseSorted | util.go:45-47 | reversing a sorted order gives a non-increasing one |
| Util.Yielded | util.go:48-52 | the keys yielded are a prefix of the order, and yielding stops right after the consumer first returns false |
| CostDiff.CostDiffPct | cmd/cloudcostexplorer/util.go:12-20 | cost1 when cost2 is 0; otherwise its sign is the sign of cost1 - cost2 |
| CostDiff.CostDiffPctInverse | cmd/cloudcostexplorer/util.go:12-20 | the percentage scales back to the amount of change |
| CostDiff.ItemCostDiffGet | cmd/cloudcostexplorer/util.go:22-27 | (0, 0) out of bounds; otherwise the change from the previous column and its percentage |
| CostDiff.PeriodCostDiffGet | cmd/cloudcostexplorer/util.go:29-34 | the same rule over the period totals |
| CostDiff.PeriodDiffIsItemDiff | cmd/cloudcostexplorer/util.go:22-34 | the period difference is the item difference of a row holding the totals |
| CostDiff.Compare | cmd/cloudcostexplorer/util.go:48-50 | cmp.Compare: -1, 0 or 1 as x is below, equal to or above y |
| CostDiff.CompareCost | cmd/cloudcostexplorer/util.go:46-51 | ordered by x against y, or by y against x when reversed |
| CostDiff.CompareReverse | cmd/cloudcostexplorer/util.go:46-51 | reversing swaps the arguments and negates the result |
| GcpCloud.SetParameterValue | cloud/gcp/cloud.go:59-68 | creates the parameter's table on first use; a new value gets the title; a known value and everything else are unchanged |
| GcpCloud.ParameterTitle | cloud/gcp/cloud.go:70-76 | the default for an unknown parameter; the recorded title, or "" for an unknown value |
| GcpCloud.FirstTitleWins | cloud/gcp/cloud.go:59-68 | a later title for the same value does not replace the first |
| GcpCloud.TitleOfRecorded | cloud/gcp/cloud.go:59-76 | on a fresh cloud, the title recorded is the title found |
| GcpCloud.GcpDataParameters | cloud/gcp/cloud.go:125-148 | LABEL, SYSLABEL and TAGS are the HasData parameters; they are groups and filters, not DataRequired and not IsGroupFilter |
| GcpCloud.GcpDefaultGroup | cloud/gcp/cloud.go:79-87 | the default group is PROJECT |
| GcpCloud.GcpPriorityTwo | cloud/gcp/cloud.go:88-95 | priority 2 is SERVICE |
| GcpCloud.GcpPriorityThree | cloud/gcp/cloud.go:103-110 | priority 3 is SKU |
| AwsCloud.ParameterTitle | cloud/aws/cloud.go:49-59 | the default for every id but LINKED_ACCOUNT; for it, the account's name when known, else the default |
| AwsCloud.ParameterTitleKnown | cloud/aws/cloud.go:49-59 | the title differs from the default only for a known linked account |
| AwsCloud.AwsDefaultGroup | cloud/aws/cloud.go:62-70 | the default group is LINKED_ACCOUNT |
| AwsCloud.AwsPriorityTwo | cloud/aws/cloud.go:71-78 | priority 2 is SERVICE |
| AwsCloud.AwsPriorityThree | cloud/aws/cloud.go:86-93 | priority 3 is USAGE_TYPE |
| AwsCloud.AwsParameterKinds | cloud/aws/cloud.go:94-201 | only USAGE_TYPE_GROUP and PURCHASE_TYPE are not groups, and they are filters; TAG is the only HasData parameter, and it is DataRequired |

## Left out

- The `MaxGroupBy` limits (4 for GCP, 2 for AWS) are constants `GcpCloud.MaxGroupBy` and `AwsCloud.MaxGroupBy`; there is nothing to state about them.
- Floating point: costs are `real`, so IEEE rounding and summation order are not modelled.
- The order of `QueryHandler`'s items: the rows are a map keyed by hash, because Go's map iteration order is unspecified.
- `ctx`, HTTP, the AWS and GCP SDK calls, BigQuery and the concurrency of the AWS adapter are out of scope. The backend is a pure function from query options to records.
- `DefaultHash` (MD5) is a parameter. `FormatMoney`, `IndentJSON`, `RandString`, `TimeStartEnd`, `FromCivilDate` and `DaysDelay` are left out, because they are library formatting, randomness or time-library conversions.
- The GCP and AWS loaders are modelled only through their parameter tables. Loading linked accounts and parameter titles from the cloud is I/O, so those maps are inputs.
- The reflection token accessors `awsAPIGetNextPageToken` and `awsAPISetNextPageToken` are left out. They are a given function from page to token-or-error, and the input's token field.
- AwsPaging.Paginate: bounded by a `fuel` count of fetches, because a backend that keeps returning tokens never stops the Go loop. `PaginateFollowsNext` states that a run short of its fuel ended where the code ends.
- PeriodSpec.ParseMonths: states the end (the anchor) and the error path but not the start. That is timex's `Add(0, -N, 1)` with month overflow normalisation, which the calendar model gives through `Dates.Add` without a closed form.
- PeriodSpec.InitialDate: today's date is a parameter. A failing skipdays is ignored without printing.
- Text.ToLower: folds ASCII letters only; Go's strings.ToLower also folds non-ASCII letters (and maps 'İ' to 'i̇'), which the model does not.
- Text.LowerIdempotent: proved for the ASCII folding only; Go's Unicode folding is not modelled.
- Items.Search: compares with ASCII-only lower-casing, so a match that depends on folding a non-ASCII letter is not modelled.
- Items.SearchCaseInsensitive: proved for ASCII case only; Go's strings.ToUpper/ToLower on non-ASCII letters (such as 'ı' and 'İ') are not modelled.
- Text.Atoi: does not model the out-of-range error of `strconv.Atoi` for numbers beyond 64 bits.
- Util.EllipticalTruncate: indexes characters and assumes ASCII text, where Go counts runes but slices bytes. Its precondition excludes the inputs on which Go's slice panics (a negative maxLen before any space).
- Util.SortMapByValue: takes the map's keys in some order as input and proves a sorted permutation; the stability of ties, which depends on Go's map order, is not stated.
- UrlQuery.StringDependsOnParams: `url.Values.Encode` is a parameter, so only the shape "path?encoded" is stated, not the percent-encoding.
- UrlQuery.Clone: independence of the copy is inherent in values. In Go the copy is a fresh map, and here nothing is shared.
- ExtraData.MergeTags: Go stores the incoming tag pointer (extra_data.go:49), so a later merge into that tag also changes the caller's value. Values cannot alias here.
- Dates: the calendar is unbounded. timex's own year range, and parsing dates outside years 0-9999, are not modelled.
- The comparison-period loop in `ParsePeriod` is modelled as reading all `periodN` values first and then parsing them in order. Reading is pure, so the results and the first error are the same.
- Error text is a constructor per message, not the formatted Go string.

## Findings

| source | as written | input that shows it | evidently intended | confidence | as-written member | corrected member |
|---|---|---|---|---|---|---|
| query_handler.go:107 | the mismatch callback receives `periodStart`, the list's column offset (Engine.QueryHandlerAsWritten) | periods [d, d+1] and [d+1, d+2] in the first list, record dated d+1: it matches 2 periods, and the callback receives 0 | the match count; the option's parameter is named `matchCount` (query_handler.go:186) | high, not executed | Engine.MismatchArgCounterexample | Engine.QueryHandler |
| time.go:49-52 | `EndingOfMonth` is `date.Add(0, 1, -1)` (Dates.EndingOfMonthAsWritten) | 31 January gives 1 March in a leap year and 2 March otherwise | the last day of the date's month, as its comment says; the only caller passes first days, where both agree | medium, not executed | Dates.EndingOfMonthAsWrittenCounterexample | Dates.EndingOfMonth |
| query_handler.go:23-34 | -1 is the "no period yet" sentinel, but -1 is also a possible `End-Start` (Engine.SameDurationAsWritten) | first period with End-Start = -1 (start after end), second with 5: reported as the same duration | the same-duration flag compares every period with the first | low, not executed | Engine.SameDurationAsWrittenCounterexample | Engine.SameDuration |
