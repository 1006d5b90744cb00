/**
 * The multi-period aggregation engine (query_handler.go's QueryHandler): every
 * period list is answered by one backend query over its covering range, and
 * the returned records are merged into one table with a row per key hash and
 * a column per period.
 */
module Engine {
  import opened Wrappers
  import opened Dates
  import opened Periods
  import opened Parameters
  import opened Items
  import opened Query

  /** One record produced by a backend query. */
  datatype CloudQueryItem = CloudQueryItem(date: Date, keys: seq<ItemKey>, value: real)

  /** One step of the backend's iterator: a record or an error. */
  datatype Fetched = Record(item: CloudQueryItem) | FetchError(message: string)

  /** What one backend query yields: its records in order, and the extra data
    * it hands to the collecting callback. */
  datatype QueryRun<X> = QueryRun(records: seq<Fetched>, extraData: seq<X>)

  /** The backend: its parameter list, the query (a function of the options it
    * is given) and the extra-output builder. */
  datatype Cloud<!X, O> = Cloud(
    parameters: seq<Parameter>,
    query: seq<QueryOption> -> QueryRun<X>,
    queryExtraOutput: seq<X> -> O)

  type KeysHash = seq<ItemKey> -> string
  type KeysFilter = seq<ItemKey> -> bool
  /** The mismatch callback: None for Go's nil error, Some(message) to abort. */
  type MismatchHandler = (CloudQueryItem, int) -> Option<string>

  datatype HandlerError =
    | NoGroups
    | NoPeriods
    | InvalidGroup(id: string)
    | BackendError(message: string)
    | CallbackError(message: string)

  // ---------------------------------------------------------------------------
  // Options

  datatype HandlerOption =
    | WithPeriodLists(lists: seq<QueryPeriodList>)
    | WithPeriods(periods: seq<QueryPeriod>)
    | WithGroups(groups: seq<QueryGroup>)
    | WithFilters(filters: seq<QueryFilter>)
    | WithItemKeysHash(hash: KeysHash)
    | WithFilterKeys(keep: KeysFilter)
    | WithOnPeriodMatchError(onMismatch: MismatchHandler)

  datatype HandlerOptions = HandlerOptions(
    periodLists: seq<QueryPeriodList>,
    groups: seq<QueryGroup>,
    filters: seq<QueryFilter>,
    filterKeys: Option<KeysFilter>,
    itemKeysHash: Option<KeysHash>,
    onPeriodMatchError: Option<MismatchHandler>)

  const NoHandlerOptions := HandlerOptions([], [], [], None, None, None)

  /** The effect of one option: period lists and filters accumulate, the rest overwrite. */
  function ApplyHandlerOption(o: HandlerOptions, opt: HandlerOption): HandlerOptions {
    match opt
    case WithPeriodLists(ls) => o.(periodLists := o.periodLists + ls)
    case WithPeriods(ps) => o.(periodLists := o.periodLists + [QueryPeriodList(ps)])
    case WithGroups(g) => o.(groups := g)
    case WithFilters(f) => o.(filters := o.filters + f)
    case WithItemKeysHash(h) => o.(itemKeysHash := Some(h))
    case WithFilterKeys(k) => o.(filterKeys := Some(k))
    case WithOnPeriodMatchError(m) => o.(onPeriodMatchError := Some(m))
  }

  function ApplyHandlerOptions(opts: seq<HandlerOption>): HandlerOptions {
    if opts == [] then NoHandlerOptions
    else ApplyHandlerOption(ApplyHandlerOptions(opts[..|opts| - 1]), opts[|opts| - 1])
  }

  /** The options after defaulting: the key hash is always present. */
  datatype Resolved = Resolved(
    periodLists: seq<QueryPeriodList>,
    groups: seq<QueryGroup>,
    filters: seq<QueryFilter>,
    filterKeys: Option<KeysFilter>,
    itemKeysHash: KeysHash,
    onPeriodMatchError: Option<MismatchHandler>)

  /** parseQueryHandlerOptions: at least one group is required, and the key
    * hash defaults to DefaultItemKeysHash over the digest `md5`. */
  function ParseHandlerOptions(md5: string -> string, opts: seq<HandlerOption>): (r: Result<Resolved, HandlerError>)
    ensures r.Failure? <==> ApplyHandlerOptions(opts).groups == []
    ensures r.Failure? ==> r.error == NoGroups
    ensures r.Success? ==> var o := ApplyHandlerOptions(opts);
              r.value.periodLists == o.periodLists && r.value.groups == o.groups &&
              r.value.filters == o.filters && r.value.filterKeys == o.filterKeys &&
              r.value.onPeriodMatchError == o.onPeriodMatchError
    ensures r.Success? && ApplyHandlerOptions(opts).itemKeysHash.Some? ==>
              r.value.itemKeysHash == ApplyHandlerOptions(opts).itemKeysHash.value
    ensures r.Success? && ApplyHandlerOptions(opts).itemKeysHash.None? ==>
              forall keys :: r.value.itemKeysHash(keys) == DefaultItemKeysHash(md5, keys)
  {
    var o := ApplyHandlerOptions(opts);
    if |o.groups| == 0 then Failure(NoGroups)
    else
      var hash: KeysHash := if o.itemKeysHash.Some? then o.itemKeysHash.value else keys => DefaultItemKeysHash(md5, keys);
      Success(Resolved(o.periodLists, o.groups, o.filters, o.filterKeys, hash, o.onPeriodMatchError))
  }

  function PeriodListsOf(opts: seq<HandlerOption>): seq<QueryPeriodList> {
    ApplyHandlerOptions(opts).periodLists
  }

  /** Period lists accumulate across options, in option order. */
  lemma {:induction false} PeriodListsAppend(a: seq<HandlerOption>, b: seq<HandlerOption>)
    ensures PeriodListsOf(a + b) == PeriodListsOf(a) + PeriodListsOf(b)
    decreases |b|
  {
    if b == [] {
      assert a + b == a;
    } else {
      var b' := b[..|b| - 1];
      assert (a + b)[..|a + b| - 1] == a + b';
      assert (a + b)[|a + b| - 1] == b[|b| - 1];
      PeriodListsAppend(a, b');
    }
  }

  /** Groups overwrite: the last groups option decides. */
  lemma {:induction false} HandlerGroupsLastWins(opts: seq<HandlerOption>, k: nat)
    requires k < |opts| && opts[k].WithGroups?
    requires forall j :: k < j < |opts| ==> !opts[j].WithGroups?
    ensures ApplyHandlerOptions(opts).groups == opts[k].groups
    decreases |opts|
  {
    if k < |opts| - 1 {
      HandlerGroupsLastWins(opts[..|opts| - 1], k);
    }
  }

  // ---------------------------------------------------------------------------
  // Periods and groups of the result

  function PeriodCount(lists: seq<QueryPeriodList>): nat {
    if lists == [] then 0 else |lists[0].periods| + PeriodCount(lists[1..])
  }

  /** The result's columns: every period of every list, in order. */
  function AllPeriods(lists: seq<QueryPeriodList>): (r: seq<QueryPeriod>)
    ensures |r| == PeriodCount(lists)
  {
    if lists == [] then [] else lists[0].periods + AllPeriods(lists[1..])
  }

  /** The period-duration loop as written: -1 marks "no period seen yet", so a
    * first period whose end is the day before its start is not remembered. */
  function SameDurationLoopAsWritten(ps: seq<QueryPeriod>, last: int, same: bool): bool {
    if ps == [] then same
    else
      var d := Duration(ps[0]);
      if last == -1 then SameDurationLoopAsWritten(ps[1..], d, same)
      else SameDurationLoopAsWritten(ps[1..], last, same && d == last)
  }

  function SameDurationAsWritten(ps: seq<QueryPeriod>): bool {
    SameDurationLoopAsWritten(ps, -1, true)
  }

  /** The same loop remembering the first duration explicitly. */
  function SameDurationLoop(ps: seq<QueryPeriod>, first: Option<int>): (r: bool)
    ensures first.Some? ==> (r <==> forall i :: 0 <= i < |ps| ==> Duration(ps[i]) == first.value)
    ensures first.None? ==> (r <==> forall i :: 0 <= i < |ps| ==> Duration(ps[i]) == Duration(ps[0]))
  {
    if ps == [] then true
    else
      var d := Duration(ps[0]);
      if first.None? then SameDurationLoop(ps[1..], Some(d))
      else d == first.value && SameDurationLoop(ps[1..], first)
  }

  /** PeriodsSameDuration: every period is as long as the first one. */
  function SameDuration(ps: seq<QueryPeriod>): (r: bool)
    ensures r <==> forall i :: 0 <= i < |ps| ==> Duration(ps[i]) == Duration(ps[0])
  {
    SameDurationLoop(ps, None)
  }

  lemma {:induction false} SameDurationLoopAgrees(ps: seq<QueryPeriod>, last: int, same: bool)
    requires forall i :: 0 <= i < |ps| ==> Duration(ps[i]) != -1
    ensures last != -1 ==> SameDurationLoopAsWritten(ps, last, same) == (same && SameDurationLoop(ps, Some(last)))
    ensures last == -1 ==> SameDurationLoopAsWritten(ps, last, same) == (same && SameDurationLoop(ps, None))
    decreases |ps|
  {
    if ps != [] {
      SameDurationLoopAgrees(ps[1..], if last == -1 then Duration(ps[0]) else last, same && (last == -1 || Duration(ps[0]) == last));
    }
  }

  /** While no period ends the day before it starts, the written loop and the
    * intended one agree. */
  lemma SameDurationAgrees(ps: seq<QueryPeriod>)
    requires forall i :: 0 <= i < |ps| ==> Duration(ps[i]) != -1
    ensures SameDurationAsWritten(ps) == SameDuration(ps)
  {
    SameDurationLoopAgrees(ps, -1, true);
  }

  lemma SameDurationAgreesWhenSet(ps: seq<QueryPeriod>)
    ensures (forall i :: 0 <= i < |ps| ==> Duration(ps[i]) != -1) ==> SameDurationAsWritten(ps) == SameDuration(ps)
  {
    if forall i :: 0 <= i < |ps| ==> Duration(ps[i]) != -1 {
      SameDurationAgrees(ps);
    }
  }

  /** An empty first period (end one day before start, as "d0" produces) is
    * not remembered, so a six-day second period is reported as the same
    * duration. */
  lemma SameDurationAsWrittenCounterexample(d: Date)
    ensures var ps := [QueryPeriod("", d + 1, d), QueryPeriod("", d, d + 5)];
            SameDurationAsWritten(ps) && !SameDuration(ps)
  {
    var ps := [QueryPeriod("", d + 1, d), QueryPeriod("", d, d + 5)];
    assert ps[1..][1..] == [];
    assert Duration(ps[1]) != Duration(ps[0]);
  }

  /** The id names a grouping parameter of the cloud. */
  predicate ValidGroup(params: seq<Parameter>, g: QueryGroup) {
    FindById(params, g.id).Some? && FindById(params, g.id).value.isGroup
  }

  /** Resolves the requested groups against the cloud's parameters: every id
    * must name a grouping parameter. */
  function ResolveGroups(params: seq<Parameter>, groups: seq<QueryGroup>): (r: Result<seq<QueryResultGroup>, HandlerError>)
    ensures r.Success? <==> forall i :: 0 <= i < |groups| ==> ValidGroup(params, groups[i])
    ensures r.Success? ==> |r.value| == |groups|
    ensures r.Failure? ==> r.error.InvalidGroup?
  {
    if groups == [] then Success([])
    else
      var p := FindById(params, groups[0].id);
      if p.None? || !p.value.isGroup then Failure(InvalidGroup(groups[0].id))
      else
        var rest := ResolveGroups(params, groups[1..]);
        assert forall i :: 1 <= i < |groups| ==> groups[i] == groups[1..][i - 1];
        if rest.Failure? then rest.PropagateFailure()
        else Success([QueryResultGroup(p.value, groups[0].data)] + rest.value)
  }

  /** Each resolved group carries the parameter its id names and its data. */
  lemma {:induction false} ResolveGroupsValues(params: seq<Parameter>, groups: seq<QueryGroup>)
    ensures var r := ResolveGroups(params, groups);
            r.Success? ==> forall i :: 0 <= i < |groups| ==>
              r.value[i] == QueryResultGroup(FindById(params, groups[i].id).value, groups[i].data)
    decreases |groups|
  {
    if groups != [] && ValidGroup(params, groups[0]) {
      ResolveGroupsValues(params, groups[1..]);
      var r := ResolveGroups(params, groups);
      if r.Success? {
        forall i | 1 <= i < |groups|
          ensures r.value[i] == QueryResultGroup(FindById(params, groups[i].id).value, groups[i].data)
        {
          assert groups[i] == groups[1..][i - 1];
        }
      }
    }
  }

  /** The error names the first group that is not a grouping parameter. */
  lemma {:induction false} ResolveGroupsFirstInvalid(params: seq<Parameter>, groups: seq<QueryGroup>)
    ensures var r := ResolveGroups(params, groups);
            r.Failure? ==> exists i :: (0 <= i < |groups| && r.error == InvalidGroup(groups[i].id) &&
              !ValidGroup(params, groups[i]) && forall j :: 0 <= j < i ==> ValidGroup(params, groups[j]))
    decreases |groups|
  {
    var r := ResolveGroups(params, groups);
    if groups != [] && r.Failure? {
      if !ValidGroup(params, groups[0]) {
        assert r.error == InvalidGroup(groups[0].id);
        assert 0 <= 0 < |groups| && !ValidGroup(params, groups[0]);
      } else {
        var tail := groups[1..];
        ResolveGroupsFirstInvalid(params, tail);
        var rest := ResolveGroups(params, tail);
        assert rest.Failure? && r.error == rest.error;
        var i :| 0 <= i < |tail| && rest.error == InvalidGroup(tail[i].id) &&
                 !ValidGroup(params, tail[i]) && forall j :: 0 <= j < i ==> ValidGroup(params, tail[j]);
        assert groups[i + 1] == tail[i];
        forall j | 0 <= j < i + 1
          ensures ValidGroup(params, groups[j])
        {
          if j > 0 {
            assert groups[j] == tail[j - 1];
          }
        }
        assert r.error == InvalidGroup(groups[i + 1].id) && !ValidGroup(params, groups[i + 1]);
      }
    }
  }

  // ---------------------------------------------------------------------------
  // Column sums over the item map

  function ValueAt(it: Item, c: int): real {
    if 0 <= c < |it.values| then it.values[c] else 0.0
  }

  ghost function Pick(keys: set<string>): string
    requires keys != {}
  {
    var k :| k in keys; k
  }

  /** The sum of column `c` over the rows named by `keys`. */
  ghost function SumOver(items: map<string, Item>, keys: set<string>, c: int): real
    requires keys <= items.Keys
    decreases keys
  {
    if keys == {} then 0.0
    else
      var k := Pick(keys);
      ValueAt(items[k], c) + SumOver(items, keys - {k}, c)
  }

  /** The sum of column `c` over every row. */
  ghost function ColumnSum(items: map<string, Item>, c: int): real {
    SumOver(items, items.Keys, c)
  }

  lemma {:induction false} SumOverRemove(items: map<string, Item>, keys: set<string>, k: string, c: int)
    requires keys <= items.Keys && k in keys
    ensures SumOver(items, keys, c) == ValueAt(items[k], c) + SumOver(items, keys - {k}, c)
    decreases keys
  {
    var p := Pick(keys);
    if p != k {
      SumOverRemove(items, keys - {p}, k, c);
      SumOverRemove(items, keys - {k}, p, c);
      assert keys - {p} - {k} == keys - {k} - {p};
    }
  }

  lemma {:induction false} SumOverFrame(a: map<string, Item>, b: map<string, Item>, keys: set<string>, c: int)
    requires keys <= a.Keys && keys <= b.Keys
    requires forall k :: k in keys ==> ValueAt(a[k], c) == ValueAt(b[k], c)
    ensures SumOver(a, keys, c) == SumOver(b, keys, c)
    decreases keys
  {
    if keys != {} {
      SumOverFrame(a, b, keys - {Pick(keys)}, c);
    }
  }

  /** Adding a row adds its value to the column sum. */
  lemma SumInsert(items: map<string, Item>, h: string, it: Item, c: int)
    requires h !in items
    ensures ColumnSum(items[h := it], c) == ColumnSum(items, c) + ValueAt(it, c)
  {
    var m := items[h := it];
    SumOverRemove(m, m.Keys, h, c);
    assert m.Keys - {h} == items.Keys;
    SumOverFrame(m, items, items.Keys, c);
  }

  /** Replacing a row changes the column sum by the difference of the two rows. */
  lemma SumReplace(items: map<string, Item>, h: string, it: Item, c: int)
    requires h in items
    ensures ColumnSum(items[h := it], c) == ColumnSum(items, c) - ValueAt(items[h], c) + ValueAt(it, c)
  {
    var m := items[h := it];
    assert m.Keys == items.Keys;
    SumOverRemove(m, m.Keys, h, c);
    SumOverRemove(items, items.Keys, h, c);
    SumOverFrame(m, items, items.Keys - {h}, c);
  }

  // ---------------------------------------------------------------------------
  // Accumulation of one period list

  /** Which argument the mismatch callback receives. */
  datatype CallbackArg = PassMatchCount | PassColumnOffset

  /** What the handler knows while it merges the records of one period list. */
  datatype ListCtx = ListCtx(
    periods: seq<QueryPeriod>,
    offset: nat,
    width: nat,
    hash: KeysHash,
    filterKeys: Option<KeysFilter>,
    onMismatch: Option<MismatchHandler>,
    arg: CallbackArg)

  datatype MismatchCall = MismatchCall(item: CloudQueryItem, arg: int)

  /** The table being built: rows by key hash, column totals, grand total, and
    * the calls made to the mismatch callback. */
  datatype Acc = Acc(items: map<string, Item>, columns: seq<real>, total: real, calls: seq<MismatchCall>)

  /** Every row and the totals have one entry per column. */
  predicate WellFormed(acc: Acc, width: nat) {
    |acc.columns| == width && forall h :: h in acc.items ==> |acc.items[h].values| == width
  }

  /** Every column total is the sum of that column over the rows. */
  ghost predicate ColumnsMatch(acc: Acc) {
    forall c :: 0 <= c < |acc.columns| ==> acc.columns[c] == ColumnSum(acc.items, c)
  }

  /** Every row sits under the hash of its own keys. */
  ghost predicate KeyedByHash(acc: Acc, hash: KeysHash) {
    forall h :: h in acc.items ==> hash(acc.items[h].keys) == h
  }

  predicate Kept(ctx: ListCtx, item: CloudQueryItem) {
    ctx.filterKeys.None? || ctx.filterKeys.value(item.keys)
  }

  /** Whether the period at index i of the list takes the record: always for
    * a single-period list, else when the period contains the record's date. */
  predicate Hit(ctx: ListCtx, date: Date, i: int)
    requires 0 <= i < |ctx.periods|
  {
    |ctx.periods| == 1 || DateBetweenDates(date, ctx.periods[i].start, ctx.periods[i].end)
  }

  /** The number of periods of the list that take a record of this date. */
  function MatchCount(ctx: ListCtx, date: Date): nat {
    if |ctx.periods| == 1 then 1 else CountContaining(ctx.periods, date)
  }

  /** The second argument given to the mismatch callback. */
  function Arg(ctx: ListCtx, item: CloudQueryItem): int {
    match ctx.arg
    case PassMatchCount => MatchCount(ctx, item.date)
    case PassColumnOffset => ctx.offset
  }

  /** What the record adds to column c of the table. */
  function Delta(ctx: ListCtx, item: CloudQueryItem, c: int): real {
    if ctx.offset <= c < ctx.offset + |ctx.periods| && Hit(ctx, item.date, c - ctx.offset) then item.value else 0.0
  }

  /** The period loop: the record's value added to every column that takes it. */
  function Bucket(values: seq<real>, ctx: ListCtx, item: CloudQueryItem): seq<real> {
    seq(|values|, c requires 0 <= c < |values| => values[c] + Delta(ctx, item, c))
  }

  /** The row map after a kept record: its row, created with zero columns on
    * first sighting, takes the record's value in every matching column. */
  function Bumped(ctx: ListCtx, items: map<string, Item>, item: CloudQueryItem): map<string, Item> {
    var h := ctx.hash(item.keys);
    var row := if h in items then items[h] else NewItem(item.keys, ctx.width);
    items[h := row.(values := Bucket(row.values, ctx, item))]
  }

  lemma BumpedSums(ctx: ListCtx, acc: Acc, item: CloudQueryItem)
    requires WellFormed(acc, ctx.width)
    ensures forall c :: 0 <= c < ctx.width ==>
              ColumnSum(Bumped(ctx, acc.items, item), c) == ColumnSum(acc.items, c) + Delta(ctx, item, c)
  {
    var h := ctx.hash(item.keys);
    var row := if h in acc.items then acc.items[h] else NewItem(item.keys, ctx.width);
    var row' := row.(values := Bucket(row.values, ctx, item));
    forall c | 0 <= c < ctx.width
      ensures ColumnSum(Bumped(ctx, acc.items, item), c) == ColumnSum(acc.items, c) + Delta(ctx, item, c)
    {
      if h in acc.items {
        SumReplace(acc.items, h, row', c);
      } else {
        SumInsert(acc.items, h, row', c);
      }
    }
  }

  /** The bookkeeping for one kept record, before the callback. */
  function Accumulate(ctx: ListCtx, acc: Acc, item: CloudQueryItem): (r: Acc)
    requires WellFormed(acc, ctx.width)
    ensures WellFormed(r, ctx.width)
    ensures ColumnsMatch(acc) ==> ColumnsMatch(r)
    ensures KeyedByHash(acc, ctx.hash) ==> KeyedByHash(r, ctx.hash)
    ensures r.items.Keys == acc.items.Keys + {ctx.hash(item.keys)}
    ensures forall h :: h in acc.items ==> r.items[h].keys == acc.items[h].keys
    ensures ctx.hash(item.keys) !in acc.items ==> r.items[ctx.hash(item.keys)].keys == item.keys
    ensures r.total == acc.total + item.value && r.calls == acc.calls
    ensures forall c :: 0 <= c < ctx.width ==> r.columns[c] == acc.columns[c] + Delta(ctx, item, c)
  {
    BumpedSums(ctx, acc, item);
    Acc(Bumped(ctx, acc.items, item), Bucket(acc.columns, ctx, item), acc.total + item.value, acc.calls)
  }

  /** The callback is consulted for this record. */
  predicate Consulted(ctx: ListCtx, item: CloudQueryItem) {
    Kept(ctx, item) && MatchCount(ctx, item.date) != 1 && ctx.onMismatch.Some?
  }

  /** The callback aborts on this record. */
  predicate Rejects(ctx: ListCtx, item: CloudQueryItem) {
    Consulted(ctx, item) && ctx.onMismatch.value(item, Arg(ctx, item)).Some?
  }

  /** One record of a period list. */
  function Step(ctx: ListCtx, acc: Acc, item: CloudQueryItem): (r: Result<Acc, HandlerError>)
    requires WellFormed(acc, ctx.width)
    ensures r.Success? <==> !Rejects(ctx, item)
    ensures r.Failure? ==> r.error == CallbackError(ctx.onMismatch.value(item, Arg(ctx, item)).value)
    ensures !Kept(ctx, item) ==> r == Success(acc)
    ensures r.Success? && Kept(ctx, item) ==> var a := Accumulate(ctx, acc, item);
              r.value.items == a.items && r.value.columns == a.columns && r.value.total == a.total
    ensures r.Success? ==> r.value.calls == acc.calls + (if Consulted(ctx, item) then [MismatchCall(item, Arg(ctx, item))] else [])
  {
    if !Kept(ctx, item) then Success(acc)
    else
      var acc' := Accumulate(ctx, acc, item);
      if MatchCount(ctx, item.date) != 1 && ctx.onMismatch.Some? then
        var a := Arg(ctx, item);
        match ctx.onMismatch.value(item, a)
        case Some(e) => Failure(CallbackError(e))
        case None => Success(acc'.(calls := acc.calls + [MismatchCall(item, a)]))
      else Success(acc')
  }

  /** The sum of the kept records' values. */
  function KeptTotal(ctx: ListCtx, records: seq<Fetched>): real {
    if records == [] then 0.0
    else (if records[0].Record? && Kept(ctx, records[0].item) then records[0].item.value else 0.0)
         + KeptTotal(ctx, records[1..])
  }

  /** What the kept records add to column c. */
  function ColumnTotal(ctx: ListCtx, records: seq<Fetched>, c: int): real {
    if records == [] then 0.0
    else (if records[0].Record? && Kept(ctx, records[0].item) then Delta(ctx, records[0].item, c) else 0.0)
         + ColumnTotal(ctx, records[1..], c)
  }

  /** The hashes of the kept records. */
  function KeptHashes(ctx: ListCtx, records: seq<Fetched>): set<string> {
    if records == [] then {}
    else (if records[0].Record? && Kept(ctx, records[0].item) then {ctx.hash(records[0].item.keys)} else {})
         + KeptHashes(ctx, records[1..])
  }

  /** The callback invocations the records cause, in order. */
  function CallsOf(ctx: ListCtx, records: seq<Fetched>): seq<MismatchCall> {
    if records == [] then []
    else (if records[0].Record? && Consulted(ctx, records[0].item)
          then [MismatchCall(records[0].item, Arg(ctx, records[0].item))] else [])
         + CallsOf(ctx, records[1..])
  }

  /** The record loop of one period list: it succeeds exactly when no record
    * is a backend error and the callback rejects none, and it keeps the
    * table's invariants. */
  function RunRecords(ctx: ListCtx, records: seq<Fetched>, acc: Acc): (r: Result<Acc, HandlerError>)
    requires WellFormed(acc, ctx.width)
    ensures r.Success? <==> forall i :: 0 <= i < |records| ==> records[i].Record? && !Rejects(ctx, records[i].item)
    ensures r.Success? ==> WellFormed(r.value, ctx.width)
    ensures r.Success? && ColumnsMatch(acc) ==> ColumnsMatch(r.value)
    ensures r.Success? && KeyedByHash(acc, ctx.hash) ==> KeyedByHash(r.value, ctx.hash)
    ensures r.Success? ==> forall h :: h in acc.items ==> h in r.value.items && r.value.items[h].keys == acc.items[h].keys
    decreases |records|
  {
    if records == [] then Success(acc)
    else
      assert forall i :: 1 <= i < |records| ==> records[i] == records[1..][i - 1];
      match records[0]
      case FetchError(m) => Failure(BackendError(m))
      case Record(item) =>
        var s := Step(ctx, acc, item);
        if s.Failure? then s.PropagateFailure()
        else RunRecords(ctx, records[1..], s.value)
  }

  /** A failed record loop stopped at a backend error, reported as is, or at a
    * record the callback rejected. */
  lemma {:induction false} RunRecordsFailure(ctx: ListCtx, records: seq<Fetched>, acc: Acc)
    requires WellFormed(acc, ctx.width)
    ensures var r := RunRecords(ctx, records, acc);
            r.Failure? ==> exists i :: (0 <= i < |records| &&
              ((records[i].FetchError? && r.error == BackendError(records[i].message)) ||
               (records[i].Record? && Rejects(ctx, records[i].item) &&
                r.error == CallbackError(ctx.onMismatch.value(records[i].item, Arg(ctx, records[i].item)).value))))
    decreases |records|
  {
    if records != [] && records[0].Record? {
      var s := Step(ctx, acc, records[0].item);
      if s.Success? {
        RunRecordsFailure(ctx, records[1..], s.value);
        var r := RunRecords(ctx, records, acc);
        if r.Failure? {
          var i :| 0 <= i < |records[1..]| &&
            ((records[1..][i].FetchError? && r.error == BackendError(records[1..][i].message)) ||
             (records[1..][i].Record? && Rejects(ctx, records[1..][i].item) &&
              r.error == CallbackError(ctx.onMismatch.value(records[1..][i].item, Arg(ctx, records[1..][i].item)).value)));
          assert records[i + 1] == records[1..][i];
        }
      }
    }
  }

  /** Every kept record counts once in the grand total. */
  lemma {:induction false} RunRecordsTotal(ctx: ListCtx, records: seq<Fetched>, acc: Acc)
    requires WellFormed(acc, ctx.width)
    ensures var r := RunRecords(ctx, records, acc);
            r.Success? ==> r.value.total == acc.total + KeptTotal(ctx, records)
    decreases |records|
  {
    if records != [] && records[0].Record? {
      var s := Step(ctx, acc, records[0].item);
      if s.Success? {
        RunRecordsTotal(ctx, records[1..], s.value);
      }
    }
  }

  /** Every kept record counts once in each column that takes it. */
  lemma {:induction false} RunRecordsTotals(ctx: ListCtx, records: seq<Fetched>, acc: Acc)
    requires WellFormed(acc, ctx.width)
    ensures var r := RunRecords(ctx, records, acc);
            r.Success? ==> forall c :: 0 <= c < ctx.width ==> r.value.columns[c] == acc.columns[c] + ColumnTotal(ctx, records, c)
    decreases |records|
  {
    if records != [] && records[0].Record? {
      var s := Step(ctx, acc, records[0].item);
      if s.Success? {
        RunRecordsTotals(ctx, records[1..], s.value);
      }
    }
  }

  /** The rows after the loop are the earlier rows plus one per new hash of a
    * kept record. */
  lemma {:induction false} RunRecordsRows(ctx: ListCtx, records: seq<Fetched>, acc: Acc)
    requires WellFormed(acc, ctx.width)
    ensures var r := RunRecords(ctx, records, acc);
            r.Success? ==> r.value.items.Keys == acc.items.Keys + KeptHashes(ctx, records)
    decreases |records|
  {
    if records != [] && records[0].Record? {
      var s := Step(ctx, acc, records[0].item);
      if s.Success? {
        RunRecordsRows(ctx, records[1..], s.value);
      }
    }
  }

  /** The callback was consulted once per kept record that did not match
    * exactly one period, in record order. */
  lemma {:induction false} RunRecordsCalls(ctx: ListCtx, records: seq<Fetched>, acc: Acc)
    requires WellFormed(acc, ctx.width)
    ensures var r := RunRecords(ctx, records, acc);
            r.Success? ==> r.value.calls == acc.calls + CallsOf(ctx, records)
    decreases |records|
  {
    if records != [] && records[0].Record? {
      var s := Step(ctx, acc, records[0].item);
      if s.Success? {
        var item := records[0].item;
        var head := if Consulted(ctx, item) then [MismatchCall(item, Arg(ctx, item))] else [];
        var rest := CallsOf(ctx, records[1..]);
        assert CallsOf(ctx, records) == head + rest;
        assert s.value.calls == acc.calls + head;
        assert RunRecords(ctx, records, acc) == RunRecords(ctx, records[1..], s.value);
        RunRecordsCalls(ctx, records[1..], s.value);
        assert (acc.calls + head) + rest == acc.calls + (head + rest);
      }
    }
  }

  /** A record the key filter rejects changes nothing, wherever it occurs. */
  lemma {:induction false} FilteredRecordIgnored(ctx: ListCtx, acc: Acc, pre: seq<Fetched>, item: CloudQueryItem, post: seq<Fetched>)
    requires WellFormed(acc, ctx.width) && !Kept(ctx, item)
    ensures RunRecords(ctx, pre + [Record(item)] + post, acc) == RunRecords(ctx, pre + post, acc)
    decreases |pre|
  {
    if pre == [] {
      assert pre + [Record(item)] + post == [Record(item)] + post;
      assert ([Record(item)] + post)[1..] == post;
      assert pre + post == post;
    } else {
      assert (pre + [Record(item)] + post)[0] == pre[0];
      assert (pre + [Record(item)] + post)[1..] == pre[1..] + [Record(item)] + post;
      assert (pre + post)[0] == pre[0];
      assert (pre + post)[1..] == pre[1..] + post;
      if pre[0].Record? {
        var s := Step(ctx, acc, pre[0].item);
        if s.Success? {
          FilteredRecordIgnored(ctx, s.value, pre[1..], item, post);
        }
      }
    }
  }

  /** A single-period list puts every kept record into its one column,
    * whatever its date. */
  lemma {:induction false} SinglePeriodTakesAll(ctx: ListCtx, records: seq<Fetched>)
    requires |ctx.periods| == 1
    ensures ColumnTotal(ctx, records, ctx.offset) == KeptTotal(ctx, records)
    decreases |records|
  {
    if records != [] {
      SinglePeriodTakesAll(ctx, records[1..]);
    }
  }

  /** In a multi-period list a record's column is the period containing its
    * date: the record counts in column offset+i exactly when period i
    * contains the date. */
  lemma MultiPeriodByDate(ctx: ListCtx, item: CloudQueryItem, i: nat)
    requires |ctx.periods| >= 2 && i < |ctx.periods| && item.value != 0.0
    ensures Delta(ctx, item, ctx.offset + i) != 0.0 <==>
              ctx.periods[i].start <= item.date <= ctx.periods[i].end ||
              (ctx.periods[i].start > ctx.periods[i].end && (item.date == ctx.periods[i].start || item.date == ctx.periods[i].end))
  {
  }

  /** Over a list made by GenerateQueryPeriods every date of the list's range
    * is matched exactly once, so the callback is never consulted for it. */
  lemma GeneratedListNeverMismatches(ctx: ListCtx, start: Date, end: Date, amount: int, item: CloudQueryItem)
    requires start <= end && amount >= 2
    requires ctx.periods == GenerateQueryPeriods(start, end, amount)
    requires Range(QueryPeriodList(ctx.periods)).start <= item.date <= Range(QueryPeriodList(ctx.periods)).end
    ensures MatchCount(ctx, item.date) == 1
    ensures !Consulted(ctx, item)
  {
    GenerateRange(start, end, amount);
    GenerateCoversOnce(start, end, amount, item.date);
  }

  /** The mismatch argument as written is the column offset: a record that two
    * overlapping periods of the first list both take is reported with 0, and
    * the intended argument is the match count 2. */
  lemma MismatchArgCounterexample(d: Date, keys: seq<ItemKey>, hash: KeysHash)
    ensures var periods := [QueryPeriod("", d, d + 1), QueryPeriod("", d + 1, d + 2)];
            var item := CloudQueryItem(d + 1, keys, 1.0);
            var cb: MismatchHandler := (it, n) => None;
            var asWritten := ListCtx(periods, 0, 2, hash, None, Some(cb), PassColumnOffset);
            var intended := asWritten.(arg := PassMatchCount);
            MatchCount(asWritten, item.date) == 2 &&
            Step(asWritten, Acc(map[], [0.0, 0.0], 0.0, []), item).value.calls == [MismatchCall(item, 0)] &&
            Step(intended, Acc(map[], [0.0, 0.0], 0.0, []), item).value.calls == [MismatchCall(item, 2)]
  {
    var periods := [QueryPeriod("", d, d + 1), QueryPeriod("", d + 1, d + 2)];
    var item := CloudQueryItem(d + 1, keys, 1.0);
    var cb: MismatchHandler := (it, n) => None;
    var asWritten := ListCtx(periods, 0, 2, hash, None, Some(cb), PassColumnOffset);
    var intended := asWritten.(arg := PassMatchCount);
    var acc := Acc(map[], [0.0, 0.0], 0.0, []);
    assert periods[1..] == [periods[1]];
    assert [periods[1]][1..] == [];
    assert CountContaining([periods[1]], d + 1) == 1;
    assert CountContaining(periods, d + 1) == 2;
    assert MatchCount(asWritten, item.date) == 2;
    assert Arg(asWritten, item) == 0;
    assert Arg(intended, item) == 2;
    assert Consulted(asWritten, item) && !Rejects(asWritten, item);
    assert Consulted(intended, item) && !Rejects(intended, item);
  }

  // ---------------------------------------------------------------------------
  // All period lists

  /** The backend options for one list: its covering range, the groups and
    * filters, the collecting callback, and grouping by date for multi-period
    * lists. */
  function ListQueryOptions(o: Resolved, l: QueryPeriodList): seq<QueryOption> {
    var span := Range(l);
    [WithQueryDates(span.start, span.end), WithQueryGroups(o.groups), WithQueryFilters(o.filters), WithQueryExtraData]
    + (if |l.periods| != 1 then [WithQueryGroupByDate(true)] else [])
  }

  /** The backend sees the list's covering range, the requested groups and
    * filters, and by-date grouping exactly for multi-period lists. */
  lemma ListQueryOptionsParse(o: Resolved, l: QueryPeriodList)
    requires |l.periods| >= 1
    ensures var q := ApplyAll(ListQueryOptions(o, l));
            q.start == Range(l).start && q.end == Range(l).end && q.groups == o.groups &&
            q.filters == o.filters && q.extraData && (q.groupByDate <==> |l.periods| != 1)
  {
    var span := Range(l);
    var o1, o2, o3, o4 := WithQueryDates(span.start, span.end), WithQueryGroups(o.groups),
                          WithQueryFilters(o.filters), WithQueryExtraData;
    var four := [o1, o2, o3, o4];
    assert four[..3] == [o1, o2, o3];
    assert [o1, o2, o3][..2] == [o1, o2];
    assert [o1, o2][..1] == [o1];
    assert [o1][..0] == [];
    var q1 := NoQueryOptions.(start := span.start, end := span.end);
    assert ApplyAll([o1]) == q1;
    assert ApplyAll([o1, o2]) == q1.(groups := o.groups);
    assert ApplyAll([o1, o2, o3]) == q1.(groups := o.groups, filters := [] + o.filters);
    assert ApplyAll(four) == q1.(groups := o.groups, filters := [] + o.filters, extraData := true);
    var opts := ListQueryOptions(o, l);
    if |l.periods| != 1 {
      assert opts == four + [WithQueryGroupByDate(true)];
      assert opts[..4] == four;
    } else {
      assert opts == four;
    }
  }

  function ListCtxOf(o: Resolved, arg: CallbackArg, l: QueryPeriodList, offset: nat, width: nat): ListCtx {
    ListCtx(l.periods, offset, width, o.itemKeysHash, o.filterKeys, o.onPeriodMatchError, arg)
  }

  /** The grand total the lists contribute: every kept record of every query. */
  function ListsKeptTotal<X, O>(cloud: Cloud<X, O>, o: Resolved, arg: CallbackArg,
                                lists: seq<QueryPeriodList>, offset: nat, width: nat): real
  {
    if lists == [] then 0.0
    else
      (if |lists[0].periods| == 0 then 0.0
       else KeptTotal(ListCtxOf(o, arg, lists[0], offset, width), cloud.query(ListQueryOptions(o, lists[0])).records))
      + ListsKeptTotal(cloud, o, arg, lists[1..], offset + |lists[0].periods|, width)
  }

  /** The list loop of QueryHandler: each non-empty list is queried over its
    * range and its records merged at the list's column offset. */
  function RunLists<X, O>(cloud: Cloud<X, O>, o: Resolved, arg: CallbackArg,
                          lists: seq<QueryPeriodList>, offset: nat, width: nat,
                          acc: Acc, extra: seq<X>): (r: Result<(Acc, seq<X>), HandlerError>)
    requires offset + PeriodCount(lists) == width
    requires WellFormed(acc, width)
    ensures r.Success? ==> WellFormed(r.value.0, width)
    ensures r.Success? && ColumnsMatch(acc) ==> ColumnsMatch(r.value.0)
    ensures r.Success? && KeyedByHash(acc, o.itemKeysHash) ==> KeyedByHash(r.value.0, o.itemKeysHash)
    ensures r.Success? ==> forall h :: h in acc.items ==> h in r.value.0.items && r.value.0.items[h].keys == acc.items[h].keys
    decreases |lists|
  {
    if lists == [] then Success((acc, extra))
    else
      var l := lists[0];
      if |l.periods| == 0 then RunLists(cloud, o, arg, lists[1..], offset, width, acc, extra)
      else
        // Range(l) is ok for a non-empty list, so the code's second skip never happens.
        var run := cloud.query(ListQueryOptions(o, l));
        var ctx := ListCtxOf(o, arg, l, offset, width);
        var s := RunRecords(ctx, run.records, acc);
        if s.Failure? then s.PropagateFailure()
        else RunLists(cloud, o, arg, lists[1..], offset + |l.periods|, width, s.value, extra + run.extraData)
  }

  /** One step of the list loop: an empty list is skipped, a failed merge
    * ends the loop, a successful one continues at the next offset. */
  lemma RunListsUnfold<X, O>(cloud: Cloud<X, O>, o: Resolved, arg: CallbackArg,
                             lists: seq<QueryPeriodList>, offset: nat, width: nat, acc: Acc, extra: seq<X>)
    requires offset + PeriodCount(lists) == width
    requires WellFormed(acc, width)
    requires lists != []
    ensures |lists[0].periods| == 0 ==>
              RunLists(cloud, o, arg, lists, offset, width, acc, extra) ==
              RunLists(cloud, o, arg, lists[1..], offset, width, acc, extra)
    ensures var run := cloud.query(ListQueryOptions(o, lists[0]));
            var s := RunRecords(ListCtxOf(o, arg, lists[0], offset, width), run.records, acc);
            |lists[0].periods| > 0 ==>
              (s.Failure? ==> RunLists(cloud, o, arg, lists, offset, width, acc, extra).Failure?) &&
              (s.Success? ==>
                RunLists(cloud, o, arg, lists, offset, width, acc, extra) ==
                RunLists(cloud, o, arg, lists[1..], offset + |lists[0].periods|, width, s.value, extra + run.extraData))
  {
  }

  lemma ListsKeptTotalUnfold<X, O>(cloud: Cloud<X, O>, o: Resolved, arg: CallbackArg,
                                   lists: seq<QueryPeriodList>, offset: nat, width: nat)
    requires lists != []
    ensures |lists[0].periods| == 0 ==>
              ListsKeptTotal(cloud, o, arg, lists, offset, width) == ListsKeptTotal(cloud, o, arg, lists[1..], offset, width)
    ensures |lists[0].periods| > 0 ==>
              ListsKeptTotal(cloud, o, arg, lists, offset, width) ==
              KeptTotal(ListCtxOf(o, arg, lists[0], offset, width), cloud.query(ListQueryOptions(o, lists[0])).records)
              + ListsKeptTotal(cloud, o, arg, lists[1..], offset + |lists[0].periods|, width)
  {
  }

  /** The grand total counts every kept record of every list's query once. */
  lemma {:induction false} RunListsTotals<X, O>(cloud: Cloud<X, O>, o: Resolved, arg: CallbackArg,
                                                lists: seq<QueryPeriodList>, offset: nat, width: nat,
                                                acc: Acc, extra: seq<X>)
    requires offset + PeriodCount(lists) == width
    requires WellFormed(acc, width)
    ensures var r := RunLists(cloud, o, arg, lists, offset, width, acc, extra);
            r.Success? ==> r.value.0.total == acc.total + ListsKeptTotal(cloud, o, arg, lists, offset, width)
    decreases |lists|
  {
    if lists != [] {
      var l := lists[0];
      RunListsUnfold(cloud, o, arg, lists, offset, width, acc, extra);
      ListsKeptTotalUnfold(cloud, o, arg, lists, offset, width);
      if |l.periods| == 0 {
        RunListsTotals(cloud, o, arg, lists[1..], offset, width, acc, extra);
      } else {
        var run := cloud.query(ListQueryOptions(o, l));
        var ctx := ListCtxOf(o, arg, l, offset, width);
        var s := RunRecords(ctx, run.records, acc);
        if s.Success? {
          RunRecordsTotal(ctx, run.records, acc);
          RunListsTotals(cloud, o, arg, lists[1..], offset + |l.periods|, width, s.value, extra + run.extraData);
        }
      }
    }
  }

  /** One list's query merges cleanly: every fetched entry is a record and
    * the callback rejects none of them. */
  predicate RecordsOk(ctx: ListCtx, records: seq<Fetched>) {
    forall i :: 0 <= i < |records| ==> records[i].Record? && !Rejects(ctx, records[i].item)
  }

  /** Every non-empty list's query merges cleanly at its own offset. */
  predicate ListsOk<X, O>(cloud: Cloud<X, O>, o: Resolved, arg: CallbackArg,
                          lists: seq<QueryPeriodList>, offset: nat, width: nat)
  {
    lists == [] ||
    ((|lists[0].periods| == 0 ||
      RecordsOk(ListCtxOf(o, arg, lists[0], offset, width), cloud.query(ListQueryOptions(o, lists[0])).records)) &&
     ListsOk(cloud, o, arg, lists[1..], offset + |lists[0].periods|, width))
  }

  /** What the kept records of every list's query add to column c. */
  function ListsColumnTotal<X, O>(cloud: Cloud<X, O>, o: Resolved, arg: CallbackArg,
                                  lists: seq<QueryPeriodList>, offset: nat, width: nat, c: int): real
  {
    if lists == [] then 0.0
    else
      (if |lists[0].periods| == 0 then 0.0
       else ColumnTotal(ListCtxOf(o, arg, lists[0], offset, width), cloud.query(ListQueryOptions(o, lists[0])).records, c))
      + ListsColumnTotal(cloud, o, arg, lists[1..], offset + |lists[0].periods|, width, c)
  }

  /** The hashes of the kept records of every list's query. */
  function ListsKeptHashes<X, O>(cloud: Cloud<X, O>, o: Resolved, arg: CallbackArg,
                                 lists: seq<QueryPeriodList>, offset: nat, width: nat): set<string>
  {
    if lists == [] then {}
    else
      (if |lists[0].periods| == 0 then {}
       else KeptHashes(ListCtxOf(o, arg, lists[0], offset, width), cloud.query(ListQueryOptions(o, lists[0])).records))
      + ListsKeptHashes(cloud, o, arg, lists[1..], offset + |lists[0].periods|, width)
  }

  lemma ListsOkUnfold<X, O>(cloud: Cloud<X, O>, o: Resolved, arg: CallbackArg,
                            lists: seq<QueryPeriodList>, offset: nat, width: nat)
    requires lists != []
    ensures |lists[0].periods| == 0 ==>
              ListsOk(cloud, o, arg, lists, offset, width) == ListsOk(cloud, o, arg, lists[1..], offset, width)
    ensures |lists[0].periods| > 0 ==>
              ListsOk(cloud, o, arg, lists, offset, width) ==
              (RecordsOk(ListCtxOf(o, arg, lists[0], offset, width), cloud.query(ListQueryOptions(o, lists[0])).records) &&
               ListsOk(cloud, o, arg, lists[1..], offset + |lists[0].periods|, width))
  {
  }

  lemma ListsColumnTotalUnfold<X, O>(cloud: Cloud<X, O>, o: Resolved, arg: CallbackArg,
                                     lists: seq<QueryPeriodList>, offset: nat, width: nat, c: int)
    requires lists != []
    ensures |lists[0].periods| == 0 ==>
              ListsColumnTotal(cloud, o, arg, lists, offset, width, c) == ListsColumnTotal(cloud, o, arg, lists[1..], offset, width, c)
    ensures |lists[0].periods| > 0 ==>
              ListsColumnTotal(cloud, o, arg, lists, offset, width, c) ==
              ColumnTotal(ListCtxOf(o, arg, lists[0], offset, width), cloud.query(ListQueryOptions(o, lists[0])).records, c)
              + ListsColumnTotal(cloud, o, arg, lists[1..], offset + |lists[0].periods|, width, c)
  {
  }

  lemma ListsKeptHashesUnfold<X, O>(cloud: Cloud<X, O>, o: Resolved, arg: CallbackArg,
                                    lists: seq<QueryPeriodList>, offset: nat, width: nat)
    requires lists != []
    ensures |lists[0].periods| == 0 ==>
              ListsKeptHashes(cloud, o, arg, lists, offset, width) == ListsKeptHashes(cloud, o, arg, lists[1..], offset, width)
    ensures |lists[0].periods| > 0 ==>
              ListsKeptHashes(cloud, o, arg, lists, offset, width) ==
              KeptHashes(ListCtxOf(o, arg, lists[0], offset, width), cloud.query(ListQueryOptions(o, lists[0])).records)
              + ListsKeptHashes(cloud, o, arg, lists[1..], offset + |lists[0].periods|, width)
  {
  }

  /** The list loop fails exactly when some non-empty list's query returns a
    * backend error or a record the callback rejects. */
  lemma {:induction false} RunListsSucceeds<X, O>(cloud: Cloud<X, O>, o: Resolved, arg: CallbackArg,
                                                  lists: seq<QueryPeriodList>, offset: nat, width: nat,
                                                  acc: Acc, extra: seq<X>)
    requires offset + PeriodCount(lists) == width
    requires WellFormed(acc, width)
    ensures RunLists(cloud, o, arg, lists, offset, width, acc, extra).Success? <==>
            ListsOk(cloud, o, arg, lists, offset, width)
    decreases |lists|
  {
    if lists != [] {
      var l := lists[0];
      var next := offset + |l.periods|;
      var run := cloud.query(ListQueryOptions(o, l));
      var ctx := ListCtxOf(o, arg, l, offset, width);
      var here, rest := RecordsOk(ctx, run.records), ListsOk(cloud, o, arg, lists[1..], next, width);
      ListsOkUnfold(cloud, o, arg, lists, offset, width);
      assert ListsOk(cloud, o, arg, lists, offset, width) == ((|l.periods| == 0 || here) && rest);
      var r := RunLists(cloud, o, arg, lists, offset, width, acc, extra);
      RunListsUnfold(cloud, o, arg, lists, offset, width, acc, extra);
      if |l.periods| == 0 {
        RunListsSucceeds(cloud, o, arg, lists[1..], offset, width, acc, extra);
      } else {
        var s := RunRecords(ctx, run.records, acc);
        assert s.Success? == here;
        if s.Success? {
          assert r == RunLists(cloud, o, arg, lists[1..], next, width, s.value, extra + run.extraData);
          RunListsSucceeds(cloud, o, arg, lists[1..], next, width, s.value, extra + run.extraData);
        }
      }
    }
  }

  /** Every column total is what the kept records of the lists' queries add
    * to that column. */
  lemma RunListsColumns<X, O>(cloud: Cloud<X, O>, o: Resolved, arg: CallbackArg,
                              lists: seq<QueryPeriodList>, offset: nat, width: nat,
                              acc: Acc, extra: seq<X>)
    requires offset + PeriodCount(lists) == width
    requires WellFormed(acc, width)
    ensures var r := RunLists(cloud, o, arg, lists, offset, width, acc, extra);
            r.Success? ==> forall c :: 0 <= c < width ==>
              r.value.0.columns[c] == acc.columns[c] + ListsColumnTotal(cloud, o, arg, lists, offset, width, c)
  {
    forall c | 0 <= c < width {
      RunListsColumn(cloud, o, arg, lists, offset, width, acc, extra, c);
    }
  }

  lemma {:induction false} RunListsColumn<X, O>(cloud: Cloud<X, O>, o: Resolved, arg: CallbackArg,
                                                lists: seq<QueryPeriodList>, offset: nat, width: nat,
                                                acc: Acc, extra: seq<X>, c: int)
    requires offset + PeriodCount(lists) == width
    requires WellFormed(acc, width)
    requires 0 <= c < width
    ensures var r := RunLists(cloud, o, arg, lists, offset, width, acc, extra);
            r.Success? ==> r.value.0.columns[c] == acc.columns[c] + ListsColumnTotal(cloud, o, arg, lists, offset, width, c)
    decreases |lists|
  {
    if lists != [] {
      var l := lists[0];
      var next := offset + |l.periods|;
      var run := cloud.query(ListQueryOptions(o, l));
      var ctx := ListCtxOf(o, arg, l, offset, width);
      var here, rest := ColumnTotal(ctx, run.records, c), ListsColumnTotal(cloud, o, arg, lists[1..], next, width, c);
      ListsColumnTotalUnfold(cloud, o, arg, lists, offset, width, c);
      assert ListsColumnTotal(cloud, o, arg, lists, offset, width, c) == (if |l.periods| == 0 then rest else here + rest);
      var r := RunLists(cloud, o, arg, lists, offset, width, acc, extra);
      RunListsUnfold(cloud, o, arg, lists, offset, width, acc, extra);
      if |l.periods| == 0 {
        RunListsColumn(cloud, o, arg, lists[1..], offset, width, acc, extra, c);
      } else {
        var s := RunRecords(ctx, run.records, acc);
        if s.Success? {
          assert r == RunLists(cloud, o, arg, lists[1..], next, width, s.value, extra + run.extraData);
          RunRecordsTotals(ctx, run.records, acc);
          RunListsColumn(cloud, o, arg, lists[1..], next, width, s.value, extra + run.extraData, c);
        }
      }
    }
  }

  /** The rows are the earlier rows plus one per hash of a kept record of the
    * lists' queries. */
  lemma {:induction false} RunListsRows<X, O>(cloud: Cloud<X, O>, o: Resolved, arg: CallbackArg,
                                              lists: seq<QueryPeriodList>, offset: nat, width: nat,
                                              acc: Acc, extra: seq<X>)
    requires offset + PeriodCount(lists) == width
    requires WellFormed(acc, width)
    ensures var r := RunLists(cloud, o, arg, lists, offset, width, acc, extra);
            r.Success? ==> r.value.0.items.Keys == acc.items.Keys + ListsKeptHashes(cloud, o, arg, lists, offset, width)
    decreases |lists|, 1
  {
    if lists != [] {
      RunListsRowsStep(cloud, o, arg, lists, offset, width, acc, extra);
    }
  }

  /** One step of RunListsRows: the first list, then the rest by induction. */
  lemma {:induction false} RunListsRowsStep<X, O>(cloud: Cloud<X, O>, o: Resolved, arg: CallbackArg,
                                                  lists: seq<QueryPeriodList>, offset: nat, width: nat,
                                                  acc: Acc, extra: seq<X>)
    requires offset + PeriodCount(lists) == width
    requires WellFormed(acc, width)
    requires lists != []
    ensures var r := RunLists(cloud, o, arg, lists, offset, width, acc, extra);
            r.Success? ==> r.value.0.items.Keys == acc.items.Keys + ListsKeptHashes(cloud, o, arg, lists, offset, width)
    decreases |lists|, 0
  {
    var l := lists[0];
    var next := offset + |l.periods|;
    var run := cloud.query(ListQueryOptions(o, l));
    var ctx := ListCtxOf(o, arg, l, offset, width);
    var here, rest := KeptHashes(ctx, run.records), ListsKeptHashes(cloud, o, arg, lists[1..], next, width);
    ListsKeptHashesUnfold(cloud, o, arg, lists, offset, width);
    if |l.periods| == 0 {
      assert ListsKeptHashes(cloud, o, arg, lists, offset, width) == rest;
    } else {
      assert ListsKeptHashes(cloud, o, arg, lists, offset, width) == here + rest;
    }
    UnionAssoc(acc.items.Keys, here, rest);
    var r := RunLists(cloud, o, arg, lists, offset, width, acc, extra);
    RunListsUnfold(cloud, o, arg, lists, offset, width, acc, extra);
    if |l.periods| == 0 {
      RunListsRows(cloud, o, arg, lists[1..], offset, width, acc, extra);
    } else {
      var s := RunRecords(ctx, run.records, acc);
      if s.Success? {
        var r2 := RunLists(cloud, o, arg, lists[1..], next, width, s.value, extra + run.extraData);
        assert r == r2;
        if r2.Success? {
          RunRecordsRows(ctx, run.records, acc);
          RunListsRows(cloud, o, arg, lists[1..], next, width, s.value, extra + run.extraData);
        }
      }
    }
  }

  lemma UnionAssoc(a: set<string>, b: set<string>, c: set<string>)
    ensures (a + b) + c == a + (b + c)
  {
  }

  /** A list adds nothing to a column outside its own range. */
  lemma {:induction false} ColumnTotalOutside(ctx: ListCtx, records: seq<Fetched>, c: int)
    requires !(ctx.offset <= c < ctx.offset + |ctx.periods|)
    ensures ColumnTotal(ctx, records, c) == 0.0
    decreases |records|
  {
    if records != [] {
      ColumnTotalOutside(ctx, records[1..], c);
    }
  }

  /** Lists starting past column c add nothing to it. */
  lemma {:induction false} ListsColumnTotalBefore<X, O>(cloud: Cloud<X, O>, o: Resolved, arg: CallbackArg,
                                                        lists: seq<QueryPeriodList>, offset: nat, width: nat, c: int)
    requires c < offset
    ensures ListsColumnTotal(cloud, o, arg, lists, offset, width, c) == 0.0
    decreases |lists|
  {
    if lists != [] {
      ListsColumnTotalUnfold(cloud, o, arg, lists, offset, width, c);
      if |lists[0].periods| > 0 {
        ColumnTotalOutside(ListCtxOf(o, arg, lists[0], offset, width), cloud.query(ListQueryOptions(o, lists[0])).records, c);
      }
      ListsColumnTotalBefore(cloud, o, arg, lists[1..], offset + |lists[0].periods|, width, c);
    }
  }

  /** A column's total comes from its own list alone: for the list k whose
    * periods cover column c, it is what that list's kept records add to c. */
  lemma {:induction false} ListsColumnTotalOwn<X, O>(cloud: Cloud<X, O>, o: Resolved, arg: CallbackArg,
                                                     lists: seq<QueryPeriodList>, offset: nat, width: nat,
                                                     k: nat, c: int)
    requires k < |lists|
    requires offset + PeriodCount(lists[..k]) <= c < offset + PeriodCount(lists[..k]) + |lists[k].periods|
    ensures ListsColumnTotal(cloud, o, arg, lists, offset, width, c) ==
            ColumnTotal(ListCtxOf(o, arg, lists[k], offset + PeriodCount(lists[..k]), width),
                        cloud.query(ListQueryOptions(o, lists[k])).records, c)
    decreases k
  {
    if k == 0 {
      assert lists[..0] == [];
      ListsColumnTotalFirst(cloud, o, arg, lists, offset, width, c);
    } else {
      PrefixShift(lists, offset, k);
      ListsColumnTotalOwn(cloud, o, arg, lists[1..], offset + |lists[0].periods|, width, k - 1, c);
      ListsColumnTotalOwnStep(cloud, o, arg, lists, offset, width, k, c);
    }
  }

  /** The inductive step of ListsColumnTotalOwn: past the first list, the
    * tail's statement for list k - 1 is the statement for list k. */
  lemma ListsColumnTotalOwnStep<X, O>(cloud: Cloud<X, O>, o: Resolved, arg: CallbackArg,
                                      lists: seq<QueryPeriodList>, offset: nat, width: nat,
                                      k: nat, c: int)
    requires 0 < k < |lists|
    requires offset + PeriodCount(lists[..k]) <= c
    requires var next := offset + |lists[0].periods|;
             ListsColumnTotal(cloud, o, arg, lists[1..], next, width, c) ==
             ColumnTotal(ListCtxOf(o, arg, lists[1..][k - 1], next + PeriodCount(lists[1..][..k - 1]), width),
                         cloud.query(ListQueryOptions(o, lists[1..][k - 1])).records, c)
    ensures ListsColumnTotal(cloud, o, arg, lists, offset, width, c) ==
            ColumnTotal(ListCtxOf(o, arg, lists[k], offset + PeriodCount(lists[..k]), width),
                        cloud.query(ListQueryOptions(o, lists[k])).records, c)
  {
    PrefixShift(lists, offset, k);
    ListsColumnTotalPast(cloud, o, arg, lists, offset, width, c);
  }

  /** List k of lists is list k - 1 of its tail, at the same column. */
  lemma PrefixShift(lists: seq<QueryPeriodList>, offset: nat, k: nat)
    requires 0 < k < |lists|
    ensures lists[1..][k - 1] == lists[k]
    ensures offset + |lists[0].periods| + PeriodCount(lists[1..][..k - 1]) == offset + PeriodCount(lists[..k])
  {
    PeriodCountPrefix(lists, k);
  }

  /** A column of the first list takes only that list's records. */
  lemma ListsColumnTotalFirst<X, O>(cloud: Cloud<X, O>, o: Resolved, arg: CallbackArg,
                                    lists: seq<QueryPeriodList>, offset: nat, width: nat, c: int)
    requires lists != [] && offset <= c < offset + |lists[0].periods|
    ensures ListsColumnTotal(cloud, o, arg, lists, offset, width, c) ==
            ColumnTotal(ListCtxOf(o, arg, lists[0], offset, width), cloud.query(ListQueryOptions(o, lists[0])).records, c)
  {
    ListsColumnTotalUnfold(cloud, o, arg, lists, offset, width, c);
    ListsColumnTotalBefore(cloud, o, arg, lists[1..], offset + |lists[0].periods|, width, c);
  }

  /** A column past the first list takes nothing from it. */
  lemma ListsColumnTotalPast<X, O>(cloud: Cloud<X, O>, o: Resolved, arg: CallbackArg,
                                   lists: seq<QueryPeriodList>, offset: nat, width: nat, c: int)
    requires lists != [] && offset + |lists[0].periods| <= c
    ensures ListsColumnTotal(cloud, o, arg, lists, offset, width, c) ==
            ListsColumnTotal(cloud, o, arg, lists[1..], offset + |lists[0].periods|, width, c)
  {
    ListsColumnTotalUnfold(cloud, o, arg, lists, offset, width, c);
    if |lists[0].periods| > 0 {
      ColumnTotalOutside(ListCtxOf(o, arg, lists[0], offset, width), cloud.query(ListQueryOptions(o, lists[0])).records, c);
    }
  }

  lemma PeriodCountPrefix(lists: seq<QueryPeriodList>, k: nat)
    requires 0 < k <= |lists|
    ensures PeriodCount(lists[..k]) == |lists[0].periods| + PeriodCount(lists[1..][..k - 1])
  {
    assert lists[..k][0] == lists[0] && lists[..k][1..] == lists[1..][..k - 1];
  }

  /** Column c of the result is period c - PeriodCount(lists[..k]) of the
    * list k that covers it. */
  lemma {:induction false} AllPeriodsAt(lists: seq<QueryPeriodList>, k: nat, c: int)
    requires k < |lists|
    requires PeriodCount(lists[..k]) <= c < PeriodCount(lists[..k]) + |lists[k].periods|
    ensures c < |AllPeriods(lists)| && AllPeriods(lists)[c] == lists[k].periods[c - PeriodCount(lists[..k])]
    decreases k
  {
    if k == 0 {
      assert lists[..0] == [];
    } else {
      PeriodCountPrefix(lists, k);
      AllPeriodsAt(lists[1..], k - 1, c - |lists[0].periods|);
      assert lists[1..][k - 1] == lists[k];
    }
  }

  /** Without a callback no call is logged. */
  lemma {:induction false} RunListsNoCallback<X, O>(cloud: Cloud<X, O>, o: Resolved, arg: CallbackArg,
                                                    lists: seq<QueryPeriodList>, offset: nat, width: nat,
                                                    acc: Acc, extra: seq<X>)
    requires offset + PeriodCount(lists) == width
    requires WellFormed(acc, width)
    ensures var r := RunLists(cloud, o, arg, lists, offset, width, acc, extra);
            r.Success? && o.onPeriodMatchError.None? ==> r.value.0.calls == acc.calls
    decreases |lists|
  {
    if lists != [] && o.onPeriodMatchError.None? {
      var l := lists[0];
      var r := RunLists(cloud, o, arg, lists, offset, width, acc, extra);
      RunListsUnfold(cloud, o, arg, lists, offset, width, acc, extra);
      if |l.periods| == 0 {
        RunListsNoCallback(cloud, o, arg, lists[1..], offset, width, acc, extra);
        assert r == RunLists(cloud, o, arg, lists[1..], offset, width, acc, extra);
      } else {
        var run := cloud.query(ListQueryOptions(o, l));
        var ctx := ListCtxOf(o, arg, l, offset, width);
        var s := RunRecords(ctx, run.records, acc);
        if s.Success? {
          RunRecordsCalls(ctx, run.records, acc);
          NoCallbackNoCalls(ctx, run.records);
          var next := offset + |l.periods|;
          RunListsNoCallback(cloud, o, arg, lists[1..], next, width, s.value, extra + run.extraData);
          assert r == RunLists(cloud, o, arg, lists[1..], next, width, s.value, extra + run.extraData);
        }
      }
    }
  }

  /** With the match count as argument, no list adds a call that reports a
    * single match. */
  lemma {:induction false} RunListsNoneReportsOne<X, O>(cloud: Cloud<X, O>, o: Resolved, arg: CallbackArg,
                                                        lists: seq<QueryPeriodList>, offset: nat, width: nat,
                                                        acc: Acc, extra: seq<X>)
    requires offset + PeriodCount(lists) == width
    requires WellFormed(acc, width)
    ensures var r := RunLists(cloud, o, arg, lists, offset, width, acc, extra);
            r.Success? && arg == PassMatchCount && NoneReportsOne(acc.calls) ==> NoneReportsOne(r.value.0.calls)
    decreases |lists|
  {
    if lists != [] && arg == PassMatchCount && NoneReportsOne(acc.calls) {
      var l := lists[0];
      var r := RunLists(cloud, o, arg, lists, offset, width, acc, extra);
      RunListsUnfold(cloud, o, arg, lists, offset, width, acc, extra);
      if |l.periods| == 0 {
        RunListsNoneReportsOne(cloud, o, arg, lists[1..], offset, width, acc, extra);
        assert r == RunLists(cloud, o, arg, lists[1..], offset, width, acc, extra);
      } else {
        var run := cloud.query(ListQueryOptions(o, l));
        var ctx := ListCtxOf(o, arg, l, offset, width);
        var s := RunRecords(ctx, run.records, acc);
        if s.Success? {
          RunRecordsNoneReportsOne(ctx, run.records, acc);
          var next := offset + |l.periods|;
          RunListsNoneReportsOne(cloud, o, arg, lists[1..], next, width, s.value, extra + run.extraData);
          assert r == RunLists(cloud, o, arg, lists[1..], next, width, s.value, extra + run.extraData);
        }
      }
    }
  }

  /** With the match count as argument, one list's records add no call that
    * reports a single match. */
  lemma RunRecordsNoneReportsOne(ctx: ListCtx, records: seq<Fetched>, acc: Acc)
    requires WellFormed(acc, ctx.width)
    ensures var s := RunRecords(ctx, records, acc);
            s.Success? && ctx.arg == PassMatchCount && NoneReportsOne(acc.calls) ==> NoneReportsOne(s.value.calls)
  {
    RunRecordsCalls(ctx, records, acc);
    CallsOfMatchCount(ctx, records);
    NoneReportsOneAppend(acc.calls, CallsOf(ctx, records));
  }

  /** No recorded call says "matched once". */
  predicate NoneReportsOne(calls: seq<MismatchCall>) {
    calls == [] || (calls[0].arg != 1 && NoneReportsOne(calls[1..]))
  }

  /** The recursive definition says what it should: no entry has argument one. */
  lemma {:induction false} NoneReportsOneMeans(calls: seq<MismatchCall>)
    ensures NoneReportsOne(calls) <==> forall k :: 0 <= k < |calls| ==> calls[k].arg != 1
  {
    if calls != [] {
      NoneReportsOneMeans(calls[1..]);
      assert forall k :: 1 <= k < |calls| ==> calls[k] == calls[1..][k - 1];
    }
  }

  lemma {:induction false} NoneReportsOneAppend(a: seq<MismatchCall>, b: seq<MismatchCall>)
    ensures NoneReportsOne(a) && NoneReportsOne(b) ==> NoneReportsOne(a + b)
  {
    if a != [] {
      assert (a + b)[1..] == a[1..] + b;
      NoneReportsOneAppend(a[1..], b);
    } else {
      assert a + b == b;
    }
  }

  /** With the match count as argument, every consulted record reports a
    * count other than one. */
  lemma {:induction false} CallsOfMatchCount(ctx: ListCtx, records: seq<Fetched>)
    ensures ctx.arg == PassMatchCount ==> NoneReportsOne(CallsOf(ctx, records))
    decreases |records|
  {
    if records != [] {
      CallsOfMatchCount(ctx, records[1..]);
      var head := if records[0].Record? && Consulted(ctx, records[0].item)
                  then [MismatchCall(records[0].item, Arg(ctx, records[0].item))] else [];
      assert head == [] || head[1..] == [];
      NoneReportsOneAppend(head, CallsOf(ctx, records[1..]));
    }
  }

  lemma {:induction false} NoCallbackNoCalls(ctx: ListCtx, records: seq<Fetched>)
    ensures ctx.onMismatch.None? ==> CallsOf(ctx, records) == []
    decreases |records|
  {
    if records != [] {
      NoCallbackNoCalls(ctx, records[1..]);
    }
  }

  // ---------------------------------------------------------------------------
  // The handler

  datatype ResultPeriod = ResultPeriod(period: QueryPeriod, totalValue: real)

  /** The handler's result. Rows are a map from key hash to row, since Go
    * collects them from a map in no particular order; `mismatchCalls` records
    * the callback invocations in order. */
  datatype QueryResult<O> = QueryResult(
    items: map<string, Item>,
    totalValue: real,
    groups: seq<QueryResultGroup>,
    periodsSameDuration: bool,
    periods: seq<ResultPeriod>,
    extraOutput: O,
    mismatchCalls: seq<MismatchCall>)

  lemma EmptyTableMatches(width: nat)
    ensures ColumnsMatch(EmptyTable(width))
  {
    forall c | 0 <= c < width
      ensures Zeros(width)[c] == ColumnSum(map[], c)
    {
    }
  }

  /** QueryHandler in one of two modes: PassColumnOffset is the code as
    * written (the callback's argument and the same-duration loop), and
    * PassMatchCount the corrected one. It fails,
    * before querying, on missing groups, on a total of no periods and on an
    * unknown or non-grouping group; on success there is one column per
    * period in list order and every row has one value per column. */
  function QueryHandlerWith<X, O>(md5: string -> string, cloud: Cloud<X, O>, options: seq<HandlerOption>, arg: CallbackArg)
    : (r: Result<QueryResult<O>, HandlerError>)
    ensures ParseHandlerOptions(md5, options).Failure? ==> r == Failure(NoGroups)
    ensures ParseHandlerOptions(md5, options).Success? && PeriodCount(ApplyHandlerOptions(options).periodLists) == 0 ==>
              r == Failure(NoPeriods)
    ensures ParseHandlerOptions(md5, options).Success? && PeriodCount(ApplyHandlerOptions(options).periodLists) > 0 &&
            ResolveGroups(cloud.parameters, ApplyHandlerOptions(options).groups).Failure? ==>
              r == Failure(ResolveGroups(cloud.parameters, ApplyHandlerOptions(options).groups).error)
    ensures r.Success? ==>
              var o := ParseHandlerOptions(md5, options).value;
              var all := AllPeriods(o.periodLists);
              |all| > 0 && |r.value.periods| == |all| &&
              (forall i :: 0 <= i < |all| ==> r.value.periods[i].period == all[i]) &&
              (forall h :: h in r.value.items ==> |r.value.items[h].values| == |all|) &&
              (arg == PassMatchCount ==>
                (r.value.periodsSameDuration <==> forall i :: 0 <= i < |all| ==> Duration(all[i]) == Duration(all[0]))) &&
              (arg == PassColumnOffset ==> r.value.periodsSameDuration == SameDurationAsWritten(all)) &&
              ResolveGroups(cloud.parameters, o.groups) == Success(r.value.groups)
  {
    var p := ParseHandlerOptions(md5, options);
    if p.Failure? then Failure(p.error)
    else
      var o := p.value;
      var all := AllPeriods(o.periodLists);
      if |all| == 0 then Failure(NoPeriods)
      else
        var g := ResolveGroups(cloud.parameters, o.groups);
        if g.Failure? then Failure(g.error)
        else
          var run := RunLists(cloud, o, arg, o.periodLists, 0, |all|, EmptyTable(|all|), []);
          if run.Failure? then Failure(run.error)
          else
            var acc := run.value.0;
            Success(QueryResult(
              acc.items, acc.total, g.value,
              if arg == PassColumnOffset then SameDurationAsWritten(all) else SameDuration(all),
              seq(|all|, i requires 0 <= i < |all| => ResultPeriod(all[i], acc.columns[i])),
              cloud.queryExtraOutput(run.value.1),
              acc.calls))
  }

  function EmptyTable(width: nat): Acc {
    Acc(map[], Zeros(width), 0.0, [])
  }

  /** The table of a successful run: each column's total is the sum of that
    * column over the rows, every row sits under the hash of its keys, and the
    * grand total counts every kept record once. With the match count as
    * argument the callback is never told that a record matched once. */
  lemma QueryHandlerTable<X, O>(md5: string -> string, cloud: Cloud<X, O>, options: seq<HandlerOption>, arg: CallbackArg)
    ensures var r := QueryHandlerWith(md5, cloud, options, arg);
            r.Success? ==>
              var o := ParseHandlerOptions(md5, options).value;
              var all := AllPeriods(o.periodLists);
              (forall c :: 0 <= c < |all| ==> r.value.periods[c].totalValue == ColumnSum(r.value.items, c)) &&
              (forall h :: h in r.value.items ==> o.itemKeysHash(r.value.items[h].keys) == h) &&
              r.value.totalValue == ListsKeptTotal(cloud, o, arg, o.periodLists, 0, |all|) &&
              (arg == PassMatchCount ==> NoneReportsOne(r.value.mismatchCalls))
  {
    var r := QueryHandlerWith(md5, cloud, options, arg);
    if r.Success? {
      var o := ParseHandlerOptions(md5, options).value;
      var all := AllPeriods(o.periodLists);
      EmptyTableMatches(|all|);
      RunListsTotals(cloud, o, arg, o.periodLists, 0, |all|, EmptyTable(|all|), []);
      RunListsNoneReportsOne(cloud, o, arg, o.periodLists, 0, |all|, EmptyTable(|all|), []);
    }
  }

  /** Past validation, the handler fails exactly when some non-empty list's
    * query returns a backend error or a record the callback rejects. */
  lemma QueryHandlerRuns<X, O>(md5: string -> string, cloud: Cloud<X, O>, options: seq<HandlerOption>, arg: CallbackArg)
    requires ParseHandlerOptions(md5, options).Success?
    requires PeriodCount(ApplyHandlerOptions(options).periodLists) > 0
    requires ResolveGroups(cloud.parameters, ApplyHandlerOptions(options).groups).Success?
    ensures var o := ParseHandlerOptions(md5, options).value;
            QueryHandlerWith(md5, cloud, options, arg).Success? <==>
            ListsOk(cloud, o, arg, o.periodLists, 0, PeriodCount(o.periodLists))
  {
    var o := ParseHandlerOptions(md5, options).value;
    var all := AllPeriods(o.periodLists);
    RunListsSucceeds(cloud, o, arg, o.periodLists, 0, |all|, EmptyTable(|all|), []);
  }

  /** On success the rows are one per hash of a kept record of any list's
    * query. */
  lemma QueryHandlerRows<X, O>(md5: string -> string, cloud: Cloud<X, O>, options: seq<HandlerOption>, arg: CallbackArg)
    ensures var r := QueryHandlerWith(md5, cloud, options, arg);
            r.Success? ==>
              var o := ParseHandlerOptions(md5, options).value;
              r.value.items.Keys == ListsKeptHashes(cloud, o, arg, o.periodLists, 0, |AllPeriods(o.periodLists)|)
  {
    var r := QueryHandlerWith(md5, cloud, options, arg);
    if r.Success? {
      var o := ParseHandlerOptions(md5, options).value;
      var all := AllPeriods(o.periodLists);
      var run := RunLists(cloud, o, arg, o.periodLists, 0, |all|, EmptyTable(|all|), []);
      assert r.value.items == run.value.0.items;
      RunListsRows(cloud, o, arg, o.periodLists, 0, |all|, EmptyTable(|all|), []);
      assert run.value.0.items.Keys == {} + ListsKeptHashes(cloud, o, arg, o.periodLists, 0, |all|);
    }
  }

  /** On success each column total is what the kept records of every list's
    * query add to that column. */
  lemma QueryHandlerColumns<X, O>(md5: string -> string, cloud: Cloud<X, O>, options: seq<HandlerOption>, arg: CallbackArg,
                                  o: Resolved)
    requires ParseHandlerOptions(md5, options) == Success(o)
    ensures var r := QueryHandlerWith(md5, cloud, options, arg);
            r.Success? ==> forall c :: 0 <= c < |r.value.periods| ==>
              r.value.periods[c].totalValue == ListsColumnTotal(cloud, o, arg, o.periodLists, 0, PeriodCount(o.periodLists), c)
  {
    var r := QueryHandlerWith(md5, cloud, options, arg);
    if r.Success? {
      forall c | 0 <= c < |r.value.periods| {
        QueryHandlerColumn(md5, cloud, options, arg, o, c);
      }
    }
  }

  lemma QueryHandlerColumn<X, O>(md5: string -> string, cloud: Cloud<X, O>, options: seq<HandlerOption>, arg: CallbackArg,
                                 o: Resolved, c: int)
    requires ParseHandlerOptions(md5, options) == Success(o)
    ensures var r := QueryHandlerWith(md5, cloud, options, arg);
            r.Success? && 0 <= c < |r.value.periods| ==>
              r.value.periods[c].totalValue == ListsColumnTotal(cloud, o, arg, o.periodLists, 0, PeriodCount(o.periodLists), c)
  {
    var r := QueryHandlerWith(md5, cloud, options, arg);
    if r.Success? && 0 <= c < |r.value.periods| {
      var lists := o.periodLists;
      var all := AllPeriods(lists);
      var run := RunLists(cloud, o, arg, lists, 0, |all|, EmptyTable(|all|), []);
      assert r.value.periods[c].totalValue == run.value.0.columns[c];
      RunListsColumn(cloud, o, arg, lists, 0, |all|, EmptyTable(|all|), [], c);
      assert EmptyTable(|all|).columns[c] == 0.0;
    }
  }

  /** QueryHandler as written: the callback receives the list's column
    * offset, and the same-duration flag comes from the loop that forgets an
    * empty first period. It agrees with the intended flag as long as no
    * period ends the day before it starts. */
  function QueryHandlerAsWritten<X, O>(md5: string -> string, cloud: Cloud<X, O>, options: seq<HandlerOption>)
    : (r: Result<QueryResult<O>, HandlerError>)
    ensures r.Success? ==> forall c :: 0 <= c < |r.value.periods| ==>
              r.value.periods[c].totalValue == ColumnSum(r.value.items, c)
    ensures r.Success? ==>
              var all := AllPeriods(ApplyHandlerOptions(options).periodLists);
              r.value.periodsSameDuration == SameDurationAsWritten(all) &&
              ((forall i :: 0 <= i < |all| ==> Duration(all[i]) != -1) ==>
                (r.value.periodsSameDuration <==> forall i :: 0 <= i < |all| ==> Duration(all[i]) == Duration(all[0])))
  {
    SameDurationAgreesWhenSet(AllPeriods(ApplyHandlerOptions(options).periodLists));
    QueryHandlerTable(md5, cloud, options, PassColumnOffset);
    QueryHandlerWith(md5, cloud, options, PassColumnOffset)
  }

  /** QueryHandler as intended: the callback receives the match count, so it
    * is never told that a record matched exactly once. */
  function QueryHandler<X, O>(md5: string -> string, cloud: Cloud<X, O>, options: seq<HandlerOption>)
    : (r: Result<QueryResult<O>, HandlerError>)
    ensures r.Success? ==> forall c :: 0 <= c < |r.value.periods| ==>
              r.value.periods[c].totalValue == ColumnSum(r.value.items, c)
    ensures r.Success? ==> NoneReportsOne(r.value.mismatchCalls)
    ensures r.Success? ==>
              var all := AllPeriods(ApplyHandlerOptions(options).periodLists);
              (r.value.periodsSameDuration <==> forall i :: 0 <= i < |all| ==> Duration(all[i]) == Duration(all[0]))
  {
    QueryHandlerTable(md5, cloud, options, PassMatchCount);
    var r := QueryHandlerWith(md5, cloud, options, PassMatchCount);
    assert r.Success? ==> ParseHandlerOptions(md5, options).value.periodLists == ApplyHandlerOptions(options).periodLists;
    r
  }

  /** Validation happens before any backend call: when the options, the
    * period count or a group is rejected, the outcome is the same for every
    * backend with the same parameters. */
  lemma FailsBeforeQuery<X, O>(md5: string -> string, c1: Cloud<X, O>, c2: Cloud<X, O>, options: seq<HandlerOption>, arg: CallbackArg)
    requires c1.parameters == c2.parameters
    requires ParseHandlerOptions(md5, options).Failure? ||
             PeriodCount(ApplyHandlerOptions(options).periodLists) == 0 ||
             ResolveGroups(c1.parameters, ApplyHandlerOptions(options).groups).Failure?
    ensures QueryHandlerWith(md5, c1, options, arg).Failure?
    ensures QueryHandlerWith(md5, c1, options, arg).error == QueryHandlerWith(md5, c2, options, arg).error
  {
  }
}
