/**
 * Query periods: inclusive date intervals, the lists of them queried together
 * (query.go's QueryPeriod, QueryPeriodList and Range) and the generator of
 * equal-length consecutive periods (time.go's GenerateQueryPeriods).
 */
module Periods {
  import opened Wrappers
  import opened Dates

  /** One period, inclusive at both ends. The id is optional and only for the caller. */
  datatype QueryPeriod = QueryPeriod(id: string, start: Date, end: Date)

  /** Periods queried against the backend in one request. */
  datatype QueryPeriodList = QueryPeriodList(periods: seq<QueryPeriod>)

  /** `End.Sub(Start)`: one less than the number of days in the period. */
  function Duration(p: QueryPeriod): int {
    Sub(p.end, p.start)
  }

  /** Some period of the list starts on `d`. */
  predicate IsStartOf(ps: seq<QueryPeriod>, d: Date) {
    exists i :: 0 <= i < |ps| && ps[i].start == d
  }

  /** Some period of the list ends on `d`. */
  predicate IsEndOf(ps: seq<QueryPeriod>, d: Date) {
    exists i :: 0 <= i < |ps| && ps[i].end == d
  }

  /** The `(bool, start, end)` triple returned by `Range`. */
  datatype Span = Span(ok: bool, start: Date, end: Date)

  /** The loop of `Range`: the earliest start and the latest end seen so far. */
  function RangeLoop(ps: seq<QueryPeriod>, start: Option<Date>, end: Option<Date>): (r: Span)
    requires start.Some? == end.Some?
    ensures r.ok <==> |ps| > 0 || start.Some?
    ensures !r.ok ==> r.start == ZeroDate && r.end == ZeroDate
    ensures r.ok ==> forall i :: 0 <= i < |ps| ==> r.start <= ps[i].start && ps[i].end <= r.end
    ensures r.ok && start.Some? ==> r.start <= start.value && end.value <= r.end
    decreases |ps|
  {
    if ps == [] then
      if start.None? || end.None? then Span(false, ZeroDate, ZeroDate)
      else Span(true, start.value, end.value)
    else
      var p := ps[0];
      var s := if start.None? || p.start < start.value then Some(p.start) else start;
      var e := if end.None? || p.end > end.value then Some(p.end) else end;
      var r := RangeLoop(ps[1..], s, e);
      assert forall i :: 1 <= i < |ps| ==> ps[i] == ps[1..][i - 1];
      r
  }

  /** The bounds the loop reports are attained: by a period of the list or by
    * the bound carried in. */
  lemma {:induction false} RangeLoopAttained(ps: seq<QueryPeriod>, start: Option<Date>, end: Option<Date>)
    requires start.Some? == end.Some?
    ensures var r := RangeLoop(ps, start, end);
            r.ok ==> (IsStartOf(ps, r.start) || Some(r.start) == start) && (IsEndOf(ps, r.end) || Some(r.end) == end)
    decreases |ps|
  {
    if ps != [] {
      var p := ps[0];
      var s := if start.None? || p.start < start.value then Some(p.start) else start;
      var e := if end.None? || p.end > end.value then Some(p.end) else end;
      RangeLoopAttained(ps[1..], s, e);
      var r := RangeLoop(ps[1..], s, e);
      assert RangeLoop(ps, start, end) == r;
      if IsStartOf(ps[1..], r.start) {
        var j :| 0 <= j < |ps[1..]| && ps[1..][j].start == r.start;
        assert ps[j + 1].start == r.start;
      }
      if IsEndOf(ps[1..], r.end) {
        var j :| 0 <= j < |ps[1..]| && ps[1..][j].end == r.end;
        assert ps[j + 1].end == r.end;
      }
      if Some(r.start) == s && s != start {
        assert ps[0].start == r.start;
      }
      if Some(r.end) == e && e != end {
        assert ps[0].end == r.end;
      }
    }
  }

  /** QueryPeriodList.Range (query.go): false exactly for an empty list, else
    * the smallest interval that contains every period of the list. */
  function Range(l: QueryPeriodList): (r: Span)
    ensures r.ok <==> |l.periods| > 0
    ensures !r.ok ==> r.start == ZeroDate && r.end == ZeroDate
    ensures r.ok ==> IsStartOf(l.periods, r.start) && IsEndOf(l.periods, r.end)
    ensures forall i :: 0 <= i < |l.periods| ==> r.start <= l.periods[i].start && l.periods[i].end <= r.end
  {
    RangeLoopAttained(l.periods, None, None);
    RangeLoop(l.periods, None, None)
  }

  /** The number of periods of the list whose interval contains `dt`. */
  function CountContaining(ps: seq<QueryPeriod>, dt: Date): (n: nat)
    ensures n <= |ps|
  {
    if ps == [] then 0
    else (if DateBetweenDates(dt, ps[0].start, ps[0].end) then 1 else 0) + CountContaining(ps[1..], dt)
  }

  lemma {:induction false} CountContainingOne(ps: seq<QueryPeriod>, dt: Date, k: nat)
    requires k < |ps| && DateBetweenDates(dt, ps[k].start, ps[k].end)
    requires forall j :: 0 <= j < |ps| && j != k ==> !DateBetweenDates(dt, ps[j].start, ps[j].end)
    ensures CountContaining(ps, dt) == 1
    decreases |ps|
  {
    if k == 0 {
      CountContainingNone(ps[1..], dt);
    } else {
      CountContainingOne(ps[1..], dt, k - 1);
    }
  }

  lemma {:induction false} CountContainingNone(ps: seq<QueryPeriod>, dt: Date)
    requires forall j :: 0 <= j < |ps| ==> !DateBetweenDates(dt, ps[j].start, ps[j].end)
    ensures CountContaining(ps, dt) == 0
    decreases |ps|
  {
    if ps != [] {
      CountContainingNone(ps[1..], dt);
    }
  }

  /** The period `back` lengths of `diff` days before [start, end]. */
  function Shifted(start: Date, end: Date, diff: int, back: int): QueryPeriod {
    QueryPeriod("", AddDays(start, -diff * back), AddDays(end, -diff * back))
  }

  /** The loop of GenerateQueryPeriods, counting i down to 0. */
  function GenerateLoop(start: Date, end: Date, diff: int, i: int, acc: seq<QueryPeriod>): (r: seq<QueryPeriod>)
    ensures |r| == |acc| + (if i >= 0 then i + 1 else 0)
    ensures r[..|acc|] == acc
    ensures forall k :: |acc| <= k < |r| ==> r[k] == Shifted(start, end, diff, i - (k - |acc|))
    decreases i + 1
  {
    if i < 0 then acc
    else GenerateLoop(start, end, diff, i - 1, acc + [Shifted(start, end, diff, i)])
  }

  /** GenerateQueryPeriods (time.go): `amount` periods of the input's length,
    * oldest first, each one length earlier than the next. */
  function GenerateQueryPeriods(start: Date, end: Date, amount: int): (r: seq<QueryPeriod>)
    ensures |r| == if amount > 0 then amount else 0
    ensures forall k :: 0 <= k < |r| ==> r[k] == Shifted(start, end, Sub(end, start) + 1, |r| - 1 - k)
  {
    GenerateLoop(start, end, Sub(end, start) + 1, amount - 1, [])
  }

  /** The last generated period is the input range itself. */
  lemma GenerateLastIsInput(start: Date, end: Date, amount: int)
    requires amount >= 1
    ensures var r := GenerateQueryPeriods(start, end, amount);
            r[|r| - 1].start == start && r[|r| - 1].end == end
  {
  }

  /** Every generated period has the input's duration. */
  lemma GenerateSameDuration(start: Date, end: Date, amount: int)
    ensures var r := GenerateQueryPeriods(start, end, amount);
            forall k :: 0 <= k < |r| ==> Duration(r[k]) == Sub(end, start)
  {
  }

  /** Consecutive generated periods touch: no gap and no overlap. */
  lemma GenerateAdjacent(start: Date, end: Date, amount: int)
    ensures var r := GenerateQueryPeriods(start, end, amount);
            forall k :: 0 <= k < |r| - 1 ==> r[k + 1].start == r[k].end + 1
  {
    var r := GenerateQueryPeriods(start, end, amount);
    var diff := Sub(end, start) + 1;
    forall k | 0 <= k < |r| - 1
      ensures r[k + 1].start == r[k].end + 1
    {
      var j := |r| - 1 - k;
      assert diff * j == diff * (j - 1) + diff;
    }
  }

  lemma MulAtLeast(a: int, b: int)
    requires a >= 1 && b >= 1
    ensures a * b >= a
  {
  }

  /** A period further back ends before a nearer one starts. */
  lemma ShiftedBefore(start: Date, end: Date, j: int, j': int)
    requires start <= end && j' < j
    ensures var diff := Sub(end, start) + 1;
            Shifted(start, end, diff, j).end < Shifted(start, end, diff, j').start
  {
    var diff := Sub(end, start) + 1;
    MulAtLeast(diff, j - j');
    assert diff * j == diff * j' + diff * (j - j');
  }

  /** Every date not after `end` lies in the period `(end - dt) / diff` lengths back. */
  lemma ShiftedFind(start: Date, end: Date, dt: Date) returns (j: nat)
    requires start <= end && dt <= end
    ensures var diff := Sub(end, start) + 1;
            var p := Shifted(start, end, diff, j);
            p.start <= dt <= p.end
  {
    var diff := Sub(end, start) + 1;
    var q := (end - dt) / diff;
    var rem := (end - dt) % diff;
    assert end - dt == diff * q + rem && 0 <= rem < diff;
    if q < 0 {
      MulAtLeast(diff, -q);
    }
    j := q;
  }

  /** Over a well-formed range, every date of the generated list's span falls
    * in exactly one generated period. */
  lemma GenerateCoversOnce(start: Date, end: Date, amount: int, dt: Date)
    requires start <= end && amount >= 1
    requires GenerateQueryPeriods(start, end, amount)[0].start <= dt <= end
    ensures CountContaining(GenerateQueryPeriods(start, end, amount), dt) == 1
  {
    var r := GenerateQueryPeriods(start, end, amount);
    var diff := Sub(end, start) + 1;
    var j := ShiftedFind(start, end, dt);
    if j > amount - 1 {
      ShiftedBefore(start, end, j, amount - 1);
      assert false;
    }
    var k := amount - 1 - j;
    assert r[k] == Shifted(start, end, diff, j);
    forall k' | 0 <= k' < |r| && k' != k
      ensures !DateBetweenDates(dt, r[k'].start, r[k'].end)
    {
      var j' := amount - 1 - k';
      assert r[k'] == Shifted(start, end, diff, j');
      if j' < j {
        ShiftedBefore(start, end, j, j');
      } else {
        ShiftedBefore(start, end, j', j);
      }
    }
    CountContainingOne(r, dt, k);
  }

  /** The span of a generated list runs from its first start to the input end. */
  lemma GenerateRange(start: Date, end: Date, amount: int)
    requires start <= end && amount >= 1
    ensures var r := GenerateQueryPeriods(start, end, amount);
            Range(QueryPeriodList(r)) == Span(true, r[0].start, end)
  {
    var r := GenerateQueryPeriods(start, end, amount);
    var diff := Sub(end, start) + 1;
    var span := Range(QueryPeriodList(r));
    forall k | 0 <= k < |r|
      ensures r[0].start <= r[k].start && r[k].end <= end
    {
      var j := |r| - 1 - k;
      if j < |r| - 1 {
        ShiftedBefore(start, end, |r| - 1, j);
      }
      if j > 0 {
        ShiftedBefore(start, end, j, 0);
      }
    }
    assert r[|r| - 1].end == end;
    assert IsStartOf(r, span.start);
    assert IsEndOf(r, span.end);
  }
}
