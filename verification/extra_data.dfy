/**
 * The AWS adapter's extra data (cloud/aws/extra_data.go): each query
 * returns the usage type groups and the tags seen for its filter, and the
 * output step merges the lists of all queries into one.
 *
 * A Go `error` is modelled as the sequence of messages it joins: the empty
 * sequence is nil, and `errors.Join` of two errors is their concatenation.
 */
module ExtraData {
  import opened Wrappers

  /** The elements of `s` are pairwise different. */
  predicate NoDup<T(==)>(s: seq<T>) {
    forall i, j :: 0 <= i < j < |s| ==> s[i] != s[j]
  }

  /** The loop `for v in xs: if !contains(acc, v) { acc = append(acc, v) }`:
    * the values of `xs` not yet present, appended in order. */
  function AppendNew<T(==,!new)>(acc: seq<T>, xs: seq<T>): (r: seq<T>)
    ensures |acc| <= |r| && r[..|acc|] == acc
    ensures forall x :: x in r <==> x in acc || x in xs
    ensures NoDup(acc) ==> NoDup(r)
    decreases |xs|
  {
    if xs == [] then acc
    else AppendNew(if xs[0] in acc then acc else acc + [xs[0]], xs[1..])
  }

  /** Appending values that are all present already changes nothing. */
  lemma {:induction false} AppendNewKnown<T(!new)>(acc: seq<T>, xs: seq<T>)
    requires forall x :: x in xs ==> x in acc
    ensures AppendNew(acc, xs) == acc
    decreases |xs|
  {
    if xs != [] {
      assert xs[0] in xs;
      assert forall x :: x in xs[1..] ==> x in xs;
      AppendNewKnown(acc, xs[1..]);
    }
  }

  /** A value not yet present is appended. */
  lemma AppendNewOne<T(!new)>(acc: seq<T>, x: T)
    requires x !in acc
    ensures AppendNew(acc, [x]) == acc + [x]
  {
    assert [x][1..] == [];
  }

  /** Merging the same values twice is merging them once. */
  lemma AppendNewIdempotent<T(!new)>(acc: seq<T>, xs: seq<T>)
    ensures AppendNew(AppendNew(acc, xs), xs) == AppendNew(acc, xs)
  {
    AppendNewKnown(AppendNew(acc, xs), xs);
  }

  // ---------------------------------------------------------------------------
  // Usage type groups

  datatype UsageTypeGroup = UsageTypeGroup(unit: string, value: string, attributeDump: string)

  /** extraDataUsageTypeGroups: an error (empty for nil) and the groups. */
  datatype UsageTypeGroups = UsageTypeGroups(err: seq<string>, data: seq<UsageTypeGroup>)

  /** merge: an incoming error is joined to the current one and its data is
    * ignored; otherwise the incoming groups not yet present are appended in
    * order, whatever the current error. */
  function MergeUsage(e: UsageTypeGroups, other: UsageTypeGroups): (r: UsageTypeGroups)
    ensures other.err != [] ==> r.err == e.err + other.err && r.data == e.data
    ensures other.err == [] ==> r.err == e.err
    ensures |e.data| <= |r.data| && r.data[..|e.data|] == e.data
    ensures forall g :: g in r.data <==> g in e.data || (other.err == [] && g in other.data)
    ensures NoDup(e.data) ==> NoDup(r.data)
  {
    if other.err != [] then UsageTypeGroups(e.err + other.err, e.data)
    else UsageTypeGroups(e.err, AppendNew(e.data, other.data))
  }

  /** Merging the same data twice adds nothing the first merge did not. */
  lemma MergeUsageIdempotent(e: UsageTypeGroups, other: UsageTypeGroups)
    requires other.err == []
    ensures MergeUsage(MergeUsage(e, other), other) == MergeUsage(e, other)
  {
    AppendNewIdempotent(e.data, other.data);
  }

  /** A current error does not stop error-free data from being merged. */
  lemma ErrorDoesNotBlockUsage(e: UsageTypeGroups, g: UsageTypeGroup)
    requires e.err != [] && g !in e.data
    ensures MergeUsage(e, UsageTypeGroups([], [g])).data == e.data + [g]
  {
    AppendNewOne(e.data, g);
  }

  /** The merge keeps arrival order, so it is not commutative. */
  lemma MergeUsageOrdered(a: UsageTypeGroup, b: UsageTypeGroup)
    requires a != b
    ensures var empty := UsageTypeGroups([], []);
            MergeUsage(MergeUsage(empty, UsageTypeGroups([], [a])), UsageTypeGroups([], [b])).data == [a, b] &&
            MergeUsage(MergeUsage(empty, UsageTypeGroups([], [b])), UsageTypeGroups([], [a])).data == [b, a]
  {
    AppendNewOne([], a);
    AppendNewOne([], b);
    assert [] + [a] == [a] && [] + [b] == [b];
    AppendNewOne([a], b);
    AppendNewOne([b], a);
  }

  // ---------------------------------------------------------------------------
  // Tags

  /** extraDataTags: an error (empty for nil) and the values of each tag. */
  datatype Tags = Tags(err: seq<string>, data: map<string, seq<string>>)

  /** The merged tag map: a tag only one side has keeps that side's values,
    * and a tag both have gains the incoming values not yet present. */
  function MergeTagMaps(cur: map<string, seq<string>>, other: map<string, seq<string>>)
    : (r: map<string, seq<string>>)
    ensures r.Keys == cur.Keys + other.Keys
    ensures forall k :: k in cur && k !in other ==> r[k] == cur[k]
    ensures forall k :: k !in cur && k in other ==> r[k] == other[k]
    ensures forall k :: k in cur && k in other ==>
              |cur[k]| <= |r[k]| && r[k][..|cur[k]|] == cur[k] && (forall v :: v in r[k] <==> v in cur[k] || v in other[k])
  {
    map k | k in cur.Keys + other.Keys ::
      if k in cur && k in other then AppendNew(cur[k], other[k])
      else if k in cur then cur[k]
      else other[k]
  }

  /** The merge loop over the incoming tags, visited in the order `order`
    * (Go's map iteration order, which the program does not fix). */
  function MergeTagsLoop(cur: map<string, seq<string>>, other: map<string, seq<string>>, order: seq<string>)
    : (r: map<string, seq<string>>)
    requires forall k :: k in order ==> k in other
    ensures r.Keys == cur.Keys + set k | k in order
    decreases |order|
  {
    if order == [] then cur
    else
      var k := order[0];
      var next := if k in cur then cur[k := AppendNew(cur[k], other[k])] else cur[k := other[k]];
      assert forall j :: j in order[1..] ==> j in order;
      MergeTagsLoop(next, other, order[1..])
  }

  /** What the loop leaves after visiting the tags `done`. */
  ghost function Visited(cur: map<string, seq<string>>, other: map<string, seq<string>>, done: set<string>)
    : map<string, seq<string>>
    requires done <= other.Keys
  {
    map k | k in cur.Keys + done ::
      if k in done then (if k in cur then AppendNew(cur[k], other[k]) else other[k])
      else cur[k]
  }

  /** Visiting one more tag, not visited later, is one step of the loop. */
  lemma VisitedStep(cur: map<string, seq<string>>, other: map<string, seq<string>>, k: string, later: set<string>)
    requires k in other && k !in later && later <= other.Keys
    ensures var next := if k in cur then cur[k := AppendNew(cur[k], other[k])] else cur[k := other[k]];
            Visited(next, other, later) == Visited(cur, other, {k} + later)
  {
    var v := if k in cur then AppendNew(cur[k], other[k]) else other[k];
    var next := cur[k := v];
    var a := Visited(next, other, later);
    var b := Visited(cur, other, {k} + later);
    assert a.Keys == b.Keys;
    forall j | j in a.Keys ensures a[j] == b[j] {
      if j == k {
        assert a[j] == next[k] == v;
      } else {
        assert j in cur <==> j in next;
        assert j in cur ==> cur[j] == next[j];
      }
    }
  }

  lemma NoDupTail<T>(s: seq<T>)
    requires NoDup(s) && s != []
    ensures NoDup(s[1..]) && s[0] !in s[1..]
  {
    var rest := s[1..];
    forall i, j | 0 <= i < j < |rest| ensures rest[i] != rest[j] {
      assert rest[i] == s[i + 1] && rest[j] == s[j + 1];
    }
    forall i | 0 <= i < |rest| ensures rest[i] != s[0] {
      assert rest[i] == s[i + 1];
    }
  }

  lemma SetOfCons<T>(s: seq<T>)
    requires s != []
    ensures (set j | j in s) == {s[0]} + (set j | j in s[1..])
  {
    assert s == [s[0]] + s[1..];
  }

  lemma {:induction false} MergeTagsLoopVisits(cur: map<string, seq<string>>, other: map<string, seq<string>>,
                                               order: seq<string>)
    requires NoDup(order) && forall k :: k in order ==> k in other
    ensures (set k | k in order) <= other.Keys
    ensures MergeTagsLoop(cur, other, order) == Visited(cur, other, set k | k in order)
    decreases |order|
  {
    if order != [] {
      var k := order[0];
      var rest := order[1..];
      var next := if k in cur then cur[k := AppendNew(cur[k], other[k])] else cur[k := other[k]];
      assert forall j :: j in rest ==> j in order;
      NoDupTail(order);
      MergeTagsLoopVisits(next, other, rest);
      var restSet := set j | j in rest;
      SetOfCons(order);
      VisitedStep(cur, other, k, restSet);
    } else {
      assert (set j | j in order) == {};
    }
  }

  /** Whatever order Go visits the incoming tags in, the loop computes the
    * merged tag map. */
  lemma MergeTagsOrderIndependent(cur: map<string, seq<string>>, other: map<string, seq<string>>,
                                  order: seq<string>)
    requires NoDup(order) && forall k :: k in order <==> k in other
    ensures MergeTagsLoop(cur, other, order) == MergeTagMaps(cur, other)
  {
    MergeTagsLoopVisits(cur, other, order);
    assert (set k | k in order) == other.Keys;
    VisitedAll(cur, other);
  }

  /** Having visited every incoming tag, the loop holds the merged map. */
  lemma VisitedAll(cur: map<string, seq<string>>, other: map<string, seq<string>>)
    ensures Visited(cur, other, other.Keys) == MergeTagMaps(cur, other)
  {
    var a := Visited(cur, other, other.Keys);
    var b := MergeTagMaps(cur, other);
    assert a.Keys == b.Keys;
    forall k | k in a.Keys ensures a[k] == b[k] {
    }
  }

  /** merge for tags: an incoming error is joined and its tags ignored;
    * otherwise the tag maps are merged, whatever the current error. */
  function MergeTags(e: Tags, other: Tags): (r: Tags)
    ensures other.err != [] ==> r.err == e.err + other.err && r.data == e.data
    ensures other.err == [] ==> r.err == e.err && r.data.Keys == e.data.Keys + other.data.Keys
    ensures forall k :: k in e.data ==> k in r.data && |e.data[k]| <= |r.data[k]| && r.data[k][..|e.data[k]|] == e.data[k]
  {
    if other.err != [] then Tags(e.err + other.err, e.data)
    else Tags(e.err, MergeTagMaps(e.data, other.data))
  }

  // ---------------------------------------------------------------------------
  // The output step

  /** One query's extra data; data of other clouds is ignored here. */
  datatype QueryExtraData =
    | UsageData(usage: UsageTypeGroups)
    | TagData(tags: Tags)
    | OtherData(kind: string)

  /** The running merge of QueryExtraOutput's loop. */
  datatype Collected = Collected(usage: UsageTypeGroups, tags: Tags)

  /** The usage type groups of the queries merged in order, starting from no
    * error and no groups. */
  function CollectUsage(extra: seq<QueryExtraData>): (r: UsageTypeGroups)
    ensures r.err != [] <==> exists i :: 0 <= i < |extra| && extra[i].UsageData? && extra[i].usage.err != []
    ensures forall g :: g in r.data <==>
            exists i :: 0 <= i < |extra| && extra[i].UsageData? && extra[i].usage.err == [] &&
                        g in extra[i].usage.data
    ensures NoDup(r.data)
  {
    if extra == [] then UsageTypeGroups([], [])
    else
      var prev := CollectUsage(extra[..|extra| - 1]);
      assert forall i :: 0 <= i < |extra| - 1 ==> extra[..|extra| - 1][i] == extra[i];
      match extra[|extra| - 1]
      case UsageData(u) => MergeUsage(prev, u)
      case _ => prev
  }

  /** The tags of the queries merged in order, starting from no error and no
    * tags. */
  function CollectTags(extra: seq<QueryExtraData>): (r: Tags)
    ensures r.err != [] <==> exists i :: 0 <= i < |extra| && extra[i].TagData? && extra[i].tags.err != []
    ensures forall k :: k in r.data <==>
            exists i :: 0 <= i < |extra| && extra[i].TagData? && extra[i].tags.err == [] &&
                        k in extra[i].tags.data
  {
    if extra == [] then Tags([], map[])
    else
      var prev := CollectTags(extra[..|extra| - 1]);
      assert forall i :: 0 <= i < |extra| - 1 ==> extra[..|extra| - 1][i] == extra[i];
      match extra[|extra| - 1]
      case TagData(t) => MergeTags(prev, t)
      case _ => prev
  }

  /** The loop of QueryExtraOutput: each kind of extra data is merged on its
    * own accumulator, and data of other clouds is skipped. */
  function Collect(extra: seq<QueryExtraData>): Collected {
    Collected(CollectUsage(extra), CollectTags(extra))
  }

  /** The merged extra data for the page: each section is present when it
    * has an error or some data. */
  datatype ExtraOutput = ExtraOutput(usageTypeGroups: Option<UsageTypeGroups>, tags: Option<Tags>)

  /** QueryExtraOutput: the usage type groups appear iff some query reported
    * an error or some groups for them, and likewise for the tags. */
  function QueryExtraOutput(extra: seq<QueryExtraData>): (r: ExtraOutput)
    ensures r.usageTypeGroups.Some? <==>
            exists i :: 0 <= i < |extra| && extra[i].UsageData? &&
                        (extra[i].usage.err != [] || extra[i].usage.data != [])
    ensures r.tags.Some? <==>
            exists i :: 0 <= i < |extra| && extra[i].TagData? &&
                        (extra[i].tags.err != [] || extra[i].tags.data != map[])
    ensures r.usageTypeGroups.Some? ==> r.usageTypeGroups.value == Collect(extra).usage
    ensures r.tags.Some? ==> r.tags.value == Collect(extra).tags
  {
    var c := Collect(extra);
    UsageSectionPresent(extra);
    TagSectionPresent(extra);
    ExtraOutput(if c.usage.err != [] || |c.usage.data| > 0 then Some(c.usage) else None,
                if c.tags.err != [] || |c.tags.data| > 0 then Some(c.tags) else None)
  }

  lemma UsageSectionPresent(extra: seq<QueryExtraData>)
    ensures var c := Collect(extra);
            (c.usage.err != [] || |c.usage.data| > 0) <==>
            exists i :: 0 <= i < |extra| && extra[i].UsageData? &&
                        (extra[i].usage.err != [] || extra[i].usage.data != [])
  {
    var c := Collect(extra);
    if exists i :: 0 <= i < |extra| && extra[i].UsageData? &&
                   (extra[i].usage.err != [] || extra[i].usage.data != []) {
      var i :| 0 <= i < |extra| && extra[i].UsageData? &&
               (extra[i].usage.err != [] || extra[i].usage.data != []);
      if extra[i].usage.err == [] {
        assert extra[i].usage.data[0] in c.usage.data;
      }
    }
    if |c.usage.data| > 0 {
      assert c.usage.data[0] in c.usage.data;
    }
  }

  lemma TagSectionPresent(extra: seq<QueryExtraData>)
    ensures var c := Collect(extra);
            (c.tags.err != [] || |c.tags.data| > 0) <==>
            exists i :: 0 <= i < |extra| && extra[i].TagData? &&
                        (extra[i].tags.err != [] || extra[i].tags.data != map[])
  {
    var c := Collect(extra);
    if exists i :: 0 <= i < |extra| && extra[i].TagData? &&
                   (extra[i].tags.err != [] || extra[i].tags.data != map[]) {
      var i :| 0 <= i < |extra| && extra[i].TagData? &&
               (extra[i].tags.err != [] || extra[i].tags.data != map[]);
      if extra[i].tags.err == [] {
        var k :| k in extra[i].tags.data;
        assert k in c.tags.data;
      }
    }
    if |c.tags.data| > 0 {
      var k :| k in c.tags.data;
    }
  }
}
