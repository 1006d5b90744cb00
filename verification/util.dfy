/**
 * Small helpers of the root package (util.go): truncating a title with an
 * ellipsis, and visiting a map's entries ordered by value.
 */
module Util {

  // ---------------------------------------------------------------------------
  // EllipticalTruncate

  /** unicode.IsSpace on the ASCII range. */
  predicate IsSpace(c: char) {
    c == ' ' || c == '\t' || c == '\n' || c == '\r' || c as int == 11 || c as int == 12
  }

  /** The reference cut point: the last whitespace index among text[0..hi],
    * or `dflt` when there is none. */
  function LastSpace(text: string, hi: int, dflt: int): (r: int)
    requires hi < |text|
    ensures (r == dflt && forall j :: 0 <= j <= hi ==> !IsSpace(text[j])) ||
            (0 <= r <= hi && IsSpace(text[r]) && forall j :: r < j <= hi ==> !IsSpace(text[j]))
    decreases hi + 1
  {
    if hi < 0 then dflt
    else if IsSpace(text[hi]) then hi
    else LastSpace(text, hi - 1, dflt)
  }

  /** EllipticalTruncate: text of at most maxLen characters comes back as it
    * is; longer text is cut at the last whitespace among its first maxLen+1
    * characters (at maxLen if there is none) and gets "...". A negative
    * maxLen stops at the first character, which Go can only slice when that
    * character is a space: the precondition excludes the panic. */
  method EllipticalTruncate(text: string, maxLen: int) returns (r: string)
    requires maxLen >= 0 || |text| == 0 || IsSpace(text[0])
    ensures var stop := if maxLen < 0 then 0 else maxLen;
            |text| <= stop ==> r == text
    ensures var stop := if maxLen < 0 then 0 else maxLen;
            |text| > stop ==>
              var cut := LastSpace(text, stop, maxLen);
              0 <= cut <= stop && r == text[..cut] + "..."
  {
    var stop := if maxLen < 0 then 0 else maxLen;
    var lastSpaceIx := maxLen;
    var ln := 0;
    var i := 0;
    while i < |text|
      invariant 0 <= i <= |text| && ln == i && i <= stop
      invariant lastSpaceIx == LastSpace(text, i - 1, maxLen)
    {
      if IsSpace(text[i]) {
        lastSpaceIx := i;
      }
      ln := ln + 1;
      if ln > maxLen {
        r := text[..lastSpaceIx] + "...";
        return;
      }
      i := i + 1;
    }
    r := text;
  }

  /** A truncated title is at most three characters longer than maxLen and
    * is a prefix of the text followed by "...". The prefix drops the word
    * that crosses the limit: it stops at the last whitespace within the first
    * maxLen+1 characters, so no whitespace lies between the cut and the
    * limit, and only text without whitespace up to the limit is cut at
    * maxLen itself. */
  lemma TruncatedShape(text: string, maxLen: nat)
    requires |text| > maxLen
    ensures var cut := LastSpace(text, maxLen, maxLen);
            var r := text[..cut] + "...";
            |r| <= maxLen + 3 && r[|r| - 3..] == "..." && r[..|r| - 3] <= text &&
            (forall j :: cut < j <= maxLen ==> !IsSpace(text[j])) &&
            (IsSpace(text[cut]) || (cut == maxLen && forall j :: 0 <= j <= maxLen ==> !IsSpace(text[j])))
  {
    var cut := LastSpace(text, maxLen, maxLen);
    var r := text[..cut] + "...";
    assert r[..|r| - 3] == text[..cut];
  }

  // ---------------------------------------------------------------------------
  // SortMapByValue

  /** `cmp` orders values as Go's sort functions require: "not less" is
    * total and transitive. */
  ghost predicate WeakOrder<V(!new)>(cmp: (V, V) -> int) {
    (forall a, b :: cmp(a, b) >= 0 || cmp(b, a) >= 0) &&
    (forall a, b, c {:trigger cmp(b, a), cmp(c, b)} :: cmp(b, a) >= 0 && cmp(c, b) >= 0 ==> cmp(c, a) >= 0)
  }

  /** The keys are in order of their values: no later value is less than an
    * earlier one. */
  ghost predicate SortedBy<K(!new), V>(m: map<K, V>, s: seq<K>, cmp: (V, V) -> int)
    requires forall k :: k in s ==> k in m
  {
    forall i, j :: 0 <= i < j < |s| ==> cmp(m[s[j]], m[s[i]]) >= 0
  }

  /** Stable insertion: `k` goes after every key whose value is not greater. */
  function Insert<K(!new), V(!new)>(m: map<K, V>, cmp: (V, V) -> int, k: K, s: seq<K>): (r: seq<K>)
    requires k in m && forall j :: j in s ==> j in m
    ensures multiset(r) == multiset(s) + multiset{k}
    ensures forall j :: j in r ==> j in m
  {
    if s == [] then [k]
    else if cmp(m[k], m[s[0]]) < 0 then [k] + s
    else
      assert s == [s[0]] + s[1..];
      [s[0]] + Insert(m, cmp, k, s[1..])
  }

  /** Every later key of a sorted sequence has a value not less than the
    * first. */
  lemma SortedHead<K(!new), V(!new)>(m: map<K, V>, cmp: (V, V) -> int, s: seq<K>)
    requires s != [] && forall j :: j in s ==> j in m
    requires SortedBy(m, s, cmp)
    ensures forall j :: j in s[1..] ==> j in m && cmp(m[j], m[s[0]]) >= 0
  {
    forall j | j in s[1..] ensures j in m && cmp(m[j], m[s[0]]) >= 0 {
      var t :| 0 <= t < |s[1..]| && s[1..][t] == j;
      assert s[t + 1] == j;
    }
  }

  /** A key whose value is not greater than any of a sorted sequence's can
    * go in front of it. */
  lemma ConsSorted<K(!new), V(!new)>(m: map<K, V>, cmp: (V, V) -> int, x: K, t: seq<K>)
    requires x in m && forall j :: j in t ==> j in m
    requires SortedBy(m, t, cmp) && forall j :: j in t ==> cmp(m[j], m[x]) >= 0
    ensures SortedBy(m, [x] + t, cmp)
  {
    var r := [x] + t;
    forall i, j | 0 <= i < j < |r| ensures cmp(m[r[j]], m[r[i]]) >= 0 {
      if i == 0 {
        assert r[j] == t[j - 1];
      } else {
        assert r[i] == t[i - 1] && r[j] == t[j - 1];
      }
    }
  }

  /** A key whose value is less than the first of a sorted sequence's is not
    * greater than any of them. */
  lemma FrontBelow<K(!new), V(!new)>(m: map<K, V>, cmp: (V, V) -> int, k: K, s: seq<K>)
    requires WeakOrder(cmp)
    requires k in m && s != [] && forall j :: j in s ==> j in m
    requires SortedBy(m, s, cmp) && cmp(m[k], m[s[0]]) < 0
    ensures forall j :: j in s ==> cmp(m[j], m[k]) >= 0
  {
    SortedHead(m, cmp, s);
    assert cmp(m[s[0]], m[k]) >= 0;
    forall j | j in s ensures cmp(m[j], m[k]) >= 0 {
      if j != s[0] {
        assert s == [s[0]] + s[1..];
        assert j in s[1..];
        assert cmp(m[j], m[s[0]]) >= 0;
      }
    }
  }

  /** What Insert puts into a sequence: the inserted key and the old keys. */
  lemma InsertMembers<K(!new), V(!new)>(m: map<K, V>, cmp: (V, V) -> int, k: K, s: seq<K>)
    requires k in m && forall j :: j in s ==> j in m
    ensures forall j :: j in Insert(m, cmp, k, s) ==> j == k || j in s
  {
    var it := Insert(m, cmp, k, s);
    forall j | j in it ensures j == k || j in s {
      assert j in multiset(it);
    }
  }

  lemma {:induction false} InsertSorted<K(!new), V(!new)>(m: map<K, V>, cmp: (V, V) -> int, k: K, s: seq<K>)
    requires WeakOrder(cmp)
    requires k in m && forall j :: j in s ==> j in m
    requires SortedBy(m, s, cmp)
    ensures SortedBy(m, Insert(m, cmp, k, s), cmp)
    decreases |s|
  {
    if s == [] {
    } else if cmp(m[k], m[s[0]]) < 0 {
      FrontBelow(m, cmp, k, s);
      ConsSorted(m, cmp, k, s);
    } else {
      var tail := s[1..];
      SortedHead(m, cmp, s);
      assert SortedBy(m, tail, cmp) by {
        forall i, j | 0 <= i < j < |tail| ensures cmp(m[tail[j]], m[tail[i]]) >= 0 {
          assert tail[i] == s[i + 1] && tail[j] == s[j + 1];
        }
      }
      InsertSorted(m, cmp, k, tail);
      InsertMembers(m, cmp, k, tail);
      ConsSorted(m, cmp, s[0], Insert(m, cmp, k, tail));
    }
  }

  /** slices.SortedStableFunc by value over the keys in the order given. */
  function SortByValue<K(!new), V(!new)>(m: map<K, V>, cmp: (V, V) -> int, keys: seq<K>): (r: seq<K>)
    requires forall k :: k in keys ==> k in m
    ensures multiset(r) == multiset(keys)
    ensures forall j :: j in r ==> j in m
    decreases |keys|
  {
    if keys == [] then []
    else
      var init := keys[..|keys| - 1];
      assert keys == init + [keys[|keys| - 1]];
      assert forall k :: k in init ==> k in keys;
      Insert(m, cmp, keys[|keys| - 1], SortByValue(m, cmp, init))
  }

  lemma {:induction false} SortByValueSorted<K(!new), V(!new)>(m: map<K, V>, cmp: (V, V) -> int, keys: seq<K>)
    requires WeakOrder(cmp) && forall k :: k in keys ==> k in m
    ensures SortedBy(m, SortByValue(m, cmp, keys), cmp)
    decreases |keys|
  {
    if keys != [] {
      var init := keys[..|keys| - 1];
      assert forall k :: k in init ==> k in keys;
      SortByValueSorted(m, cmp, init);
      InsertSorted(m, cmp, keys[|keys| - 1], SortByValue(m, cmp, init));
    }
  }

  function Reverse<T>(s: seq<T>): (r: seq<T>)
    ensures |r| == |s| && forall i :: 0 <= i < |s| ==> r[i] == s[|s| - 1 - i]
  {
    if s == [] then [] else Reverse(s[1..]) + [s[0]]
  }

  lemma ReverseMultiset<T>(s: seq<T>)
    ensures multiset(Reverse(s)) == multiset(s)
  {
    if s != [] {
      ReverseMultiset(s[1..]);
      assert s == [s[0]] + s[1..];
    }
  }

  /** SortMapByValue: the map's keys (listed once each, in Go's arbitrary map
    * order) sorted stably by value, reversed when asked. */
  function SortMapByValue<K(!new), V(!new)>(m: map<K, V>, keys: seq<K>, cmp: (V, V) -> int, reverse: bool): (r: seq<K>)
    requires forall k :: k in keys <==> k in m
    ensures multiset(r) == multiset(keys)
    ensures forall k :: k in r <==> k in m
  {
    var sorted := SortByValue(m, cmp, keys);
    ReverseMultiset(sorted);
    assert forall k :: k in sorted <==> k in multiset(sorted);
    assert forall k :: k in Reverse(sorted) <==> k in multiset(Reverse(sorted));
    if reverse then Reverse(sorted) else sorted
  }

  /** Every key is visited once, by non-decreasing value, or non-increasing
    * value when `reverse` is set. */
  lemma SortMapByValueOrder<K(!new), V(!new)>(m: map<K, V>, keys: seq<K>, cmp: (V, V) -> int, reverse: bool)
    requires forall k :: k in keys <==> k in m
    requires WeakOrder(cmp)
    ensures var r := SortMapByValue(m, keys, cmp, reverse);
            (!reverse ==> forall i, j :: 0 <= i < j < |r| ==> cmp(m[r[j]], m[r[i]]) >= 0) &&
            (reverse ==> forall i, j :: 0 <= i < j < |r| ==> cmp(m[r[i]], m[r[j]]) >= 0)
  {
    var sorted := SortByValue(m, cmp, keys);
    SortByValueSorted(m, cmp, keys);
    if reverse {
      ReverseSorted(m, cmp, sorted);
    }
  }

  /** Reversing a sorted sequence orders it by non-increasing value. */
  lemma ReverseSorted<K(!new), V(!new)>(m: map<K, V>, cmp: (V, V) -> int, s: seq<K>)
    requires (forall j :: j in s ==> j in m) && SortedBy(m, s, cmp)
    ensures var r := Reverse(s);
            forall i, j :: 0 <= i < j < |r| ==> r[i] in m && r[j] in m && cmp(m[r[i]], m[r[j]]) >= 0
  {
    var r := Reverse(s);
    forall i, j | 0 <= i < j < |r| ensures r[i] in m && r[j] in m && cmp(m[r[i]], m[r[j]]) >= 0 {
      assert r[i] == s[|s| - 1 - i] && r[j] == s[|s| - 1 - j];
    }
  }

  /** The keys the consumer is handed: in order, up to and including the
    * first one it declines. */
  function Yielded<K>(order: seq<K>, consume: K -> bool): (r: seq<K>)
    ensures r <= order
    ensures forall i :: 0 <= i < |r| - 1 ==> consume(r[i])
    ensures |r| < |order| ==> |r| > 0 && !consume(r[|r| - 1])
  {
    if order == [] then []
    else if !consume(order[0]) then [order[0]]
    else [order[0]] + Yielded(order[1..], consume)
  }
}
