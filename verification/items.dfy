/**
 * Rows of the cost table (item.go): an item is the list of its group keys plus
 * one cost per queried period, and the key hash decides which backend records
 * land in the same row.
 */
module Items {
  import opened Text

  /** The dynamic value of a key: a string (the usual case) or any other Go
    * value (an `ItemValue`, a `ValueOutput`), which searching never looks at. */
  datatype KeyValue = StringValue(s: string) | OtherValue(kind: string)

  /** One dimension of an item, like id "SERVICE" with value "EC2". */
  datatype ItemKey = ItemKey(id: string, value: KeyValue)

  datatype Item = Item(keys: seq<ItemKey>, values: seq<real>)

  function Zeros(n: nat): (r: seq<real>)
    ensures |r| == n && forall i :: 0 <= i < n ==> r[i] == 0.0
  {
    if n == 0 then [] else Zeros(n - 1) + [0.0]
  }

  /** NewItem: the keys as given and one zero cost per period; a negative
    * count is an empty range in Go and gives no columns. */
  function NewItem(keys: seq<ItemKey>, periods: int): (r: Item)
    ensures r.keys == keys
    ensures |r.values| == if periods > 0 then periods else 0
    ensures forall i :: 0 <= i < |r.values| ==> r.values[i] == 0.0
  {
    Item(keys, Zeros(if periods > 0 then periods else 0))
  }

  /** Whether key `k` is a string whose lower-cased text contains `needle`. */
  predicate KeyMatches(k: ItemKey, needle: string) {
    k.value.StringValue? && Contains(ToLower(k.value.s), needle)
  }

  function SearchKeys(keys: seq<ItemKey>, needle: string): (r: bool)
    ensures r <==> exists i :: 0 <= i < |keys| && KeyMatches(keys[i], needle)
  {
    if keys == [] then false
    else if KeyMatches(keys[0], needle) then true
    else
      var r := SearchKeys(keys[1..], needle);
      assert r ==> exists i :: 0 <= i < |keys| && KeyMatches(keys[i], needle) by {
        if r {
          var i :| 0 <= i < |keys[1..]| && KeyMatches(keys[1..][i], needle);
          assert keys[i + 1] == keys[1..][i];
        }
      }
      r
  }

  /** Item.Search: a case-insensitive substring test over the string-valued
    * keys only. */
  function Search(item: Item, search: string): (r: bool)
    ensures r <==> exists i :: 0 <= i < |item.keys| && item.keys[i].value.StringValue? &&
                     IsSubstring(ToLower(search), ToLower(item.keys[i].value.s))
  {
    LowerIdempotent(search);
    SearchKeys(item.keys, ToLower(ToLower(search)))
  }

  /** The search ignores the case of the search string. */
  lemma SearchCaseInsensitive(item: Item, search: string)
    ensures Search(item, ToUpper(search)) == Search(item, search)
  {
    LowerIdempotent(search);
  }

  /** An empty search matches exactly the items with a string-valued key. */
  lemma SearchEmpty(item: Item)
    ensures Search(item, "") <==> exists i :: 0 <= i < |item.keys| && item.keys[i].value.StringValue?
  {
    if exists i :: 0 <= i < |item.keys| && item.keys[i].value.StringValue? {
      var i :| 0 <= i < |item.keys| && item.keys[i].value.StringValue?;
      assert OccursAt("", ToLower(item.keys[i].value.s), 0);
    }
  }

  /** An item with no string-valued key never matches any search. */
  lemma SearchNoStrings(item: Item, search: string)
    requires forall i :: 0 <= i < |item.keys| ==> !item.keys[i].value.StringValue?
    ensures !Search(item, search)
  {
  }

  /** The ids of the keys, in order. */
  function KeyIds(keys: seq<ItemKey>): (r: seq<string>)
    ensures |r| == |keys| && forall i :: 0 <= i < |keys| ==> r[i] == keys[i].id
  {
    seq(|keys|, i requires 0 <= i < |keys| => keys[i].id)
  }

  /** DefaultItemKeysHash: the digest (`md5`, hex-encoded MD5 in the program) of
    * the key ids joined with "-". */
  function DefaultItemKeysHash(md5: string -> string, keys: seq<ItemKey>): string {
    md5(Join(KeyIds(keys), "-"))
  }

  /** Only the ids take part in row identity: keys that differ only in value
    * hash identically. */
  lemma KeysHashIdsOnly(md5: string -> string, a: seq<ItemKey>, b: seq<ItemKey>)
    requires |a| == |b| && forall i :: 0 <= i < |a| ==> a[i].id == b[i].id
    ensures DefaultItemKeysHash(md5, a) == DefaultItemKeysHash(md5, b)
  {
    assert KeyIds(a) == KeyIds(b);
  }

  /** The join is ambiguous: one id "x-y" and the two ids "x", "y" collide,
    * whatever digest is used. */
  lemma KeysHashJoinCollision(md5: string -> string, x: string, y: string, v: KeyValue)
    ensures DefaultItemKeysHash(md5, [ItemKey(x + "-" + y, v)]) ==
            DefaultItemKeysHash(md5, [ItemKey(x, v), ItemKey(y, v)])
  {
    assert KeyIds([ItemKey(x + "-" + y, v)]) == [x + "-" + y];
    assert KeyIds([ItemKey(x, v), ItemKey(y, v)]) == [x, y];
    assert [x, y][1..] == [y];
    assert Join([x, y], "-") == x + "-" + Join([y], "-");
  }
}
