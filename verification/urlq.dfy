/**
 * The URL query builder (urlq.go): a path and a map of query parameters,
 * edited through small map operations. The builder is a value here; the Go
 * methods mutate the receiver and return it, which is the same as returning
 * the edited value. The percent-encoding of `String` is a parameter.
 */
module UrlQuery {

  datatype URLQuery = URLQuery(path: string, params: map<string, string>)

  /** NewURLQuery: the path and no parameters. */
  function NewURLQuery(path: string): (r: URLQuery)
    ensures r.path == path && |r.params| == 0
  {
    URLQuery(path, map[])
  }

  /** Clone: a copy with its own parameter map. As values cannot be shared,
    * editing the copy never shows in the original. */
  function Clone(q: URLQuery): (r: URLQuery)
    ensures r.path == q.path && r.params.Keys == q.params.Keys
    ensures forall k :: k in q.params ==> r.params[k] == q.params[k]
  {
    URLQuery(q.path, q.params)
  }

  function SetPath(q: URLQuery, path: string): (r: URLQuery)
    ensures r.path == path && r.params == q.params
  {
    q.(path := path)
  }

  /** Get: the value of a parameter, "" when it is absent. */
  function Get(q: URLQuery, key: string): (r: string)
    ensures key !in q.params ==> r == ""
    ensures key in q.params ==> r == q.params[key]
  {
    if key in q.params then q.params[key] else ""
  }

  /** Set: the parameter gets the value, and nothing else changes. */
  function Set(q: URLQuery, key: string, value: string): (r: URLQuery)
    ensures r.path == q.path && r.params.Keys == q.params.Keys + {key}
    ensures Get(r, key) == value
    ensures forall k :: k != key ==> Get(r, k) == Get(q, k) && (k in r.params <==> k in q.params)
  {
    q.(params := q.params[key := value])
  }

  /** url.Values.Get: the first value given for a key, or "". */
  function ValuesGet(query: map<string, seq<string>>, key: string): (r: string)
    ensures r != "" ==> key in query && |query[key]| > 0 && r == query[key][0]
  {
    if key in query && |query[key]| > 0 then query[key][0] else ""
  }

  /** SetFromQuery: each listed key gets the request's value for it, even
    * when the request does not carry it (then the value is ""). */
  function SetFromQuery(q: URLQuery, query: map<string, seq<string>>, keys: seq<string>): (r: URLQuery)
    ensures r.path == q.path
    ensures r.params.Keys == q.params.Keys + set k | k in keys
    ensures forall k :: k in keys ==> Get(r, k) == ValuesGet(query, k)
    ensures forall k :: k !in keys ==> Get(r, k) == Get(q, k)
    decreases |keys|
  {
    if keys == [] then q
    else
      assert forall k :: k in keys[1..] ==> k in keys;
      assert keys == [keys[0]] + keys[1..];
      SetFromQuery(Set(q, keys[0], ValuesGet(query, keys[0])), query, keys[1..])
  }

  /** Copy: when `from` is present, `to` gets its value; otherwise nothing
    * changes. `from` is kept either way. */
  function Copy(q: URLQuery, from: string, to: string): (r: URLQuery)
    ensures from !in q.params ==> r == q
    ensures from in q.params ==> r.params.Keys == q.params.Keys + {to} && Get(r, to) == Get(q, from) &&
                                 Get(r, from) == Get(q, from)
    ensures forall k :: k != to ==> Get(r, k) == Get(q, k)
    ensures r.path == q.path
  {
    if from in q.params then Set(q, to, q.params[from]) else q
  }

  /** Move: like Copy, but `from` is then deleted whether or not it was
    * present, so moving a key onto itself removes it. */
  function Move(q: URLQuery, from: string, to: string): (r: URLQuery)
    ensures from !in r.params && r.path == q.path
    ensures from in q.params && to != from ==> to in r.params && Get(r, to) == Get(q, from)
    ensures from !in q.params ==> r.params == q.params
    ensures forall k :: k != to && k != from ==> Get(r, k) == Get(q, k) && (k in r.params <==> k in q.params)
  {
    var copied := if from in q.params then q.params[to := q.params[from]] else q.params;
    URLQuery(q.path, copied - {from})
  }

  /** Moving a key onto itself deletes it. */
  lemma MoveSelfRemoves(q: URLQuery, key: string)
    ensures Move(q, key, key) == Remove(q, [key])
  {
    assert (set k | k in [key]) == {key};
  }

  /** Swap: the two values are exchanged when both keys are present;
    * otherwise nothing changes. */
  function Swap(q: URLQuery, key1: string, key2: string): (r: URLQuery)
    ensures key1 !in q.params || key2 !in q.params ==> r == q
    ensures key1 in q.params && key2 in q.params ==>
              r.params.Keys == q.params.Keys && Get(r, key1) == Get(q, key2) && Get(r, key2) == Get(q, key1)
    ensures forall k :: k != key1 && k != key2 ==> Get(r, k) == Get(q, k)
    ensures r.path == q.path
  {
    if key1 !in q.params || key2 !in q.params then q
    else
      var v1 := q.params[key1];
      var v2 := q.params[key2];
      URLQuery(q.path, q.params[key1 := v2][key2 := v1])
  }

  /** Swapping the same keys twice gives back the original query. */
  lemma SwapTwice(q: URLQuery, key1: string, key2: string)
    ensures Swap(Swap(q, key1, key2), key1, key2) == q
  {
    if key1 in q.params && key2 in q.params {
      var r := Swap(Swap(q, key1, key2), key1, key2);
      assert r.params.Keys == q.params.Keys;
      assert forall k :: k in q.params ==> r.params[k] == q.params[k];
    }
  }

  /** Remove: exactly the listed keys are deleted. */
  function Remove(q: URLQuery, keys: seq<string>): (r: URLQuery)
    ensures r.path == q.path
    ensures r.params.Keys == q.params.Keys - set k | k in keys
    ensures forall k :: k in r.params ==> r.params[k] == q.params[k]
    decreases |keys|
  {
    if keys == [] then q
    else
      assert keys == [keys[0]] + keys[1..];
      Remove(URLQuery(q.path, q.params - {keys[0]}), keys[1..])
  }

  /** Params: the parameters with a non-empty value, in no fixed order; the
    * early stop of the Go iterator is the caller's business. */
  function Params(q: URLQuery): (r: map<string, string>)
    ensures forall k :: k in r <==> Get(q, k) != ""
    ensures forall k :: k in r ==> r[k] == Get(q, k)
  {
    map k | k in q.params && q.params[k] != "" :: q.params[k]
  }

  /** Setting a parameter to "" hides it from Params and from the URL. */
  lemma SetEmptyHides(q: URLQuery, key: string)
    ensures Params(Set(q, key, "")) == Params(Remove(q, [key]))
  {
    assert (set k | k in [key]) == {key};
    var a := Params(Set(q, key, ""));
    var b := Params(Remove(q, [key]));
    assert a.Keys == b.Keys;
  }

  /** String: the path, "?", and the encoded non-empty parameters; with no
    * parameters at all, just the path and "?". */
  function String(q: URLQuery, encode: map<string, string> -> string): (r: string)
    ensures |q.params| == 0 ==> r == q.path + "?"
    ensures |q.params| > 0 ==> r == q.path + "?" + encode(Params(q))
  {
    if |q.params| == 0 then q.path + "?"
    else q.path + "?" + encode(Params(q))
  }

  /** The two branches of String agree whenever the encoding of no values is
    * empty (as Go's is): the URL depends on the non-empty parameters only. */
  lemma StringDependsOnParams(q: URLQuery, q': URLQuery, encode: map<string, string> -> string)
    requires encode(map[]) == ""
    requires q.path == q'.path && Params(q) == Params(q')
    ensures String(q, encode) == String(q', encode)
  {
    if |q.params| == 0 {
      assert Params(q) == map[];
    }
    if |q'.params| == 0 {
      assert Params(q') == map[];
    }
  }
}
