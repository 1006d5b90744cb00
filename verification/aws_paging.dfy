/**
 * The AWS adapter's request plumbing (cloud/aws/util.go): combining filter
 * expressions, and the generic paginator that follows "next page" tokens.
 *
 * The paginator is modelled as the trace of what it does: each call to the
 * API (with the token it passes) and each value it hands to the consumer
 * (a page or an error). The API, the token reader and the consumer are
 * parameters; a fuel bound limits the number of API calls, because nothing
 * in the code stops a backend that always returns another token.
 */
module AwsPaging {
  import opened Wrappers

  // ---------------------------------------------------------------------------
  // Filters

  /** A cost explorer filter: one expression, or the conjunction of several. */
  datatype Expression<E> = Single(e: E) | And(parts: seq<E>)

  /** buildCostExplorerFilter: no filter for an empty list, the expression
    * itself for one, and their conjunction for two or more. */
  function BuildFilter<E>(filter: seq<E>): (r: Option<Expression<E>>)
    ensures r.None? <==> filter == []
    ensures |filter| == 1 ==> r == Some(Single(filter[0]))
    ensures |filter| >= 2 ==> r == Some(And(filter))
  {
    if |filter| == 0 then None
    else if |filter| == 1 then Some(Single(filter[0]))
    else Some(And(filter))
  }

  /** The expressions a filter requires, in order. */
  function Conjuncts<E>(f: Option<Expression<E>>): seq<E> {
    match f
    case None => []
    case Some(Single(e)) => [e]
    case Some(And(parts)) => parts
  }

  /** The built filter requires exactly the listed expressions. */
  lemma BuildFilterConjuncts<E>(filter: seq<E>)
    ensures Conjuncts(BuildFilter(filter)) == filter
  {
    if |filter| == 1 {
      assert filter == [filter[0]];
    }
  }

  // ---------------------------------------------------------------------------
  // The paginator

  /** What the paginator reports: the API call's failure (wrapped as "error
    * calling AWS API"), or the token reader's failure (passed on as is). */
  datatype PageError = ApiError(cause: string) | TokenError(cause: string)

  /** One step of the paginator's trace. */
  datatype Event<T> =
    | Fetch(token: Option<string>)   // a call to the API with this token (None: nil)
    | Page(page: T)                  // a page handed to the consumer
    | Error(err: PageError)          // an error handed to the consumer

  /** The pages the consumer has been given so far. */
  function PagesOf<T>(trace: seq<Event<T>>): (r: seq<T>)
    ensures |r| <= |trace|
  {
    if trace == [] then []
    else PagesOf(trace[..|trace| - 1]) + (if trace[|trace| - 1].Page? then [trace[|trace| - 1].page] else [])
  }

  /** The number of API calls in a trace. */
  function Fetches<T>(trace: seq<Event<T>>): (r: nat)
    ensures r <= |trace|
  {
    if trace == [] then 0
    else Fetches(trace[..|trace| - 1]) + (if trace[|trace| - 1].Fetch? then 1 else 0)
  }

  /** The pages delivered are exactly the trace's page events. */
  lemma {:induction false} PagesOfPages<T>(trace: seq<Event<T>>)
    ensures forall i :: 0 <= i < |PagesOf(trace)| ==> Page(PagesOf(trace)[i]) in trace
    ensures forall i :: 0 <= i < |trace| && trace[i].Page? ==> trace[i].page in PagesOf(trace)
    decreases |trace|
  {
    if trace != [] {
      var init := trace[..|trace| - 1];
      PagesOfPages(init);
      assert trace == init + [trace[|trace| - 1]];
    }
  }

  /** A trace makes no API call exactly when it holds no fetch event. */
  lemma {:induction false} FetchesZero<T>(trace: seq<Event<T>>)
    ensures Fetches(trace) == 0 <==> forall i :: 0 <= i < |trace| ==> !trace[i].Fetch?
    decreases |trace|
  {
    if trace != [] {
      var init := trace[..|trace| - 1];
      FetchesZero(init);
      assert trace == init + [trace[|trace| - 1]];
      assert forall i :: 0 <= i < |init| ==> init[i] == trace[i];
    }
  }

  /** awsAPIIterator, from the loop head on: call the API with `token`; on a
    * failure hand over one error and stop; otherwise hand over the page, stop
    * if the consumer declines, read the next token, hand over the reader's
    * error and stop if it fails, stop on an empty token, and go round with
    * the token otherwise. `delivered` are the pages the consumer has seen;
    * the consumer decides on all pages so far. */
  function Iterate<T>(fetch: Option<string> -> Result<T, string>, nextToken: T -> Result<string, string>,
                      consume: seq<T> -> bool, token: Option<string>, delivered: seq<T>, fuel: nat)
    : (r: seq<Event<T>>)
    ensures fuel > 0 ==> |r| >= 2 && r[0] == Fetch(token)
    ensures Fetches(r) <= fuel
    decreases fuel
  {
    if fuel == 0 then []
    else
      var head := [Fetch(token)];
      match fetch(token)
      case Failure(e) =>
        FetchesAppend(head, [Error(ApiError(e))]);
        head + [Error(ApiError(e))]
      case Success(data) =>
        var step := head + [Page(data)];
        FetchesAppend(head, [Page(data)]);
        if !consume(delivered + [data]) then step
        else
          match nextToken(data)
          case Failure(e) =>
            FetchesAppend(step, [Error(TokenError(e))]);
            step + [Error(TokenError(e))]
          case Success(t) =>
            if t == "" then step
            else
              var rest := Iterate(fetch, nextToken, consume, Some(t), delivered + [data], fuel - 1);
              FetchesAppend(step, rest);
              step + rest
  }

  /** The whole iteration: the first call carries no token and no page has
    * been delivered yet. */
  function Paginate<T>(fetch: Option<string> -> Result<T, string>, nextToken: T -> Result<string, string>,
                       consume: seq<T> -> bool, fuel: nat): (r: seq<Event<T>>)
    ensures fuel > 0 ==> |r| >= 2 && r[0] == Fetch(None)
  {
    Iterate(fetch, nextToken, consume, None, [], fuel)
  }

  /** The paginator as a state machine: what follows a trace, or None when the
    * iteration is over. The reference definition of the loop's protocol. */
  function Next<T>(fetch: Option<string> -> Result<T, string>, nextToken: T -> Result<string, string>,
                   consume: seq<T> -> bool, trace: seq<Event<T>>): Option<Event<T>>
  {
    if trace == [] then Some(Fetch(None))
    else
      match trace[|trace| - 1]
      case Fetch(token) =>
        (match fetch(token)
         case Failure(e) => Some(Error(ApiError(e)))
         case Success(data) => Some(Page(data)))
      case Page(data) =>
        if !consume(PagesOf(trace)) then None
        else
          (match nextToken(data)
           case Failure(e) => Some(Error(TokenError(e)))
           case Success(t) => if t == "" then None else Some(Fetch(Some(t))))
      case Error(_) => None
  }

  lemma {:induction false} FetchesAppend<T>(a: seq<Event<T>>, b: seq<Event<T>>)
    ensures Fetches(a + b) == Fetches(a) + Fetches(b)
    decreases |b|
  {
    if b != [] {
      var b' := b[..|b| - 1];
      assert (a + b)[..|a + b| - 1] == a + b';
      assert (a + b)[|a + b| - 1] == b[|b| - 1];
      FetchesAppend(a, b');
    } else {
      assert a + b == a;
    }
  }

  lemma {:induction false} PagesOfAppend<T>(a: seq<Event<T>>, b: seq<Event<T>>)
    ensures PagesOf(a + b) == PagesOf(a) + PagesOf(b)
    decreases |b|
  {
    if b != [] {
      var b' := b[..|b| - 1];
      assert (a + b)[..|a + b| - 1] == a + b';
      assert (a + b)[|a + b| - 1] == b[|b| - 1];
      PagesOfAppend(a, b');
    } else {
      assert a + b == a;
    }
  }

  /** The first round of the loop when the API answers with a page: the page
    * reaches the consumer with everything delivered before it. */
  lemma PageRound<T>(fetch: Option<string> -> Result<T, string>, nextToken: T -> Result<string, string>,
                     consume: seq<T> -> bool, before: seq<Event<T>>, token: Option<string>, data: T)
    requires fetch(token) == Success(data)
    ensures var b2 := before + [Fetch(token), Page(data)];
            PagesOf(b2) == PagesOf(before) + [data] &&
            Next(fetch, nextToken, consume, before + [Fetch(token)]) == Some(Page(data))
  {
    var pair: seq<Event<T>> := [Fetch(token), Page(data)];
    PagesOfAppend(before, pair);
    assert pair[..1] == [Fetch(token)];
    assert PagesOf(pair) == [data] by {
      assert PagesOf(pair[..1]) == [] by {
        assert pair[..1][..0] == [];
      }
    }
    var b1 := before + [Fetch(token)];
    assert b1[|b1| - 1] == Fetch(token);
  }

  lemma PrefixShift<E>(before: seq<E>, pair: seq<E>, rest: seq<E>, i: nat)
    requires |pair| == 2 <= i <= 2 + |rest|
    ensures before + (pair + rest)[..i] == (before + pair) + rest[..i - 2]
  {
    assert (pair + rest)[..i] == pair + rest[..i - 2];
  }

  /** A round that hands over a page and finds another token continues with
    * the next round. */
  lemma IterateContinues<T>(fetch: Option<string> -> Result<T, string>, nextToken: T -> Result<string, string>,
                            consume: seq<T> -> bool, token: Option<string>, delivered: seq<T>, fuel: nat,
                            data: T, t: string)
    requires fuel > 0 && fetch(token) == Success(data) && consume(delivered + [data])
    requires nextToken(data) == Success(t) && t != ""
    ensures Iterate(fetch, nextToken, consume, token, delivered, fuel)
            == [Fetch(token), Page(data)] + Iterate(fetch, nextToken, consume, Some(t), delivered + [data], fuel - 1)
  {
  }

  /** The first two steps of a round follow the state machine. */
  lemma FollowsHead<T>(fetch: Option<string> -> Result<T, string>, nextToken: T -> Result<string, string>,
                       consume: seq<T> -> bool, before: seq<Event<T>>, token: Option<string>, fuel: nat, i: nat)
    requires Next(fetch, nextToken, consume, before) == Some(Fetch(token))
    requires i < 2 && i < |Iterate(fetch, nextToken, consume, token, PagesOf(before), fuel)|
    ensures var r := Iterate(fetch, nextToken, consume, token, PagesOf(before), fuel);
            Next(fetch, nextToken, consume, before + r[..i]) == Some(r[i])
  {
    var r := Iterate(fetch, nextToken, consume, token, PagesOf(before), fuel);
    if i == 0 {
      assert before + r[..0] == before;
    } else {
      assert before + r[..1] == before + [Fetch(token)];
      var b1 := before + [Fetch(token)];
      assert b1[|b1| - 1] == Fetch(token);
    }
  }

  /** The third step of a round that does not go on is the token reader's
    * error, as the state machine prescribes. */
  lemma FollowsTokenError<T>(fetch: Option<string> -> Result<T, string>, nextToken: T -> Result<string, string>,
                             consume: seq<T> -> bool, before: seq<Event<T>>, token: Option<string>, fuel: nat,
                             data: T)
    requires fetch(token) == Success(data)
    requires 2 < |Iterate(fetch, nextToken, consume, token, PagesOf(before), fuel)|
    requires !(consume(PagesOf(before) + [data]) && nextToken(data).Success? && nextToken(data).value != "")
    ensures var r := Iterate(fetch, nextToken, consume, token, PagesOf(before), fuel);
            Next(fetch, nextToken, consume, before + r[..2]) == Some(r[2])
  {
    var r := Iterate(fetch, nextToken, consume, token, PagesOf(before), fuel);
    PageRound(fetch, nextToken, consume, before, token, data);
    var b2 := before + [Fetch(token), Page(data)];
    assert b2[|b2| - 1] == Page(data);
    assert before + r[..2] == b2;
  }

  /** Every step of the loop is the step the state machine prescribes after
    * what came before. */
  lemma {:induction false} IterateFollowsNext<T>(fetch: Option<string> -> Result<T, string>,
                                                 nextToken: T -> Result<string, string>, consume: seq<T> -> bool,
                                                 before: seq<Event<T>>, token: Option<string>, fuel: nat, i: nat)
    requires Next(fetch, nextToken, consume, before) == Some(Fetch(token))
    requires i < |Iterate(fetch, nextToken, consume, token, PagesOf(before), fuel)|
    ensures var r := Iterate(fetch, nextToken, consume, token, PagesOf(before), fuel);
            Next(fetch, nextToken, consume, before + r[..i]) == Some(r[i])
    decreases fuel
  {
    if i < 2 {
      FollowsHead(fetch, nextToken, consume, before, token, fuel, i);
    } else {
      var data := fetch(token).value;
      if consume(PagesOf(before) + [data]) && nextToken(data).Success? && nextToken(data).value != "" {
        var t := nextToken(data).value;
        var b2 := before + [Fetch(token), Page(data)];
        PageRound(fetch, nextToken, consume, before, token, data);
        assert b2[|b2| - 1] == Page(data);
        IterateContinues(fetch, nextToken, consume, token, PagesOf(before), fuel, data, t);
        var rest := Iterate(fetch, nextToken, consume, Some(t), PagesOf(b2), fuel - 1);
        PrefixShift(before, [Fetch(token), Page(data)], rest, i);
        IterateFollowsNext(fetch, nextToken, consume, b2, Some(t), fuel - 1, i - 2);
      } else {
        FollowsTokenError(fetch, nextToken, consume, before, token, fuel, data);
      }
    }
  }

  /** A round that does not go on leaves a trace after which the state
    * machine has nothing more to do. */
  lemma StopsInRound<T>(fetch: Option<string> -> Result<T, string>, nextToken: T -> Result<string, string>,
                        consume: seq<T> -> bool, before: seq<Event<T>>, token: Option<string>, fuel: nat)
    requires fuel > 0
    requires fetch(token).Success? ==>
               !(consume(PagesOf(before) + [fetch(token).value]) && nextToken(fetch(token).value).Success? &&
                 nextToken(fetch(token).value).value != "")
    ensures Next(fetch, nextToken, consume, before + Iterate(fetch, nextToken, consume, token, PagesOf(before), fuel))
            == None
  {
    var r := Iterate(fetch, nextToken, consume, token, PagesOf(before), fuel);
    match fetch(token)
    case Failure(e) =>
      var b := before + r;
      assert b[|b| - 1] == Error(ApiError(e));
    case Success(data) =>
      PageRound(fetch, nextToken, consume, before, token, data);
      var b2 := before + [Fetch(token), Page(data)];
      assert b2[|b2| - 1] == Page(data);
      if consume(PagesOf(before) + [data]) && nextToken(data).Failure? {
        var b := before + r;
        assert b[|b| - 1] == Error(TokenError(nextToken(data).error));
      } else {
        assert before + r == b2;
      }
  }

  /** How a round that goes on composes with the rest of the loop: the trace
    * grows by the call and the page, one call is counted, and the state
    * machine asks for the next token. */
  lemma ContinueShape<T>(fetch: Option<string> -> Result<T, string>, nextToken: T -> Result<string, string>,
                         consume: seq<T> -> bool, before: seq<Event<T>>, token: Option<string>, fuel: nat,
                         data: T, t: string)
    requires fuel > 0 && fetch(token) == Success(data) && consume(PagesOf(before) + [data])
    requires nextToken(data) == Success(t) && t != ""
    ensures var b2 := before + [Fetch(token), Page(data)];
            var r := Iterate(fetch, nextToken, consume, token, PagesOf(before), fuel);
            var rest := Iterate(fetch, nextToken, consume, Some(t), PagesOf(b2), fuel - 1);
            before + r == b2 + rest && Fetches(r) == Fetches(rest) + 1 &&
            Next(fetch, nextToken, consume, b2) == Some(Fetch(Some(t)))
  {
    var b2 := before + [Fetch(token), Page(data)];
    PageRound(fetch, nextToken, consume, before, token, data);
    assert b2[|b2| - 1] == Page(data);
    IterateContinues(fetch, nextToken, consume, token, PagesOf(before), fuel, data, t);
    var rest := Iterate(fetch, nextToken, consume, Some(t), PagesOf(b2), fuel - 1);
    var one: seq<Event<T>> := [Fetch(token)];
    assert before + (one + [Page(data)] + rest) == b2 + rest;
    FetchesAppend(one + [Page(data)], rest);
    FetchesAppend(one, [Page(data)]);
    FetchesAppend([], one);
    assert [] + one == one;
  }

  /** Unless the fuel ran out, the loop stops exactly where the state machine
    * says the iteration is over. */
  lemma {:induction false} IterateStopsWithNext<T>(fetch: Option<string> -> Result<T, string>,
                                                   nextToken: T -> Result<string, string>, consume: seq<T> -> bool,
                                                   before: seq<Event<T>>, token: Option<string>, fuel: nat)
    requires Next(fetch, nextToken, consume, before) == Some(Fetch(token))
    ensures var r := Iterate(fetch, nextToken, consume, token, PagesOf(before), fuel);
            Fetches(r) < fuel ==> Next(fetch, nextToken, consume, before + r) == None
    decreases fuel
  {
    if fuel > 0 {
      if fetch(token).Success? && consume(PagesOf(before) + [fetch(token).value]) &&
         nextToken(fetch(token).value).Success? && nextToken(fetch(token).value).value != "" {
        var data := fetch(token).value;
        var t := nextToken(data).value;
        ContinueShape(fetch, nextToken, consume, before, token, fuel, data, t);
        IterateStopsWithNext(fetch, nextToken, consume, before + [Fetch(token), Page(data)], Some(t), fuel - 1);
      } else {
        StopsInRound(fetch, nextToken, consume, before, token, fuel);
      }
    }
  }

  /** The whole iteration follows the state machine from an empty trace. */
  lemma PaginateFollowsNext<T>(fetch: Option<string> -> Result<T, string>, nextToken: T -> Result<string, string>,
                               consume: seq<T> -> bool, fuel: nat)
    ensures var r := Paginate(fetch, nextToken, consume, fuel);
            forall i :: 0 <= i < |r| ==> Next(fetch, nextToken, consume, r[..i]) == Some(r[i])
    ensures var r := Paginate(fetch, nextToken, consume, fuel);
            Fetches(r) < fuel ==> Next(fetch, nextToken, consume, r) == None
  {
    var r := Paginate(fetch, nextToken, consume, fuel);
    var none: seq<Event<T>> := [];
    forall i | 0 <= i < |r|
      ensures Next(fetch, nextToken, consume, r[..i]) == Some(r[i])
    {
      IterateFollowsNext(fetch, nextToken, consume, none, None, fuel, i);
      assert none + r[..i] == r[..i];
    }
    IterateStopsWithNext(fetch, nextToken, consume, none, None, fuel);
    assert none + r == r;
  }

  /** An error is the last thing the paginator does: no call and no page
    * follows it. */
  lemma ErrorIsLast<T>(fetch: Option<string> -> Result<T, string>, nextToken: T -> Result<string, string>,
                       consume: seq<T> -> bool, fuel: nat, i: nat)
    requires var r := Paginate(fetch, nextToken, consume, fuel); i < |r| && r[i].Error?
    ensures i == |Paginate(fetch, nextToken, consume, fuel)| - 1
  {
    var r := Paginate(fetch, nextToken, consume, fuel);
    PaginateFollowsNext(fetch, nextToken, consume, fuel);
    var b := r[..i + 1];
    assert b[|b| - 1] == r[i];
    assert Next(fetch, nextToken, consume, b) == None;
  }

  /** A page the consumer declines is the last thing the paginator does. */
  lemma DeclinedPageIsLast<T>(fetch: Option<string> -> Result<T, string>, nextToken: T -> Result<string, string>,
                              consume: seq<T> -> bool, fuel: nat, i: nat)
    requires var r := Paginate(fetch, nextToken, consume, fuel);
             i < |r| && r[i].Page? && !consume(PagesOf(r[..i + 1]))
    ensures i == |Paginate(fetch, nextToken, consume, fuel)| - 1
  {
    var r := Paginate(fetch, nextToken, consume, fuel);
    PaginateFollowsNext(fetch, nextToken, consume, fuel);
    var b := r[..i + 1];
    assert b[|b| - 1] == r[i];
    assert Next(fetch, nextToken, consume, b) == None;
  }

  // ---------------------------------------------------------------------------
  // The input-struct adapter

  /** An API input struct: its fixed request fields and its token field. */
  datatype Input<B> = Input(body: B, nextToken: Option<string>)

  /** awsAPIIteratorInput: before every call the current token (nil on the
    * first) is written into the one shared input, and the API is called with
    * that input. */
  function InputFetch<B, T>(input: Input<B>, call: Input<B> -> Result<T, string>): (f: Option<string> -> Result<T, string>)
    ensures forall token :: f(token) == call(Input(input.body, token))
  {
    token => call(input.(nextToken := token))
  }

  /** Through the adapter, the first call sees the caller's request with no
    * token, and every later call sees it with the token the previous page
    * named. */
  lemma InputCalls<B, T>(input: Input<B>, call: Input<B> -> Result<T, string>, nextToken: T -> Result<string, string>,
                         consume: seq<T> -> bool, fuel: nat)
    ensures var r := Paginate(InputFetch(input, call), nextToken, consume, fuel);
            fuel > 0 ==> (r[0] == Fetch(None) &&
              r[1] == (match call(Input(input.body, None))
                       case Failure(e) => Error(ApiError(e))
                       case Success(d) => Page(d)))
  {
  }
}
