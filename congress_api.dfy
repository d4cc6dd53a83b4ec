/**
 * The Congress.gov list loop shared by the member, bill and record fetchers: request a URL,
 * keep the page's items, and follow `pagination.next` until it is missing or empty. The
 * first request carries the query parameters; the next URLs already hold them, so later
 * requests carry none. Every request sends the API key header.
 */
module CongressApi {
  import opened Wrappers
  import opened Text

  const ApiUrl: string := "https://api.congress.gov/v3"

  /**
   * A response: the list under the endpoint's two keys (None when either key is missing) and
   * `pagination.next` (None when missing).
   */
  datatype ApiPage<R> = ApiPage(listed: Option<seq<R>>, next: Option<string>)

  /** A request as made: URL, query parameters (None after the first) and the `X-Api-Key` header. */
  datatype Call = Call(url: string, params: Option<map<string, string>>, apiKey: string)

  /** `while url:` goes on only for a present, non-empty next URL. */
  predicate HasNext<R>(p: ApiPage<R>) {
    p.next.Some? && p.next.value != ""
  }

  /** The first request's parameters: format and limit, plus `fromDateTime` only for a non-empty date. */
  function FirstParams(limit: int, fromDate: Option<string>): (m: map<string, string>)
    ensures "format" in m && m["format"] == "json"
    ensures "limit" in m && m["limit"] == IntToString(limit)
    ensures "fromDateTime" in m <==> fromDate.Some? && fromDate.value != ""
    ensures "fromDateTime" in m ==> m["fromDateTime"] == fromDate.value
    ensures m.Keys <= {"format", "limit", "fromDateTime"}
  {
    var base := map["format" := "json", "limit" := IntToString(limit)];
    if fromDate.Some? && fromDate.value != "" then base["fromDateTime" := fromDate.value] else base
  }

  /**
   * The items of response `k` and of every response reached from it by next URLs; the `k`-th
   * request is answered by `responses[k]`, and a request past the responses fails.
   */
  function Follow<R>(responses: seq<ApiPage<R>>, k: nat, url: string): Result<seq<R>, string>
    decreases |responses| - k
  {
    if k >= |responses| then Failure("Request failed: " + url)
    else
      var here := responses[k].listed.GetOr([]);
      if !HasNext(responses[k]) then Success(here)
      else match Follow(responses, k + 1, responses[k].next.value)
        case Failure(e) => Failure(e)
        case Success(rest) => Success(here + rest)
  }

  /** The requests made from the `k`-th on, the `k`-th going to `url` with `params`. */
  function CallsFrom<R>(responses: seq<ApiPage<R>>, k: nat, url: string, params: Option<map<string, string>>, key: string)
    : (calls: seq<Call>)
    ensures |calls| >= 1 && calls[0] == Call(url, params, key)
    ensures forall i :: 0 <= i < |calls| ==> calls[i].apiKey == key
    ensures forall i :: 1 <= i < |calls| ==> calls[i].params.None?
    decreases |responses| - k
  {
    if k >= |responses| || !HasNext(responses[k]) then [Call(url, params, key)]
    else [Call(url, params, key)] + CallsFrom(responses, k + 1, responses[k].next.value, None, key)
  }

  /** The loop itself: items are extended page by page, and the URL and parameters are reassigned. */
  method FollowNext<R>(url0: string, params0: map<string, string>, key: string, responses: seq<ApiPage<R>>)
    returns (items: Result<seq<R>, string>, calls: seq<Call>)
    requires url0 != ""
    ensures items == Follow(responses, 0, url0)
    ensures calls == CallsFrom(responses, 0, url0, Some(params0), key)
  {
    var url := url0;
    var params: Option<map<string, string>> := Some(params0);
    var gathered: seq<R> := [];
    var k: nat := 0;
    calls := [];
    PrefixedNothing(Follow(responses, 0, url0));
    assert CallsFrom(responses, 0, url0, Some(params0), key) == [] + CallsFrom(responses, 0, url0, Some(params0), key);
    while url != ""
      invariant k == 0 ==> url == url0 && params == Some(params0) && calls == [] && gathered == []
      invariant k > 0 ==> params.None?
      invariant k > 0 && url != "" ==> k <= |responses| && HasNext(responses[k - 1]) && url == responses[k - 1].next.value
      invariant k > 0 && url == "" ==> k <= |responses| && !HasNext(responses[k - 1])
      invariant url != "" ==> Follow(responses, 0, url0) == Prefixed(gathered, Follow(responses, k, url))
      invariant url != "" ==> CallsFrom(responses, 0, url0, Some(params0), key) == calls + CallsFrom(responses, k, url, params, key)
      invariant url == "" ==> Follow(responses, 0, url0) == Success(gathered)
      invariant url == "" ==> CallsFrom(responses, 0, url0, Some(params0), key) == calls
      decreases |responses| - k, if url == "" then 0 else 1
    {
      calls := calls + [Call(url, params, key)];
      if k >= |responses| {
        items := Failure("Request failed: " + url);
        return;
      }
      var data := responses[k];
      ghost var before := gathered;
      gathered := gathered + data.listed.GetOr([]);
      if HasNext(data) {
        PrefixedStep(before, data.listed.GetOr([]), Follow(responses, k + 1, data.next.value));
        url := data.next.value;
      } else {
        url := "";
      }
      params := None;
      k := k + 1;
    }
    items := Success(gathered);
  }

  function Prefixed<R>(done: seq<R>, rest: Result<seq<R>, string>): Result<seq<R>, string> {
    match rest
    case Failure(e) => Failure(e)
    case Success(more) => Success(done + more)
  }

  lemma PrefixedNothing<R>(rest: Result<seq<R>, string>)
    ensures Prefixed([], rest) == rest
  {
    if rest.Success? {
      assert [] + rest.value == rest.value;
    }
  }

  lemma PrefixedStep<R>(done: seq<R>, here: seq<R>, rest: Result<seq<R>, string>)
    ensures Prefixed(done, Prefixed(here, rest)) == Prefixed(done + here, rest)
  {
    if rest.Success? {
      assert done + (here + rest.value) == (done + here) + rest.value;
    }
  }

  /** The items of responses `k..n-1`, concatenated in order. */
  function Listed<R>(responses: seq<ApiPage<R>>, k: nat, n: nat): seq<R>
    requires k <= n <= |responses|
    decreases n - k
  {
    if k == n then [] else responses[k].listed.GetOr([]) + Listed(responses, k + 1, n)
  }

  /**
   * A chain of responses `0..n-1` where each has a next URL except the last: the result is the
   * concatenation of all their items, in page order, after exactly `n` requests.
   */
  lemma {:induction false} Chain<R>(responses: seq<ApiPage<R>>, n: nat, k: nat, url: string, params: Option<map<string, string>>, key: string)
    requires k < n <= |responses|
    requires forall i :: k <= i < n - 1 ==> HasNext(responses[i])
    requires !HasNext(responses[n - 1])
    ensures Follow(responses, k, url) == Success(Listed(responses, k, n))
    ensures |CallsFrom(responses, k, url, params, key)| == n - k
    decreases n - k
  {
    if k < n - 1 {
      Chain(responses, n, k + 1, responses[k].next.value, None, key);
    } else {
      assert Listed(responses, k + 1, n) == [];
      assert responses[k].listed.GetOr([]) + [] == responses[k].listed.GetOr([]);
    }
  }

  /** A fetch that fails names the URL of its last request, the one that got no answer. */
  lemma {:induction false} FailureNamesLastCall<R>(responses: seq<ApiPage<R>>, k: nat, url: string, params: Option<map<string, string>>, key: string)
    ensures var calls := CallsFrom(responses, k, url, params, key);
      Follow(responses, k, url).Failure? ==>
        Follow(responses, k, url).error == "Request failed: " + calls[|calls| - 1].url
    decreases |responses| - k
  {
    if k < |responses| && HasNext(responses[k]) {
      FailureNamesLastCall(responses, k + 1, responses[k].next.value, None, key);
    }
  }

  /** The fetch fails exactly when the next URLs lead past the responses there are. */
  lemma {:induction false} FailsIffUnanswered<R>(responses: seq<ApiPage<R>>, k: nat, url: string, params: Option<map<string, string>>, key: string)
    ensures Follow(responses, k, url).Failure? <==> k + |CallsFrom(responses, k, url, params, key)| > |responses|
    decreases |responses| - k
  {
    if k < |responses| && HasNext(responses[k]) {
      FailsIffUnanswered(responses, k + 1, responses[k].next.value, None, key);
    }
  }
}
