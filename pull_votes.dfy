/**
 * The House roll-call vote puller: it follows the list endpoint's `pagination.next` chain,
 * keeping each vote the first time its key is seen, and gives up on the first failing response.
 */
module PullVotes {
  import opened Wrappers
  import opened Text
  import opened Json

  const ApiBase := "https://api.data.gov/congress/v3"
  const ListUrl := ApiBase + "/house/roll-call-votes"
  const MissingKey := "Missing CONGRESS_API_KEY"

  /**
   * What a run depends on besides the responses: the key, the date window, and three
   * conversions of JavaScript's own (`String(x)` on a number or array, `JSON.stringify`,
   * and the percent-encoding of a search parameter).
   */
  datatype Env = Env(apiKey: string, from: string, to: string,
                     show: Value -> string, stringify: Value -> string, encode: string -> string)

  /** `x?.k`: a field of an object, and undefined on anything else. */
  function Get(v: Option<Value>, k: string): (r: Option<Value>)
    ensures r.Some? ==> v.Some? && v.value.Obj? && k in v.value.fields
  {
    if v.Some? && v.value.Obj? && k in v.value.fields then Some(v.value.fields[k]) else None
  }

  /** A template literal's `${x}`. */
  function Interpolated(env: Env, x: Option<Value>): string {
    match x
    case None => "undefined"
    case Some(Null) => "null"
    case Some(Bool(b)) => if b then "true" else "false"
    case Some(Str(s)) => s
    case Some(Obj(_)) => "[object Object]"
    case Some(v) => env.show(v)
  }

  /** The first `n` characters, as `slice(0, n)`. */
  function Take(s: string, n: nat): (r: string)
    ensures |r| <= n && StartsWith(s, r)
    ensures |s| <= n ==> r == s
  {
    if |s| <= n then s else s[..n]
  }

  /** The de-duplication key: congress, session and roll number when the roll number is truthy. */
  function Key(env: Env, v: Value): (k: string)
    ensures !JsTruthy(Get(Some(v), "rollCallNumber")) ==> |k| <= 200 && StartsWith(env.stringify(v), k)
  {
    if JsTruthy(Get(Some(v), "rollCallNumber")) then
      Interpolated(env, Get(Some(v), "congress")) + "-" + Interpolated(env, Get(Some(v), "session")) + "-" + Interpolated(env, Get(Some(v), "rollCallNumber"))
    else Take(env.stringify(v), 200)
  }

  // ---------------------------------------------------------------- de-duplication

  /** The key of `Key` as a function value; the de-duplication below holds for any key. */
  function KeyOf(env: Env): (f: Value -> string)
    ensures forall v :: f(v) == Key(env, v)
  {
    v => Key(env, v)
  }

  /** The items kept: each one whose key no earlier item had. */
  function Dedup(key: Value -> string, xs: seq<Value>): seq<Value>
    decreases |xs|
  {
    if xs == [] then []
    else
      var kept := Dedup(key, xs[..|xs| - 1]);
      var x := xs[|xs| - 1];
      if key(x) in KeysOf(key, kept) then kept else kept + [x]
  }

  function KeysOf(key: Value -> string, xs: seq<Value>): set<string> {
    set i | 0 <= i < |xs| :: key(xs[i])
  }

  /** The index of the first item with key `k`. */
  function FirstIndex(key: Value -> string, xs: seq<Value>, k: string): (r: Option<nat>)
    ensures r.Some? ==> r.value < |xs| && key(xs[r.value]) == k
    decreases |xs|
  {
    if xs == [] then None
    else
      match FirstIndex(key, xs[..|xs| - 1], k)
      case Some(i) => Some(i)
      case None => if key(xs[|xs| - 1]) == k then Some(|xs| - 1) else None
  }

  lemma {:induction false} FirstIndexNone(key: Value -> string, xs: seq<Value>, k: string)
    ensures FirstIndex(key, xs, k).None? <==> k !in KeysOf(key, xs)
    decreases |xs|
  {
    if xs != [] {
      var init := xs[..|xs| - 1];
      FirstIndexNone(key, init, k);
      assert KeysOf(key, xs) == KeysOf(key, init) + {key(xs[|xs| - 1])} by {
        forall s | s in KeysOf(key, xs) ensures s in KeysOf(key, init) + {key(xs[|xs| - 1])} {
          var i :| 0 <= i < |xs| && key(xs[i]) == s;
          if i < |init| { assert init[i] == xs[i]; }
        }
        forall s | s in KeysOf(key, init) ensures s in KeysOf(key, xs) {
          var i :| 0 <= i < |init| && key(init[i]) == s;
          assert xs[i] == init[i];
        }
      }
    }
  }

  lemma FirstIndexSnoc(key: Value -> string, xs: seq<Value>, x: Value, k: string)
    ensures FirstIndex(key, xs + [x], k)
         == if FirstIndex(key, xs, k).Some? then FirstIndex(key, xs, k) else if key(x) == k then Some(|xs|) else None
  {
    assert (xs + [x])[..|xs|] == xs;
  }

  /** Every key occurs among the kept items, and no other. */
  lemma {:induction false} DedupKeys(key: Value -> string, xs: seq<Value>)
    ensures KeysOf(key, Dedup(key, xs)) == KeysOf(key, xs)
    decreases |xs|
  {
    if xs != [] {
      var init, x := xs[..|xs| - 1], xs[|xs| - 1];
      assert xs == init + [x];
      DedupKeys(key, init);
      KeysSnoc(key, init, x);
      if key(x) !in KeysOf(key, Dedup(key, init)) {
        KeysSnoc(key, Dedup(key, init), x);
      }
    }
  }

  /** The kept items have pairwise distinct keys. */
  lemma {:induction false} DedupDistinct(key: Value -> string, xs: seq<Value>)
    ensures forall i, j :: 0 <= i < j < |Dedup(key, xs)| ==> key(Dedup(key, xs)[i]) != key(Dedup(key, xs)[j])
    decreases |xs|
  {
    if xs != [] {
      var init, x := xs[..|xs| - 1], xs[|xs| - 1];
      var kept := Dedup(key, init);
      DedupDistinct(key, init);
      if key(x) !in KeysOf(key, kept) {
        forall j | 0 <= j < |kept| ensures key(kept[j]) != key(x) {
          assert key(kept[j]) in KeysOf(key, kept);
        }
      }
    }
  }

  /** Each kept item is the first item with its key. */
  lemma {:induction false} DedupFirst(key: Value -> string, xs: seq<Value>)
    ensures forall j :: 0 <= j < |Dedup(key, xs)| ==>
      var i := FirstIndex(key, xs, key(Dedup(key, xs)[j]));
      i.Some? && xs[i.value] == Dedup(key, xs)[j]
    decreases |xs|
  {
    if xs != [] {
      var init, x := xs[..|xs| - 1], xs[|xs| - 1];
      assert xs == init + [x];
      var kept := Dedup(key, init);
      DedupFirst(key, init);
      forall j | 0 <= j < |kept| ensures FirstIndex(key, xs, key(kept[j])) == FirstIndex(key, init, key(kept[j])) {
        FirstIndexSnoc(key, init, x, key(kept[j]));
      }
      if key(x) !in KeysOf(key, kept) {
        DedupKeys(key, init);
        FirstIndexNone(key, init, key(x));
        FirstIndexSnoc(key, init, x, key(x));
      }
    }
  }

  /** The kept items come in the order of their first occurrences. */
  lemma {:induction false} DedupOrder(key: Value -> string, xs: seq<Value>)
    ensures forall i, j :: 0 <= i < j < |Dedup(key, xs)| ==>
      var a, b := FirstIndex(key, xs, key(Dedup(key, xs)[i])), FirstIndex(key, xs, key(Dedup(key, xs)[j]));
      a.Some? && b.Some? && a.value < b.value
    decreases |xs|
  {
    if xs != [] {
      var init, x := xs[..|xs| - 1], xs[|xs| - 1];
      assert xs == init + [x];
      var kept := Dedup(key, init);
      DedupOrder(key, init);
      DedupFirst(key, init);
      forall j | 0 <= j < |kept| ensures FirstIndex(key, xs, key(kept[j])) == FirstIndex(key, init, key(kept[j])) {
        FirstIndexSnoc(key, init, x, key(kept[j]));
      }
      if key(x) !in KeysOf(key, kept) {
        DedupKeys(key, init);
        FirstIndexNone(key, init, key(x));
        FirstIndexSnoc(key, init, x, key(x));
      }
    }
  }

  lemma KeysSnoc(key: Value -> string, xs: seq<Value>, x: Value)
    ensures KeysOf(key, xs + [x]) == KeysOf(key, xs) + {key(x)}
  {
    var ys := xs + [x];
    forall s | s in KeysOf(key, ys) ensures s in KeysOf(key, xs) + {key(x)} {
      var i :| 0 <= i < |ys| && key(ys[i]) == s;
      if i < |xs| { assert ys[i] == xs[i]; }
    }
    forall s | s in KeysOf(key, xs) ensures s in KeysOf(key, ys) {
      var i :| 0 <= i < |xs| && key(xs[i]) == s;
      assert ys[i] == xs[i];
    }
    assert key(ys[|xs|]) == key(x);
  }

  /** One item of the de-duplicating loop. */
  lemma DedupStep(key: Value -> string, xs: seq<Value>, x: Value)
    ensures Dedup(key, xs + [x]) == if key(x) in KeysOf(key, Dedup(key, xs)) then Dedup(key, xs) else Dedup(key, xs) + [x]
  {
    assert (xs + [x])[..|xs|] == xs;
  }

  lemma KeepStep(key: Value -> string, pre: seq<Value>, all: seq<Value>, x: Value)
    requires all == Dedup(key, pre)
    ensures key(x) in KeysOf(key, all) ==> Dedup(key, pre + [x]) == all
    ensures key(x) !in KeysOf(key, all) ==>
      Dedup(key, pre + [x]) == all + [x] && KeysOf(key, all + [x]) == KeysOf(key, all) + {key(x)}
  {
    DedupStep(key, pre, x);
    KeysSnoc(key, all, x);
  }

  // ---------------------------------------------------------------- one response

  datatype Response = Response(ok: bool, status: int, text: string, body: Value)

  /** `json?.votes ?? json?.results ?? json?.data ?? []`, then iterated with `for ... of`. */
  function ItemsOf(body: Value): (r: Result<seq<Value>, string>)
    ensures Get(Some(body), "votes").Some? && Get(Some(body), "votes").value.Arr? ==>
      r == Success(Get(Some(body), "votes").value.items)
    ensures Get(Some(body), "votes").None? && Get(Some(body), "results").None? && Get(Some(body), "data").None? ==>
      r == Success([])
  {
    var votes, results, data := Get(Some(body), "votes"), Get(Some(body), "results"), Get(Some(body), "data");
    var chosen :=
      if votes.Some? && votes.value != Null then votes
      else if results.Some? && results.value != Null then results
      else if data.Some? && data.value != Null then data
      else None;
    match chosen
    case None => Success([])
    case Some(Arr(items)) => Success(items)
    case Some(Str(s)) => Success(seq(|s|, i requires 0 <= i < |s| => Str([s[i]])))
    case Some(_) => Failure("items is not iterable")
  }

  /** `json?.pagination?.next || null`; a truthy value that is not a string has no `includes`. */
  function NextOf(body: Value): (r: Result<Option<string>, string>)
    ensures r.Success? && r.value.Some? ==> r.value.value != ""
    ensures !JsTruthy(Get(Get(Some(body), "pagination"), "next")) ==> r == Success(None)
  {
    var next := Get(Get(Some(body), "pagination"), "next");
    if !JsTruthy(next) then Success(None)
    else if next.value.Str? then Success(Some(next.value.s))
    else Failure("url.includes is not a function")
  }

  /** The URL with `api_key` set as a search parameter. */
  function WithKey(env: Env, url: string): (r: string)
    ensures Contains(r, "api_key=")
  {
    var r := url + (if '?' in url then "&" else "?") + "api_key=" + env.encode(env.apiKey);
    ContainsAt(r, "api_key=", |url| + 1);
    r
  }

  /** The next URL: kept when it already carries `api_key=`, otherwise given the key. */
  function Keyed(env: Env, url: string): (r: string)
    ensures Contains(r, "api_key=")
    ensures Contains(url, "api_key=") ==> r == url
  {
    if Contains(url, "api_key=") then url else WithKey(env, url)
  }

  /**
   * `buildUrl()`: the list endpoint with `fromDateTime`, `toDateTime`, `format=json`,
   * `limit=250` and `api_key`, in that order.
   */
  function FirstUrl(env: Env): (r: string)
    ensures StartsWith(r, ListUrl + "?fromDateTime=" + env.encode(env.from) + "&toDateTime=")
    ensures EndsWith(r, "&format=json&limit=250&api_key=" + env.encode(env.apiKey))
    ensures Contains(r, "api_key=")
  {
    var head := ListUrl + "?fromDateTime=" + env.encode(env.from) + "&toDateTime=";
    var tail := "&format=json&limit=250&api_key=" + env.encode(env.apiKey);
    var r := head + env.encode(env.to) + tail;
    assert r[..|head|] == head;
    assert r[|r| - |tail|..] == tail;
    assert r[|r| - |tail| + 23..][..8] == "api_key=";
    ContainsAt(r, "api_key=", |r| - |tail| + 23);
    r
  }

  // ---------------------------------------------------------------- the chain

  function HttpError(status: int, url: string, text: string): string {
    "HTTP " + IntToString(status) + " on " + url + "\n" + text
  }

  function FetchFailed(url: string): string { "fetch failed: " + url }

  /** What the `k`-th request, for `url`, leads to: the end of the run, or its items and the next URL. */
  datatype Page = Stop(outcome: Result<seq<Value>, string>) | More(items: seq<Value>, next: string)

  /**
   * One turn of the `while (url)` loop; `responses[k]` answers the `k`-th request and a
   * request past the last response fails.
   */
  function PageOf(env: Env, responses: seq<Response>, k: nat, url: string): (p: Page)
    ensures p.More? ==> k < |responses| && responses[k].ok && Contains(p.next, "api_key=")
    ensures k < |responses| && !responses[k].ok ==> p == Stop(Failure(HttpError(responses[k].status, url, responses[k].text)))
    ensures k >= |responses| ==> p == Stop(Failure(FetchFailed(url)))
  {
    if k >= |responses| then Stop(Failure(FetchFailed(url)))
    else
      var res := responses[k];
      if !res.ok then Stop(Failure(HttpError(res.status, url, res.text)))
      else
        match ItemsOf(res.body)
        case Failure(e) => Stop(Failure(e))
        case Success(items) =>
          match NextOf(res.body)
          case Failure(e) => Stop(Failure(e))
          case Success(None) => Stop(Success(items))
          case Success(Some(next)) => More(items, Keyed(env, next))
  }

  /** The items of every page from the `k`-th request on, in page order, before de-duplication. */
  function Walk(env: Env, responses: seq<Response>, k: nat, url: string): (r: Result<seq<Value>, string>)
    decreases |responses| - k
  {
    match PageOf(env, responses, k, url)
    case Stop(outcome) => outcome
    case More(items, next) => Prefixed(items, Walk(env, responses, k + 1, next))
  }

  /** The URLs requested from the `k`-th request on. */
  function Requested(env: Env, responses: seq<Response>, k: nat, url: string): (r: seq<string>)
    ensures |r| >= 1 && r[0] == url
    decreases |responses| - k
  {
    match PageOf(env, responses, k, url)
    case Stop(_) => [url]
    case More(_, next) => [url] + Requested(env, responses, k + 1, next)
  }

  /** What a run gives: the de-duplicated votes, or the error it stops with. */
  function Pull(env: Env, responses: seq<Response>): (r: Result<seq<Value>, string>)
    ensures env.apiKey == "" ==> r == Failure(MissingKey)
  {
    if env.apiKey == "" then Failure(MissingKey)
    else
      match Walk(env, responses, 0, FirstUrl(env))
      case Failure(e) => Failure(e)
      case Success(xs) => Success(Dedup(KeyOf(env), xs))
  }

  /** Every request carries the key: the first by construction, the others by `Keyed`. */
  lemma {:induction false} EveryRequestKeyed(env: Env, responses: seq<Response>, k: nat, url: string)
    requires Contains(url, "api_key=")
    ensures forall u :: u in Requested(env, responses, k, url) ==> Contains(u, "api_key=")
    decreases |responses| - k
  {
    match PageOf(env, responses, k, url)
    case Stop(_) =>
    case More(_, next) =>
      EveryRequestKeyed(env, responses, k + 1, next);
  }

  /** A non-ok answer stops the run with its status and body, whatever came before. */
  lemma {:induction false} NonOkAborts(env: Env, responses: seq<Response>, k: nat, url: string)
    requires k < |responses| && !responses[k].ok
    ensures Walk(env, responses, k, url) == Failure(HttpError(responses[k].status, url, responses[k].text))
  {
  }

  function Prefixed(acc: seq<Value>, r: Result<seq<Value>, string>): Result<seq<Value>, string> {
    match r
    case Failure(e) => Failure(e)
    case Success(xs) => Success(acc + xs)
  }

  lemma PrefixedNothing(r: Result<seq<Value>, string>)
    ensures Prefixed([], r) == r
  {
    if r.Success? {
      assert [] + r.value == r.value;
    }
  }

  lemma PrefixedStep(acc: seq<Value>, items: seq<Value>, r: Result<seq<Value>, string>)
    ensures Prefixed(acc, Prefixed(items, r)) == Prefixed(acc + items, r)
  {
    if r.Success? {
      assert acc + (items + r.value) == (acc + items) + r.value;
    }
  }

  /** The inner loop: the page's items whose keys are unseen are appended, in order. */
  method KeepNew(key: Value -> string, ghost before: seq<Value>, all: seq<Value>, seen: set<string>, items: seq<Value>)
      returns (all': seq<Value>, seen': set<string>)
    requires all == Dedup(key, before) && seen == KeysOf(key, all)
    ensures all' == Dedup(key, before + items) && seen' == KeysOf(key, all')
  {
    all', seen' := all, seen;
    assert before + items[..0] == before;
    for j := 0 to |items|
      invariant all' == Dedup(key, before + items[..j]) && seen' == KeysOf(key, all')
    {
      ghost var pre := before + items[..j];
      assert before + items[..j + 1] == pre + [items[j]] by {
        assert items[..j + 1] == items[..j] + [items[j]];
      }
      KeepStep(key, pre, all', items[j]);
      var k := key(items[j]);
      if k !in seen' {
        seen' := seen' + {k};
        all' := all' + [items[j]];
      }
    }
    assert items[..|items|] == items;
  }

  /** What the run gives, once the items before the `k`-th request are known. */
  lemma PullFrom(env: Env, responses: seq<Response>, start: string, gathered: seq<Value>, k: nat, url: string)
    requires env.apiKey != "" && start == FirstUrl(env)
    requires Walk(env, responses, 0, start) == Prefixed(gathered, Walk(env, responses, k, url))
    ensures Walk(env, responses, k, url).Failure? ==> Pull(env, responses) == Failure(Walk(env, responses, k, url).error)
    ensures Walk(env, responses, k, url).Success? ==>
              Pull(env, responses) == Success(Dedup(KeyOf(env), gathered + Walk(env, responses, k, url).value))
  {
  }

  /** One request of the loop: the status check, the items and the next URL of the page. */
  method FetchPage(env: Env, responses: seq<Response>, k: nat, url: string) returns (page: Page)
    ensures page == PageOf(env, responses, k, url)
  {
    if k >= |responses| {
      return Stop(Failure(FetchFailed(url)));
    }
    var res := responses[k];
    if !res.ok {
      return Stop(Failure(HttpError(res.status, url, res.text)));
    }
    var listed := ItemsOf(res.body);
    if listed.Failure? {
      return Stop(Failure(listed.error));
    }
    var next := NextOf(res.body);
    if next.Failure? {
      return Stop(Failure(next.error));
    }
    if next.value.None? {
      return Stop(Success(listed.value));
    }
    page := More(listed.value, Keyed(env, next.value.value));
  }

  /** `fetchAllVotes` and the guard on the key before it. */
  method FetchAllVotes(env: Env, responses: seq<Response>) returns (r: Result<seq<Value>, string>, urls: seq<string>)
    ensures r == Pull(env, responses)
    ensures env.apiKey != "" ==> urls == Requested(env, responses, 0, FirstUrl(env))
  {
    if env.apiKey == "" {
      return Failure(MissingKey), [];
    }
    var url := FirstUrl(env);
    ghost var start := url;
    var all: seq<Value> := [];
    var seen: set<string> := {};
    var k := 0;
    ghost var gathered: seq<Value> := [];
    urls := [];
    PrefixedNothing(Walk(env, responses, 0, url));
    assert [] + Requested(env, responses, 0, url) == Requested(env, responses, 0, url);
    while true
      invariant Walk(env, responses, 0, start) == Prefixed(gathered, Walk(env, responses, k, url))
      invariant Requested(env, responses, 0, start) == urls + Requested(env, responses, k, url)
      invariant all == Dedup(KeyOf(env), gathered) && seen == KeysOf(KeyOf(env), all)
      decreases |responses| - k
    {
      urls := urls + [url];
      PullFrom(env, responses, start, gathered, k, url);
      var page := FetchPage(env, responses, k, url);
      if page.Stop? {
        if page.outcome.Failure? {
          return Failure(page.outcome.error), urls;
        }
        all, seen := KeepNew(KeyOf(env), gathered, all, seen, page.outcome.value);
        return Success(all), urls;
      }
      all, seen := KeepNew(KeyOf(env), gathered, all, seen, page.items);
      PrefixedStep(gathered, page.items, Walk(env, responses, k + 1, page.next));
      gathered := gathered + page.items;
      url := page.next;
      k := k + 1;
    }
  }
}
