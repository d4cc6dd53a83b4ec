/**
 * The bill-exploration script: bills are requested page by page from the Congress.gov `bill`
 * endpoint with the API key in the query string, reduced to a compact summary and yielded one
 * by one; the main entry point collects them with 20 bills per page.
 */
module PullBills {
  import opened Wrappers
  import opened Text

  const Base: string := "https://api.congress.gov/v3/bill"

  /** `latestAction`; an empty object has neither field. */
  datatype Action = Action(text: Option<string>, actionDate: Option<string>)

  /** A bill as listed; `latestAction` is None when missing or null. */
  datatype RawBill = RawBill(congress: Option<int>, number: Option<string>, title: Option<string>, latestAction: Option<Action>)

  datatype BillSummary = BillSummary(congress: Option<int>, number: Option<string>, title: Option<string>,
                                     action: Option<string>, date: Option<string>)

  /** A response: its HTTP status, the `bills` list (None when missing) and `pagination.next`. */
  datatype HttpPage = HttpPage(status: int, bills: Option<seq<RawBill>>, next: Option<string>)

  /** Why the generator stopped early: a request with no answer, or an error status. */
  datatype Stop = NoAnswer(url: string) | HttpError(status: int)

  /** What the generator produced: the summaries yielded, how it stopped, and the URLs requested. */
  datatype Pulled = Pulled(bills: seq<BillSummary>, stopped: Option<Stop>, urls: seq<string>)

  function Summarise(b: RawBill): (s: BillSummary)
    ensures s.congress == b.congress && s.number == b.number && s.title == b.title
    ensures b.latestAction.None? ==> s.action.None? && s.date.None?
    ensures b.latestAction.Some? ==> s.action == b.latestAction.value.text && s.date == b.latestAction.value.actionDate
  {
    var action := b.latestAction.GetOr(Action(None, None));
    BillSummary(b.congress, b.number, b.title, action.text, action.actionDate)
  }

  /** `raise_for_status` raises for client and server errors. */
  predicate IsError(status: int) {
    400 <= status < 600
  }

  function KeyParam(key: string): string {
    "&api_key=" + key
  }

  function FirstUrl(limit: int, key: string): (url: string)
    ensures StartsWith(url, Base + "?format=json&limit=")
    ensures EndsWith(url, KeyParam(key))
  {
    var url := Base + "?format=json&limit=" + IntToString(limit) + KeyParam(key);
    assert url[..|Base + "?format=json&limit="|] == Base + "?format=json&limit=";
    url
  }

  predicate HasNext(p: HttpPage) {
    p.next.Some? && p.next.value != ""
  }

  function Summaries(bs: seq<RawBill>): (r: seq<BillSummary>)
    ensures |r| == |bs|
    ensures forall i :: 0 <= i < |bs| ==> r[i] == Summarise(bs[i])
  {
    if bs == [] then [] else [Summarise(bs[0])] + Summaries(bs[1..])
  }

  /** The generator from the `k`-th request on, that request going to `url`. */
  function PullFrom(responses: seq<HttpPage>, k: nat, url: string, key: string): (p: Pulled)
    ensures |p.urls| >= 1 && p.urls[0] == url
    decreases |responses| - k
  {
    if k >= |responses| then Pulled([], Some(NoAnswer(url)), [url])
    else
      var resp := responses[k];
      if IsError(resp.status) then Pulled([], Some(HttpError(resp.status)), [url])
      else
        var here := Summaries(resp.bills.GetOr([]));
        if !HasNext(resp) then Pulled(here, None, [url])
        else
          var rest := PullFrom(responses, k + 1, resp.next.value + KeyParam(key), key);
          Pulled(here + rest.bills, rest.stopped, [url] + rest.urls)
  }

  function After(bills: seq<BillSummary>, urls: seq<string>, rest: Pulled): Pulled {
    Pulled(bills + rest.bills, rest.stopped, urls + rest.urls)
  }

  lemma AfterStep(bills: seq<BillSummary>, urls: seq<string>, here: seq<BillSummary>, url: string, rest: Pulled)
    ensures After(bills, urls, Pulled(here + rest.bills, rest.stopped, [url] + rest.urls))
         == After(bills + here, urls + [url], rest)
  {
    assert bills + (here + rest.bills) == (bills + here) + rest.bills;
    assert urls + ([url] + rest.urls) == (urls + [url]) + rest.urls;
  }

  /** The bills of one page, in order (the inner `for` of the generator). */
  method SummariseAll(bs: seq<RawBill>) returns (out: seq<BillSummary>)
    ensures out == Summaries(bs)
  {
    out := [];
    for i := 0 to |bs|
      invariant |out| == i
      invariant forall j :: 0 <= j < i ==> out[j] == Summarise(bs[j])
    {
      out := out + [Summarise(bs[i])];
    }
  }

  method FetchAll(limit: int, key: string, responses: seq<HttpPage>) returns (p: Pulled)
    ensures p == PullFrom(responses, 0, FirstUrl(limit, key), key)
  {
    var url := FirstUrl(limit, key);
    var bills: seq<BillSummary> := [];
    var urls: seq<string> := [];
    var k: nat := 0;
    assert After([], [], PullFrom(responses, 0, url, key)) == PullFrom(responses, 0, url, key);
    while url != ""
      invariant url != "" ==> PullFrom(responses, 0, FirstUrl(limit, key), key) == After(bills, urls, PullFrom(responses, k, url, key))
      invariant url == "" ==> PullFrom(responses, 0, FirstUrl(limit, key), key) == Pulled(bills, None, urls)
      decreases |responses| - k, if url == "" then 0 else 1
    {
      ghost var rest := PullFrom(responses, k, url, key);
      if k >= |responses| {
        p := Pulled(bills, Some(NoAnswer(url)), urls + [url]);
        return;
      }
      var resp := responses[k];
      if IsError(resp.status) {
        p := Pulled(bills, Some(HttpError(resp.status)), urls + [url]);
        return;
      }
      var here := SummariseAll(resp.bills.GetOr([]));
      if HasNext(resp) {
        AfterStep(bills, urls, here, url, PullFrom(responses, k + 1, resp.next.value + KeyParam(key), key));
        bills, urls := bills + here, urls + [url];
        url := resp.next.value + KeyParam(key);
      } else {
        bills, urls := bills + here, urls + [url];
        url := "";
      }
      k := k + 1;
    }
    p := Pulled(bills, None, urls);
  }

  /** Every URL the generator requests ends with the API key parameter. */
  lemma {:induction false} EveryUrlCarriesKey(responses: seq<HttpPage>, k: nat, url: string, key: string)
    requires EndsWith(url, KeyParam(key))
    ensures forall u :: u in PullFrom(responses, k, url, key).urls ==> EndsWith(u, KeyParam(key))
    decreases |responses| - k
  {
    if k < |responses| && !IsError(responses[k].status) && HasNext(responses[k]) {
      var next := responses[k].next.value + KeyParam(key);
      assert next[|next| - |KeyParam(key)|..] == KeyParam(key);
      EveryUrlCarriesKey(responses, k + 1, next, key);
      var rest := PullFrom(responses, k + 1, next, key);
      var p := PullFrom(responses, k, url, key);
      assert p.urls == [url] + rest.urls;
    }
  }

  /** `list(fetch_all(20))`: the bills saved, or None when the generator raised. */
  function SavedBills(key: string, responses: seq<HttpPage>): (r: Option<seq<BillSummary>>)
    ensures r.Some? <==> PullFrom(responses, 0, FirstUrl(20, key), key).stopped.None?
    ensures r.Some? ==> r.value == PullFrom(responses, 0, FirstUrl(20, key), key).bills
  {
    var p := PullFrom(responses, 0, FirstUrl(20, key), key);
    if p.stopped.None? then Some(p.bills) else None
  }

  /** One successful page without a next URL: its bills, summarised, after a single request. */
  lemma OnePage(limit: int, key: string, page: HttpPage)
    requires !IsError(page.status) && !HasNext(page)
    ensures PullFrom([page], 0, FirstUrl(limit, key), key)
         == Pulled(Summaries(page.bills.GetOr([])), None, [FirstUrl(limit, key)])
  {
  }
}
