/** Bill summaries from the Congress.gov `bill` endpoint, through the shared list loop. */
module Bills {
  import opened Wrappers
  import opened Text
  import Json
  import opened CongressApi

  const BillUrl: string := ApiUrl + "/bill"

  /** The items under `bills.bill` of every page reached, and the requests made for them. */
  method FetchBills(apiKey: string, fromDate: Option<string>, limit: int, responses: seq<ApiPage<Json.Value>>)
    returns (items: Result<seq<Json.Value>, string>, calls: seq<Call>)
    ensures items == Follow(responses, 0, BillUrl)
    ensures calls == CallsFrom(responses, 0, BillUrl, Some(FirstParams(limit, fromDate)), apiKey)
  {
    items, calls := FollowNext(BillUrl, FirstParams(limit, fromDate), apiKey, responses);
  }

  /**
   * Two pages, the first pointing at "next-url": both bills are returned in order, the first
   * request filters by date and sends the key, and the second carries no parameters.
   */
  lemma TwoPagesOfBills(b1: Json.Value, b2: Json.Value)
    ensures var responses := [ApiPage(Some([b1]), Some("next-url")), ApiPage(Some([b2]), None)];
      var calls := CallsFrom(responses, 0, BillUrl, Some(FirstParams(250, Some("2020-01-01"))), "KEY");
      && Follow(responses, 0, BillUrl) == Success([b1, b2])
      && |calls| == 2
      && calls[0].params.Some? && "fromDateTime" in calls[0].params.value
      && calls[0].params.value["fromDateTime"] == "2020-01-01"
      && calls[0].apiKey == "KEY"
      && calls[1].url == "next-url" && calls[1].params.None?
  {
    var responses := [ApiPage(Some([b1]), Some("next-url")), ApiPage(Some([b2]), None)];
    Chain(responses, 2, 0, BillUrl, Some(FirstParams(250, Some("2020-01-01"))), "KEY");
    assert Follow(responses, 1, "next-url") == Success([b2]);
    assert [b1] + [b2] == [b1, b2];
    assert Follow(responses, 0, BillUrl) == Success([b1, b2]);
  }
}
