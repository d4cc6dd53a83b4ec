/** Congressional Record entries from the Congress.gov `congressional-record` endpoint, through the shared list loop. */
module Records {
  import opened Wrappers
  import opened Text
  import Json
  import opened CongressApi

  const RecordUrl: string := ApiUrl + "/congressional-record"

  /** The items under `congressionalRecord.record` of every page reached, and the requests made for them. */
  method FetchRecords(apiKey: string, fromDate: Option<string>, limit: int, responses: seq<ApiPage<Json.Value>>)
    returns (items: Result<seq<Json.Value>, string>, calls: seq<Call>)
    ensures items == Follow(responses, 0, RecordUrl)
    ensures calls == CallsFrom(responses, 0, RecordUrl, Some(FirstParams(limit, fromDate)), apiKey)
  {
    items, calls := FollowNext(RecordUrl, FirstParams(limit, fromDate), apiKey, responses);
  }
}
