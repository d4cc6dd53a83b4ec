/**
 * FEC access: linking members to candidate IDs, following the API's numbered pages, and
 * the row filters of the local-file and bulk-download sources.
 */
module Fec {
  import opened Wrappers
  import opened Text
  import opened Maps

  /** A CSV row or API result object, as a dictionary of strings. */
  type Record = map<string, string>

  // ---------------------------------------------------------------- member links

  /** A member; a missing key is None. */
  datatype Member = Member(bioguideId: Option<string>, memberId: Option<string>)

  const MissingKey: string := "member without bioguide_id or member_id"

  /** The assignments made by the loop, in order; a member missing a key is an error. */
  function LinkPairs(members: seq<Member>, mapping: map<string, seq<string>>): (r: Result<seq<(string, seq<string>)>, string>)
    ensures r.Failure? <==> exists i :: 0 <= i < |members| && (members[i].bioguideId.None? || members[i].memberId.None?)
    ensures r.Failure? ==> r.error == MissingKey
    ensures r.Success? ==> (|r.value| == |members|
      && forall i :: 0 <= i < |members| ==> r.value[i] == (members[i].memberId.value, Get(mapping, members[i].bioguideId.value, [])))
    decreases |members|
  {
    if members == [] then Success([])
    else
      var init := members[..|members| - 1];
      var last := members[|members| - 1];
      assert forall i :: 0 <= i < |init| ==> init[i] == members[i];
      if last.bioguideId.None? || last.memberId.None? then Failure(MissingKey)
      else match LinkPairs(init, mapping)
        case Failure(e) => Failure(e)
        case Success(pairs) => Success(pairs + [(last.memberId.value, Get(mapping, last.bioguideId.value, []))])
  }

  function LinkSpec(members: seq<Member>, mapping: map<string, seq<string>>): Result<map<string, seq<string>>, string> {
    var pairs :- LinkPairs(members, mapping);
    Success(AssignAll(map[], pairs))
  }

  lemma LinkStep(members: seq<Member>, mapping: map<string, seq<string>>, i: nat)
    requires i < |members| && LinkPairs(members[..i], mapping).Success?
    requires members[i].bioguideId.Some? && members[i].memberId.Some?
    ensures LinkPairs(members[..i + 1], mapping).Success?
    ensures AssignAll(map[], LinkPairs(members[..i + 1], mapping).value)
         == AssignAll(map[], LinkPairs(members[..i], mapping).value)[members[i].memberId.value := Get(mapping, members[i].bioguideId.value, [])]
  {
    var m := members[i];
    assert members[..i + 1][..i] == members[..i];
    AssignAllSnoc(map[], LinkPairs(members[..i], mapping).value, (m.memberId.value, Get(mapping, m.bioguideId.value, [])));
  }

  /** `link_members_to_candidates`: one assignment per member, keyed by member ID. */
  method LinkMembersToCandidates(members: seq<Member>, mapping: map<string, seq<string>>) returns (r: Result<map<string, seq<string>>, string>)
    ensures r == LinkSpec(members, mapping)
  {
    var result: map<string, seq<string>> := map[];
    for i := 0 to |members|
      invariant LinkPairs(members[..i], mapping).Success?
      invariant result == AssignAll(map[], LinkPairs(members[..i], mapping).value)
    {
      var m := members[i];
      if m.bioguideId.None? || m.memberId.None? {
        assert members[i] == m;
        return Failure(MissingKey);
      }
      LinkStep(members, mapping, i);
      result := result[m.memberId.value := Get(mapping, m.bioguideId.value, [])];
    }
    assert members[..|members|] == members;
    r := Success(result);
  }

  /**
   * The result has a key per member ID; its value is the mapping's list for the bioguide of
   * the last member with that ID, or [] when the mapping lacks that bioguide.
   */
  lemma LinkedIds(members: seq<Member>, mapping: map<string, seq<string>>, i: nat)
    requires LinkSpec(members, mapping).Success?
    requires i < |members|
    requires forall j :: i < j < |members| ==> members[j].memberId != members[i].memberId
    ensures var r := LinkSpec(members, mapping).value;
      members[i].memberId.value in r && r[members[i].memberId.value] == Get(mapping, members[i].bioguideId.value, [])
  {
    AssignAllLast(map[], LinkPairs(members, mapping).value, i);
  }

  lemma LinkedKeys(members: seq<Member>, mapping: map<string, seq<string>>, k: string)
    requires LinkSpec(members, mapping).Success?
    ensures k in LinkSpec(members, mapping).value <==> exists i :: 0 <= i < |members| && members[i].memberId == Some(k)
  {
    var pairs := LinkPairs(members, mapping).value;
    AssignAllKeys(map[], pairs);
    if k in LinkSpec(members, mapping).value {
      var i :| 0 <= i < |pairs| && pairs[i].0 == k;
      assert members[i].memberId == Some(k);
    }
    if exists i :: 0 <= i < |members| && members[i].memberId == Some(k) {
      var i :| 0 <= i < |members| && members[i].memberId == Some(k);
      assert pairs[i].0 == k;
    }
  }

  // ---------------------------------------------------------------- numbered pages

  /** A response: its `results` and the page count its `pagination` reports (None when absent). */
  datatype Page = Page(results: Option<seq<Record>>, pages: Option<int>)

  /** The request parameters, a dictionary the page loop writes `page` into. */
  class Params {
    var values: map<string, string>

    constructor (values: map<string, string>)
      ensures this.values == values
    {
      this.values := values;
    }
  }

  /** The page count a response reports; a missing count means the current page is the last. */
  function PagesOf(p: Page, page: nat): int {
    p.pages.GetOr(page)
  }

  /**
   * The results of pages `page`, `page + 1`, … up to the first page whose reported count is at
   * most its number. Page `p` is answered by `responses[p - 1]`; a request past the responses fails.
   */
  function AllPages(responses: seq<Page>, page: nat): Result<seq<Record>, string>
    requires page >= 1
    decreases |responses| + 1 - page
  {
    if page > |responses| then Failure("request failed")
    else
      var data := responses[page - 1];
      var here := data.results.GetOr([]);
      if page >= PagesOf(data, page) then Success(here)
      else match AllPages(responses, page + 1)
        case Failure(e) => Failure(e)
        case Success(rest) => Success(here + rest)
  }

  /** Whether the loop goes on after requesting page `q`: the page was answered and its count is above `q`. */
  predicate Continues(responses: seq<Page>, q: nat)
    requires q >= 1
  {
    q <= |responses| && q < PagesOf(responses[q - 1], q)
  }

  /** The last page number written into the parameters: the page at which the loop stops or fails. */
  function LastRequested(responses: seq<Page>, page: nat): (r: nat)
    requires page >= 1
    ensures r >= page && !Continues(responses, r)
    ensures forall q :: page <= q < r ==> Continues(responses, q)
    decreases |responses| + 1 - page
  {
    if !Continues(responses, page) then page
    else LastRequested(responses, page + 1)
  }

  /** The results gathered so far put in front of the rest of the loop's outcome. */
  function Prefixed(results: seq<Record>, rest: Result<seq<Record>, string>): Result<seq<Record>, string> {
    match rest
    case Failure(e) => Failure(e)
    case Success(more) => Success(results + more)
  }

  lemma PrefixedStep(results: seq<Record>, here: seq<Record>, rest: Result<seq<Record>, string>)
    ensures Prefixed(results, Prefixed(here, rest)) == Prefixed(results + here, rest)
  {
    if rest.Success? {
      assert results + (here + rest.value) == (results + here) + rest.value;
    }
  }

  lemma PrefixedNothing(rest: Result<seq<Record>, string>)
    ensures Prefixed([], rest) == rest
  {
    if rest.Success? {
      assert [] + rest.value == rest.value;
    }
  }

  /** `_fetch_all_pages`: request page 1, 2, … until the reported count is reached. */
  method FetchAllPages(params: Params, responses: seq<Page>) returns (r: Result<seq<Record>, string>)
    modifies params
    ensures r == AllPages(responses, 1)
    ensures params.values == old(params.values)["page" := NatToString(LastRequested(responses, 1))]
  {
    var results: seq<Record> := [];
    var page: nat := 1;
    PrefixedNothing(AllPages(responses, 1));
    while true
      invariant page >= 1
      invariant AllPages(responses, 1) == Prefixed(results, AllPages(responses, page))
      invariant LastRequested(responses, 1) == LastRequested(responses, page)
      invariant page > 1 ==> params.values == old(params.values)["page" := NatToString(page - 1)]
      invariant page == 1 ==> params.values == old(params.values)
      decreases |responses| + 1 - page
    {
      params.values := params.values["page" := NatToString(page)];
      if page > |responses| {
        return Failure("request failed");
      }
      var data := responses[page - 1];
      ghost var before := results;
      results := results + data.results.GetOr([]);
      var pages := data.pages.GetOr(page);
      if page >= pages {
        assert AllPages(responses, page) == Success(data.results.GetOr([]));
        break;
      }
      PrefixedStep(before, data.results.GetOr([]), AllPages(responses, page + 1));
      page := page + 1;
    }
    r := Success(results);
  }

  /** Missing pagination means a single request, for page 1. */
  lemma NoPaginationOneRequest(responses: seq<Page>)
    requires |responses| >= 1 && responses[0].pages.None?
    ensures AllPages(responses, 1) == Success(responses[0].results.GetOr([]))
    ensures LastRequested(responses, 1) == 1
  {
  }

  /** The results of pages `page..n` of responses that all report `n` pages. */
  function Concat(responses: seq<Page>, page: nat, n: nat): seq<Record>
    requires 1 <= page <= n <= |responses|
    decreases n - page
  {
    responses[page - 1].results.GetOr([]) + (if page == n then [] else Concat(responses, page + 1, n))
  }

  /** When every response reports the same count `n`, the loop fetches pages 1..n in order and stops at n. */
  lemma {:induction false} ConsistentCount(responses: seq<Page>, n: nat, page: nat)
    requires 1 <= page <= n <= |responses|
    requires forall i :: 0 <= i < n ==> responses[i].pages == Some(n)
    ensures AllPages(responses, page) == Success(Concat(responses, page, n))
    ensures LastRequested(responses, page) == n
    decreases n - page
  {
    var here := responses[page - 1].results.GetOr([]);
    if page < n {
      ConsistentCount(responses, n, page + 1);
    } else {
      assert here + [] == here;
    }
  }

  /** Two pages reporting two pages give page 1's results, then page 2's. */
  lemma TwoPages(a: Record, b: Record)
    ensures AllPages([Page(Some([a]), Some(2)), Page(Some([b]), Some(2))], 1) == Success([a, b])
  {
    var responses := [Page(Some([a]), Some(2)), Page(Some([b]), Some(2))];
    ConsistentCount(responses, 2, 1);
    assert Concat(responses, 2, 2) == [b] + [];
    assert responses[0].results.GetOr([]) == [a] && responses[1].results.GetOr([]) == [b];
    assert Concat(responses, 1, 2) == [a] + Concat(responses, 2, 2);
    assert [a] + ([b] + []) == [a, b];
  }

  // ---------------------------------------------------------------- row filters

  /** Python `str()` of a `dict.get` result: a missing key prints as "None". */
  function PyStr(v: Option<string>): string {
    v.GetOr("None")
  }

  /** The local `candidate_totals.csv` filter. */
  function LocalTotals(rows: seq<Record>, candidateId: string, cycle: int): (r: seq<Record>)
    ensures forall row :: row in r <==> row in rows && Get(row, "candidate_id", "") == candidateId && "candidate_id" in row
                                          && PyStr(if "cycle" in row then Some(row["cycle"]) else None) == IntToString(cycle)
    decreases |rows|
  {
    if rows == [] then []
    else
      var row := rows[0];
      (if "candidate_id" in row && row["candidate_id"] == candidateId
          && PyStr(if "cycle" in row then Some(row["cycle"]) else None) == IntToString(cycle)
       then [row] else [])
      + LocalTotals(rows[1..], candidateId, cycle)
  }

  /** A row without a cycle never matches, because no integer prints as "None". */
  lemma MissingCycleNeverMatches(row: Record, cycle: int)
    requires "cycle" !in row
    ensures PyStr(None) != IntToString(cycle)
  {
    var s := IntToString(cycle);
    assert PyStr(None)[0] == 'N';
    if cycle >= 0 {
      assert IsDigit(s[0]);
    } else {
      assert s[0] == '-';
    }
  }

  /** The bulk candidate-totals filter: CAND_ID against the upper-cased ID. */
  function BulkTotals(rows: seq<Record>, candidateId: string): (r: seq<Record>)
    ensures forall row :: row in r <==> row in rows && "CAND_ID" in row && row["CAND_ID"] == Upper(candidateId)
    decreases |rows|
  {
    if rows == [] then []
    else (if "CAND_ID" in rows[0] && rows[0]["CAND_ID"] == Upper(candidateId) then [rows[0]] else [])
         + BulkTotals(rows[1..], candidateId)
  }

  /** The bulk Schedule E filter: `cand_id` against the ID exactly as given. */
  function BulkScheduleE(rows: seq<Record>, candidateId: string): (r: seq<Record>)
    ensures forall row :: row in r <==> row in rows && "cand_id" in row && row["cand_id"] == candidateId
    decreases |rows|
  {
    if rows == [] then []
    else (if "cand_id" in rows[0] && rows[0]["cand_id"] == candidateId then [rows[0]] else [])
         + BulkScheduleE(rows[1..], candidateId)
  }

  lemma UpperChanges(id: string, i: nat)
    requires i < |id| && IsLowerAscii(id[i])
    ensures Upper(id) != id
  {
    assert Upper(id)[i] == UpperChar(id[i]);
  }

  lemma TotalsKeep(row: Record, id: string)
    requires "CAND_ID" in row && row["CAND_ID"] == Upper(id)
    ensures BulkTotals([row], id) == [row]
  {
    assert [row][1..] == [];
  }

  lemma ScheduleEDrops(row: Record, id: string)
    requires "cand_id" in row && row["cand_id"] != id
    ensures BulkScheduleE([row], id) == []
  {
    assert [row][1..] == [];
  }

  /**
   * An ID typed with a lower-case letter: the totals filter still matches the bulk row that
   * carries the upper-case ID, while the Schedule E filter does not.
   */
  lemma CaseOfIds(id: string, i: nat)
    requires i < |id| && IsLowerAscii(id[i])
    ensures BulkTotals([map["CAND_ID" := Upper(id)]], id) == [map["CAND_ID" := Upper(id)]]
    ensures BulkScheduleE([map["cand_id" := Upper(id)]], id) == []
  {
    UpperChanges(id, i);
    TotalsKeep(map["CAND_ID" := Upper(id)], id);
    ScheduleEDrops(map["cand_id" := Upper(id)], id);
  }

  // ---------------------------------------------------------------- sources

  /**
   * Where the data comes from: the bulk download, the local file when `fec_data_dir` is set
   * and the file exists (None otherwise), and the API's pages.
   */
  datatype Sources = Sources(bulkRows: seq<Record>, localFile: Option<seq<Record>>, api: seq<Page>)

  datatype Origin = FromBulk | FromLocal | FromApi

  /** `bulk=True` wins over everything; then the local file; then the API. */
  function TotalsOrigin(bulk: bool, src: Sources): (o: Origin)
    ensures bulk <==> o == FromBulk
    ensures o == FromLocal <==> !bulk && src.localFile.Some?
  {
    if bulk then FromBulk else if src.localFile.Some? then FromLocal else FromApi
  }

  function TotalsSpec(candidateId: string, cycle: int, bulk: bool, src: Sources): Result<seq<Record>, string> {
    match TotalsOrigin(bulk, src)
    case FromBulk => Success(BulkTotals(src.bulkRows, candidateId))
    case FromLocal => Success(LocalTotals(src.localFile.value, candidateId, cycle))
    case FromApi => AllPages(src.api, 1)
  }

  /** `fetch_candidate_totals`: bulk, else the local file, else every page of the API. */
  method FetchCandidateTotals(candidateId: string, cycle: int, bulk: bool, src: Sources, apiKey: string)
    returns (r: Result<seq<Record>, string>)
    ensures r == TotalsSpec(candidateId, cycle, bulk, src)
  {
    if bulk {
      return Success(BulkTotals(src.bulkRows, candidateId));
    }
    if src.localFile.Some? {
      return Success(LocalTotals(src.localFile.value, candidateId, cycle));
    }
    var params := new Params(map["api_key" := apiKey, "candidate_id" := candidateId, "cycle" := IntToString(cycle), "per_page" := "100"]);
    r := FetchAllPages(params, src.api);
  }

  /** `fetch_independent_expenditures`: bulk, else every page of the API (there is no local file). */
  method FetchIndependentExpenditures(candidateId: string, cycle: int, bulk: bool, bulkRows: seq<Record>, api: seq<Page>, apiKey: string)
    returns (r: Result<seq<Record>, string>)
    ensures bulk ==> r == Success(BulkScheduleE(bulkRows, candidateId))
    ensures !bulk ==> r == AllPages(api, 1)
  {
    if bulk {
      return Success(BulkScheduleE(bulkRows, candidateId));
    }
    var params := new Params(map["api_key" := apiKey, "candidate_id" := candidateId,
                                 "two_year_transaction_period" := IntToString(cycle), "per_page" := "100"]);
    r := FetchAllPages(params, api);
  }
}
