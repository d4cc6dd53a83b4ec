/**
 * Member metadata: read from a local clone of the congress-legislators data when one is
 * configured and present (or, with nothing configured, from `data/` when present), and
 * otherwise fetched page by page from the Congress.gov `member` endpoint.
 */
module Members {
  import opened Wrappers
  import opened Text
  import opened Legislators
  import Json
  import opened CongressApi

  /** One member as read from the local data. */
  datatype MemberRow = MemberRow(bioguideId: Option<string>, firstName: Option<string>, lastName: Option<string>,
                                 chamber: string, party: Option<string>, state: Option<string>)

  /** A term's `type` spelled out: "sen" and "rep" become chamber names, anything else is kept. */
  function Chamber(termType: string): (c: string)
    ensures c == "Senate" <==> termType == "sen" || termType == "Senate"
    ensures c == "House" <==> termType == "rep" || termType == "House"
    ensures termType != "sen" && termType != "rep" ==> c == termType
  {
    if termType == "sen" then "Senate" else if termType == "rep" then "House" else termType
  }

  function RepoRow(p: Person): (row: MemberRow)
    ensures row.bioguideId == Bioguide(p) && row.firstName == FirstName(p) && row.lastName == LastName(p)
    ensures LastTerm(p).None? ==> row.chamber == "" && row.party.None? && row.state.None?
    ensures LastTerm(p).Some? ==> row.party == LastTerm(p).value.party && row.state == LastTerm(p).value.state
  {
    var term := LastTerm(p);
    var chamber := match term case Some(t) => Chamber(t.termType.GetOr("")) case None => "";
    var party := match term case Some(t) => t.party case None => None;
    var state := match term case Some(t) => t.state case None => None;
    MemberRow(Bioguide(p), FirstName(p), LastName(p), chamber, party, state)
  }

  /** One row per entry of the file, in file order. */
  method LoadFromRepo(entries: seq<Person>) returns (items: seq<MemberRow>)
    ensures |items| == |entries|
    ensures forall i :: 0 <= i < |entries| ==> items[i] == RepoRow(entries[i])
  {
    items := [];
    for i := 0 to |entries|
      invariant |items| == i
      invariant forall j :: 0 <= j < i ==> items[j] == RepoRow(entries[j])
    {
      items := items + [RepoRow(entries[i])];
    }
  }

  const LocalData: string := "data/legislators-current.yaml"

  /** The file under a configured clone of the data. */
  function RepoPath(dir: string): string {
    dir + "/" + LocalData
  }

  /**
   * The local file members are read from, or None for the API: a configured (non-empty)
   * data directory is used when its file exists; the `data/` file is consulted only when no
   * directory is configured.
   */
  function SourcePath(dataDir: Option<string>, files: map<string, seq<Person>>): (path: Option<string>)
    ensures path.Some? ==> path.value in files
    ensures dataDir.Some? && dataDir.value != "" ==> (path.Some? <==> RepoPath(dataDir.value) in files)
    ensures dataDir.Some? && dataDir.value != "" && path.Some? ==> path.value == RepoPath(dataDir.value)
    ensures !(dataDir.Some? && dataDir.value != "") ==> path == (if LocalData in files then Some(LocalData) else None)
  {
    if dataDir.Some? && dataDir.value != "" then
      if RepoPath(dataDir.value) in files then Some(RepoPath(dataDir.value)) else None
    else if LocalData in files then Some(LocalData) else None
  }

  /** What `fetch_members` returns: rows from a file, or the API's items with the requests made. */
  datatype Fetched = FromRepo(rows: seq<MemberRow>) | FromApi(items: Result<seq<Json.Value>, string>, calls: seq<Call>)

  method FetchMembers(dataDir: Option<string>, files: map<string, seq<Person>>, apiKey: string,
                      fromDate: Option<string>, limit: int, responses: seq<ApiPage<Json.Value>>)
    returns (r: Fetched)
    ensures SourcePath(dataDir, files).Some? ==>
      r.FromRepo? && |r.rows| == |files[SourcePath(dataDir, files).value]|
      && forall i :: 0 <= i < |r.rows| ==> r.rows[i] == RepoRow(files[SourcePath(dataDir, files).value][i])
    ensures SourcePath(dataDir, files).None? ==>
      r.FromApi? && r.items == Follow(responses, 0, ApiUrl + "/member")
      && r.calls == CallsFrom(responses, 0, ApiUrl + "/member", Some(FirstParams(limit, fromDate)), apiKey)
  {
    if dataDir.Some? && dataDir.value != "" {
      var path := RepoPath(dataDir.value);
      if path in files {
        var rows := LoadFromRepo(files[path]);
        return FromRepo(rows);
      }
    } else {
      if LocalData in files {
        var rows := LoadFromRepo(files[LocalData]);
        return FromRepo(rows);
      }
    }
    var items, calls := FollowNext(ApiUrl + "/member", FirstParams(limit, fromDate), apiKey, responses);
    r := FromApi(items, calls);
  }
}
