/** Voter history rows of a CSV file converted to records, one per row. */
module VoterHistory {
  import opened Wrappers
  import opened Text
  import opened Dates

  /** A CSV row as a dictionary; a missing field is a missing key. */
  type Row = map<string, string>

  datatype Record = Record(voterId: string, electionDate: Date, participated: bool, voteMethod: Option<string>)

  function Field(row: Row, k: string): Option<string> {
    if k in row then Some(row[k]) else None
  }

  /** `row.get("method") or None`: an empty or missing method is None. */
  function MethodOf(row: Row): (r: Option<string>)
    ensures r.None? <==> "method" !in row || row["method"] == ""
    ensures r.Some? ==> r.value == row["method"]
  {
    if "method" in row && row["method"] != "" then Some(row["method"]) else None
  }

  /**
   * One row: `voter_id`, `election_date` and `participated` are required, the date must be
   * YYYY-MM-DD, and `participated` is true iff it lower-cases to "true".
   */
  function Convert(row: Row): Result<Record, string> {
    if "voter_id" !in row then Failure("voter_id missing")
    else if "election_date" !in row then Failure("election_date missing")
    else match ParseIso(row["election_date"])
      case None => Failure("time data does not match format '%Y-%m-%d'")
      case Some(d) =>
        if "participated" !in row then Failure("participated missing")
        else Success(Record(row["voter_id"], d, Lower(row["participated"]) == "true", MethodOf(row)))
  }

  /** `parse_voter_history`: one record appended per row, in file order. */
  method ParseVoterHistory(rows: seq<Row>) returns (r: Result<seq<Record>, string>)
    ensures r == MapAll(Convert, rows)
  {
    var records: seq<Record> := [];
    for i := 0 to |rows|
      invariant MapAll(Convert, rows[..i]) == Success(records)
    {
      var rec := Convert(rows[i]);
      if rec.Failure? {
        MapAllFirstFailure(Convert, rows, i);
        return Failure(rec.error);
      }
      MapAllStep(Convert, rows, i);
      records := records + [rec.value];
    }
    assert rows[..|rows|] == rows;
    r := Success(records);
  }

  /** The voter ID is copied verbatim, the date is the parsed one, and participation is the "true" test. */
  lemma ConvertFields(row: Row)
    requires Convert(row).Success?
    ensures var rec := Convert(row).value;
      && rec.voterId == row["voter_id"]
      && Some(rec.electionDate) == ParseIso(row["election_date"])
      && (rec.participated <==> Lower(row["participated"]) == "true")
      && rec.voteMethod == MethodOf(row)
  {
  }

  /** "True" and "TRUE" count as participation; "false", "yes" and "" do not. */
  lemma ParticipationSpellings()
    ensures Lower("True") == "true" && Lower("TRUE") == "true"
    ensures Lower("false") != "true" && Lower("yes") != "true" && Lower("") != "true"
  {
    assert Lower("True")[0] == 't';
    assert |Lower("yes")| == 3;
  }
}
