/**
 * The FEC donor-profile puller: for every member with an FEC candidate ID it asks for the
 * candidate's totals, receipts by state and receipts by size, and keeps four ratios and
 * sums per member, keyed by BioGuide ID. A request that fails counts as an empty answer.
 */
module PullDonors {
  import opened Wrappers
  import opened Text
  import opened Maps

  const FecApi := "https://api.open.fec.gov/v1"
  const MissingKey := "Missing FEC_API_KEY"

  /** A member of `data/members.json`; a missing field is None. */
  datatype Member = Member(bioguide: Option<string>, state: Option<string>, fec: Option<string>)

  datatype TotalsRow = TotalsRow(receipts: Option<real>, pacContributions: Option<real>)
  datatype StateRow = StateRow(state: Option<string>, total: Option<real>)
  datatype SizeRow = SizeRow(size: Option<real>, total: Option<real>)

  /**
   * The `results` of the answer to each URL; None when the request or its JSON failed
   * (`.catch(() => ({}))`) or the answer has no results.
   */
  datatype Answers = Answers(totals: string -> Option<seq<TotalsRow>>,
                             byState: string -> Option<seq<StateRow>>,
                             bySize: string -> Option<seq<SizeRow>>)

  datatype Record = Record(pacPct: real, smallShare: real, inStateDollars: real, outStateDollars: real,
                           industries: map<string, real>)

  predicate Truthy(s: Option<string>) { s.Some? && s.value != "" }

  /** `out[m.bioguide]`: an undefined ID becomes the key "undefined". */
  function KeyOf(m: Member): string { m.bioguide.GetOr("undefined") }

  function Query(key: string, fec: string, cycle: int, perPage: string): string {
    "?api_key=" + key + "&candidate_id=" + fec + "&cycle=" + IntToString(cycle) + "&election_full=true&per_page=" + perPage
  }

  function TotalsUrl(key: string, fec: string, cycle: int): string {
    FecApi + "/candidate/totals/" + Query(key, fec, cycle, "1")
  }

  function StateUrl(key: string, fec: string, cycle: int): string {
    FecApi + "/schedules/schedule_a/by_state/by_candidate/" + Query(key, fec, cycle, "100")
  }

  function SizeUrl(key: string, fec: string, cycle: int): string {
    FecApi + "/schedules/schedule_a/by_size/by_candidate/" + Query(key, fec, cycle, "100")
  }

  // ---------------------------------------------------------------- the three figures

  /**
   * A share of a total, or 0 when the total is 0: `receipts ? pac / receipts : 0` for the PAC
   * share and `indivTotal ? small / indivTotal : 0` for the small-dollar share.
   */
  function Ratio(total: real, part: real): (r: real)
    ensures total != 0.0 ==> r * total == part
    ensures total == 0.0 ==> r == 0.0
  {
    if total != 0.0 then part / total else 0.0
  }

  /** The first totals row, or `{}` when there is none. */
  function FirstTotals(results: Option<seq<TotalsRow>>): TotalsRow {
    if results.Some? && |results.value| > 0 then results.value[0] else TotalsRow(None, None)
  }

  function Amount(x: Option<real>): real { x.GetOr(0.0) }

  /** The by-state totals whose state is the member's (`===`, so two missing states match). */
  function InState(rows: seq<StateRow>, state: Option<string>): real
    decreases |rows|
  {
    if rows == [] then 0.0
    else InState(rows[..|rows| - 1], state) + (if rows[|rows| - 1].state == state then Amount(rows[|rows| - 1].total) else 0.0)
  }

  function OutState(rows: seq<StateRow>, state: Option<string>): real
    decreases |rows|
  {
    if rows == [] then 0.0
    else OutState(rows[..|rows| - 1], state) + (if rows[|rows| - 1].state != state then Amount(rows[|rows| - 1].total) else 0.0)
  }

  function StateTotal(rows: seq<StateRow>): real
    decreases |rows|
  {
    if rows == [] then 0.0 else StateTotal(rows[..|rows| - 1]) + Amount(rows[|rows| - 1].total)
  }

  /** In-state and out-of-state dollars split the by-state total. */
  lemma {:induction false} StateSplit(rows: seq<StateRow>, state: Option<string>)
    ensures InState(rows, state) + OutState(rows, state) == StateTotal(rows)
    decreases |rows|
  {
    if rows != [] {
      StateSplit(rows[..|rows| - 1], state);
    }
  }

  function SizeTotal(rows: seq<SizeRow>): real
    decreases |rows|
  {
    if rows == [] then 0.0 else SizeTotal(rows[..|rows| - 1]) + Amount(rows[|rows| - 1].total)
  }

  /** The totals of the rows whose size bin is exactly 0. */
  function Small(rows: seq<SizeRow>): real
    decreases |rows|
  {
    if rows == [] then 0.0
    else Small(rows[..|rows| - 1]) + (if rows[|rows| - 1].size == Some(0.0) then Amount(rows[|rows| - 1].total) else 0.0)
  }

  /** With non-negative totals the small-dollar share lies in [0, 1]. */
  lemma {:induction false} SmallShareBounded(rows: seq<SizeRow>)
    requires forall i :: 0 <= i < |rows| ==> Amount(rows[i].total) >= 0.0
    ensures 0.0 <= Small(rows) <= SizeTotal(rows)
    ensures 0.0 <= Ratio(SizeTotal(rows), Small(rows)) <= 1.0
    decreases |rows|
  {
    if rows != [] {
      SmallShareBounded(rows[..|rows| - 1]);
    }
    if SizeTotal(rows) != 0.0 {
      RatioBounded(Small(rows), SizeTotal(rows));
    }
  }

  lemma RatioBounded(x: real, y: real)
    requires 0.0 <= x <= y && y != 0.0
    ensures 0.0 <= x / y <= 1.0
  {
    assert x / y * y == x;
  }

  /** A member's record, as the loop body computes it. */
  function RecordOf(a: Answers, key: string, cycle: int, m: Member): Record
    requires Truthy(m.fec)
  {
    var fec := m.fec.value;
    var totals := FirstTotals(a.totals(TotalsUrl(key, fec, cycle)));
    var states := a.byState(StateUrl(key, fec, cycle)).GetOr([]);
    var sizes := a.bySize(SizeUrl(key, fec, cycle)).GetOr([]);
    Record(Ratio(Amount(totals.receipts), Amount(totals.pacContributions)),
           Ratio(SizeTotal(sizes), Small(sizes)),
           InState(states, m.state), OutState(states, m.state), map[])
  }

  /** Failed requests for every figure leave a record of zeros. */
  lemma FailedRequestsGiveZeros(a: Answers, key: string, cycle: int, m: Member)
    requires Truthy(m.fec)
    requires a.totals(TotalsUrl(key, m.fec.value, cycle)).None?
    requires a.byState(StateUrl(key, m.fec.value, cycle)).None?
    requires a.bySize(SizeUrl(key, m.fec.value, cycle)).None?
    ensures RecordOf(a, key, cycle, m) == Record(0.0, 0.0, 0.0, 0.0, map[])
  {
  }

  /** The assignments `out[m.bioguide] = {...}` in member order, skipping members without an FEC ID. */
  function Pairs(a: Answers, key: string, cycle: int, ms: seq<Member>): (r: seq<(string, Record)>)
    decreases |ms|
  {
    if ms == [] then []
    else
      var init := Pairs(a, key, cycle, ms[..|ms| - 1]);
      var m := ms[|ms| - 1];
      if Truthy(m.fec) then init + [(KeyOf(m), RecordOf(a, key, cycle, m))] else init
  }

  function Profiles(a: Answers, key: string, cycle: int, ms: seq<Member>): Result<map<string, Record>, string> {
    if key == "" then Failure(MissingKey) else Success(AssignAll(map[], Pairs(a, key, cycle, ms)))
  }

  // ---------------------------------------------------------------- the loops

  method SplitByState(rows: seq<StateRow>, state: Option<string>) returns (inState: real, outState: real)
    ensures inState == InState(rows, state) && outState == OutState(rows, state)
  {
    inState, outState := 0.0, 0.0;
    for i := 0 to |rows|
      invariant inState == InState(rows[..i], state) && outState == OutState(rows[..i], state)
    {
      assert rows[..i + 1][..i] == rows[..i];
      var amt := Amount(rows[i].total);
      if rows[i].state == state {
        inState := inState + amt;
      } else {
        outState := outState + amt;
      }
    }
    assert rows[..|rows|] == rows;
  }

  method SumBySize(rows: seq<SizeRow>) returns (indivTotal: real, small: real)
    ensures indivTotal == SizeTotal(rows) && small == Small(rows)
  {
    indivTotal, small := 0.0, 0.0;
    for i := 0 to |rows|
      invariant indivTotal == SizeTotal(rows[..i]) && small == Small(rows[..i])
    {
      assert rows[..i + 1][..i] == rows[..i];
      indivTotal := indivTotal + Amount(rows[i].total);
      if rows[i].size == Some(0.0) {
        small := small + Amount(rows[i].total);
      }
    }
    assert rows[..|rows|] == rows;
  }

  /** The script: the key check, then one record per member with an FEC ID. */
  method PullAll(a: Answers, key: string, cycle: int, members: seq<Member>) returns (r: Result<map<string, Record>, string>)
    ensures r == Profiles(a, key, cycle, members)
  {
    if key == "" {
      return Failure(MissingKey);
    }
    var out: map<string, Record> := map[];
    for i := 0 to |members|
      invariant out == AssignAll(map[], Pairs(a, key, cycle, members[..i]))
    {
      assert members[..i + 1][..i] == members[..i];
      var m := members[i];
      if !Truthy(m.fec) {
        continue;
      }
      var fec := m.fec.value;
      var totals := FirstTotals(a.totals(TotalsUrl(key, fec, cycle)));
      var receipts := Amount(totals.receipts);
      var pacPct := if receipts != 0.0 then Amount(totals.pacContributions) / receipts else 0.0;
      var inState, outState := SplitByState(a.byState(StateUrl(key, fec, cycle)).GetOr([]), m.state);
      var indivTotal, small := SumBySize(a.bySize(SizeUrl(key, fec, cycle)).GetOr([]));
      var smallShare := if indivTotal != 0.0 then small / indivTotal else 0.0;
      assert Record(pacPct, smallShare, inState, outState, map[]) == RecordOf(a, key, cycle, m);
      out := out[KeyOf(m) := Record(pacPct, smallShare, inState, outState, map[])];
    }
    assert members[..|members|] == members;
    r := Success(out);
  }

  // ---------------------------------------------------------------- properties

  predicate Listed(ms: seq<Member>, k: string) {
    exists i :: 0 <= i < |ms| && Truthy(ms[i].fec) && KeyOf(ms[i]) == k
  }

  /** The keys are the IDs of the members with an FEC ID; the others are skipped. */
  lemma {:induction false} ProfileKeys(a: Answers, key: string, cycle: int, ms: seq<Member>, k: string)
    ensures k in AssignAll(map[], Pairs(a, key, cycle, ms)) <==> Listed(ms, k)
    decreases |ms|
  {
    if ms != [] {
      var init := ms[..|ms| - 1];
      ProfileKeys(a, key, cycle, init, k);
      if Listed(ms, k) && !Listed(init, k) {
        var i :| 0 <= i < |ms| && Truthy(ms[i].fec) && KeyOf(ms[i]) == k;
      }
      if Listed(init, k) {
        var i :| 0 <= i < |init| && Truthy(init[i].fec) && KeyOf(init[i]) == k;
        assert ms[i] == init[i];
      }
    }
  }

  /** A member with an FEC ID and no later member with the same key owns its record. */
  lemma {:induction false} LastMemberWins(a: Answers, key: string, cycle: int, ms: seq<Member>, i: nat)
    requires i < |ms| && Truthy(ms[i].fec)
    requires forall j :: i < j < |ms| && Truthy(ms[j].fec) ==> KeyOf(ms[j]) != KeyOf(ms[i])
    ensures KeyOf(ms[i]) in AssignAll(map[], Pairs(a, key, cycle, ms))
    ensures AssignAll(map[], Pairs(a, key, cycle, ms))[KeyOf(ms[i])] == RecordOf(a, key, cycle, ms[i])
    decreases |ms|
  {
    var init := ms[..|ms| - 1];
    if i < |ms| - 1 {
      assert init[i] == ms[i];
      forall j | i < j < |init| && Truthy(init[j].fec) ensures KeyOf(init[j]) != KeyOf(init[i]) {
        assert init[j] == ms[j];
      }
      LastMemberWins(a, key, cycle, init, i);
    }
  }
}
