/**
 * The accountability site's data files: donor records and vote-alignment indices per member,
 * built from the member summary table, and award lists per member, built from the badge table.
 * Tables are read as rows of named text cells; a cell missing from a row is absent from its map.
 */
module Accountability {
  import opened Wrappers
  import opened Text
  import opened Maps

  type Row = map<string, string>

  datatype Donor = Donor(pacPct: real, inStateDollars: real, outStateDollars: real, industries: map<string, real>)

  /** One converted summary row: its member, donor record and alignment index. */
  datatype SummaryEntry = SummaryEntry(memberId: string, donor: Donor, alignment: real)

  datatype Award = Award(key: string, caption: string)

  const MissingSummary: string := "FileNotFoundError: outputs/member_summary.csv"

  function KeyError(k: string): string {
    "KeyError: " + k
  }

  /** `float(row.get(k, 0) or 0)`: a missing or empty cell is 0, anything else must read as a number. */
  function Amount(row: Row, k: string): (r: Result<real, string>)
    ensures k !in row || row[k] == "" ==> r == Success(0.0)
    ensures k in row && row[k] != "" ==> (r.Success? <==> ParseDecimal(row[k]).Some?)
    ensures r.Success? && k in row && row[k] != "" ==> r.value == ParseDecimal(row[k]).value
  {
    if k !in row || row[k] == "" then Success(0.0)
    else match ParseDecimal(row[k])
      case Some(v) => Success(v)
      case None => Failure("ValueError: could not convert string to float: " + row[k])
  }

  /** The PAC share of all receipts, 0 when there are none. */
  function PacShare(pac: real, indiv: real): (share: real)
    ensures pac + indiv != 0.0 ==> share * (pac + indiv) == pac
    ensures pac + indiv == 0.0 ==> share == 0.0
  {
    if pac + indiv != 0.0 then pac / (pac + indiv) else 0.0
  }

  function SummaryOf(row: Row): (r: Result<SummaryEntry, string>)
    ensures r.Success? ==> "member_id" in row && r.value.memberId == row["member_id"]
  {
    if "member_id" !in row then Failure(KeyError("member_id"))
    else
      var pac :- Amount(row, "total_pac");
      var indiv :- Amount(row, "total_indiv");
      var total := pac + indiv;
      var index :- Amount(row, "alignment_index");
      Success(SummaryEntry(row["member_id"], Donor(PacShare(pac, indiv), 0.0, total, map["Unknown" := pac]), index))
  }

  /**
   * A row converts when it names its member and its three amounts read as numbers; total is
   * PAC plus individual money, all of it out of state, and every PAC dollar is of unknown industry.
   */
  lemma SummaryFields(row: Row)
    ensures SummaryOf(row).Success? <==>
      ("member_id" in row && Amount(row, "total_pac").Success?
       && Amount(row, "total_indiv").Success? && Amount(row, "alignment_index").Success?)
    ensures SummaryOf(row).Success? ==>
      var pac, indiv := Amount(row, "total_pac").value, Amount(row, "total_indiv").value;
      && SummaryOf(row).value.donor == Donor(PacShare(pac, indiv), 0.0, pac + indiv, map["Unknown" := pac])
      && SummaryOf(row).value.alignment == Amount(row, "alignment_index").value
  {
  }

  function DonorPairs(es: seq<SummaryEntry>): (ps: seq<(string, Donor)>)
    ensures |ps| == |es| && forall i :: 0 <= i < |es| ==> ps[i] == (es[i].memberId, es[i].donor)
  {
    if es == [] then [] else DonorPairs(es[..|es| - 1]) + [(es[|es| - 1].memberId, es[|es| - 1].donor)]
  }

  function AlignPairs(es: seq<SummaryEntry>): (ps: seq<(string, real)>)
    ensures |ps| == |es| && forall i :: 0 <= i < |es| ==> ps[i] == (es[i].memberId, es[i].alignment)
  {
    if es == [] then [] else AlignPairs(es[..|es| - 1]) + [(es[|es| - 1].memberId, es[|es| - 1].alignment)]
  }

  lemma PairsStep(done: seq<SummaryEntry>, e: SummaryEntry)
    ensures AssignAll(map[], DonorPairs(done + [e])) == AssignAll(map[], DonorPairs(done))[e.memberId := e.donor]
    ensures AssignAll(map[], AlignPairs(done + [e])) == AssignAll(map[], AlignPairs(done))[e.memberId := e.alignment]
  {
    assert DonorPairs(done + [e])[..|done|] == DonorPairs(done);
    assert AlignPairs(done + [e])[..|done|] == AlignPairs(done);
  }

  /** The donor records and alignment indices the summary table yields, each row assigned in turn. */
  function DonorRecords(file: Option<seq<Row>>): Result<(map<string, Donor>, map<string, real>), string> {
    match file
    case None => Failure(MissingSummary)
    case Some(rows) =>
      match MapAll(SummaryOf, rows)
      case Failure(e) => Failure(e)
      case Success(es) => Success((AssignAll(map[], DonorPairs(es)), AssignAll(map[], AlignPairs(es))))
  }

  method BuildDonorRecords(file: Option<seq<Row>>) returns (r: Result<(map<string, Donor>, map<string, real>), string>)
    ensures r == DonorRecords(file)
  {
    if file.None? {
      return Failure(MissingSummary);
    }
    var rows := file.value;
    var donors: map<string, Donor> := map[];
    var align: map<string, real> := map[];
    ghost var done: seq<SummaryEntry> := [];
    for i := 0 to |rows|
      invariant MapAll(SummaryOf, rows[..i]) == Success(done)
      invariant donors == AssignAll(map[], DonorPairs(done))
      invariant align == AssignAll(map[], AlignPairs(done))
    {
      var e := SummaryOf(rows[i]);
      if e.Failure? {
        MapAllFirstFailure(SummaryOf, rows, i);
        return Failure(e.error);
      }
      MapAllStep(SummaryOf, rows, i);
      donors := donors[e.value.memberId := e.value.donor];
      align := align[e.value.memberId := e.value.alignment];
      PairsStep(done, e.value);
      done := done + [e.value];
    }
    assert rows[..|rows|] == rows;
    r := Success((donors, align));
  }

  lemma MemberIdAt(rows: seq<Row>, i: nat)
    requires MapAll(SummaryOf, rows).Success? && i < |rows|
    ensures "member_id" in rows[i] && MapAll(SummaryOf, rows).value[i].memberId == rows[i]["member_id"]
  {
    assert SummaryOf(rows[i]).Success?;
  }

  lemma EntryWins(es: seq<SummaryEntry>, i: nat)
    requires i < |es|
    requires forall j :: i < j < |es| ==> es[j].memberId != es[i].memberId
    ensures es[i].memberId in AssignAll(map[], DonorPairs(es)) && AssignAll(map[], DonorPairs(es))[es[i].memberId] == es[i].donor
    ensures es[i].memberId in AssignAll(map[], AlignPairs(es)) && AssignAll(map[], AlignPairs(es))[es[i].memberId] == es[i].alignment
  {
    AssignAllLast(map[], DonorPairs(es), i);
    AssignAllLast(map[], AlignPairs(es), i);
  }

  lemma LaterIdsDiffer(rows: seq<Row>, i: nat)
    requires MapAll(SummaryOf, rows).Success? && i < |rows| && "member_id" in rows[i]
    requires forall j :: i < j < |rows| && "member_id" in rows[j] ==> rows[j]["member_id"] != rows[i]["member_id"]
    ensures var es := MapAll(SummaryOf, rows).value;
      i < |es| && es[i].memberId == rows[i]["member_id"] && forall j :: i < j < |es| ==> es[j].memberId != es[i].memberId
  {
    forall j | i <= j < |rows| ensures MapAll(SummaryOf, rows).value[j].memberId == rows[j]["member_id"] {
      MemberIdAt(rows, j);
    }
  }

  /** A member who appears more than once keeps the record of the last row naming them. */
  lemma LastRowWins(rows: seq<Row>, i: nat)
    requires MapAll(SummaryOf, rows).Success? && i < |rows| && "member_id" in rows[i]
    requires forall j :: i < j < |rows| && "member_id" in rows[j] ==> rows[j]["member_id"] != rows[i]["member_id"]
    ensures DonorRecords(Some(rows)).Success?
    ensures rows[i]["member_id"] in DonorRecords(Some(rows)).value.0
    ensures DonorRecords(Some(rows)).value.0[rows[i]["member_id"]] == MapAll(SummaryOf, rows).value[i].donor
    ensures rows[i]["member_id"] in DonorRecords(Some(rows)).value.1
    ensures DonorRecords(Some(rows)).value.1[rows[i]["member_id"]] == MapAll(SummaryOf, rows).value[i].alignment
  {
    var es := MapAll(SummaryOf, rows).value;
    LaterIdsDiffer(rows, i);
    EntryWins(es, i);
    RecordsOf(rows);
  }

  lemma RecordsOf(rows: seq<Row>)
    requires MapAll(SummaryOf, rows).Success?
    ensures DonorRecords(Some(rows)) == Success((AssignAll(map[], DonorPairs(MapAll(SummaryOf, rows).value)),
                                                 AssignAll(map[], AlignPairs(MapAll(SummaryOf, rows).value))))
  {
  }

  predicate Names(es: seq<SummaryEntry>, m: string) {
    exists i :: 0 <= i < |es| && es[i].memberId == m
  }

  lemma {:induction false} PairKeys(es: seq<SummaryEntry>, m: string)
    ensures m in AssignAll(map[], DonorPairs(es)) <==> Names(es, m)
    ensures m in AssignAll(map[], AlignPairs(es)) <==> Names(es, m)
    decreases |es|
  {
    if es != [] {
      var init := es[..|es| - 1];
      PairKeys(init, m);
      assert DonorPairs(es) == DonorPairs(init) + [(es[|es| - 1].memberId, es[|es| - 1].donor)];
      assert AlignPairs(es) == AlignPairs(init) + [(es[|es| - 1].memberId, es[|es| - 1].alignment)];
      if Names(es, m) && es[|es| - 1].memberId != m {
        var i :| 0 <= i < |es| && es[i].memberId == m;
        assert init[i].memberId == m;
      }
      if Names(init, m) {
        var i :| 0 <= i < |init| && init[i].memberId == m;
        assert es[i].memberId == m;
      }
    }
  }

  /** Some row names member `m`. */
  predicate RowNames(rows: seq<Row>, m: string) {
    exists i :: 0 <= i < |rows| && "member_id" in rows[i] && rows[i]["member_id"] == m
  }

  /** The members of the parsed entries are the members the rows name. */
  lemma NamesRows(rows: seq<Row>, m: string)
    requires MapAll(SummaryOf, rows).Success?
    ensures Names(MapAll(SummaryOf, rows).value, m) <==> RowNames(rows, m)
  {
    var es := MapAll(SummaryOf, rows).value;
    if Names(es, m) {
      var i :| 0 <= i < |es| && es[i].memberId == m;
      MemberIdAt(rows, i);
    }
    if RowNames(rows, m) {
      var i :| 0 <= i < |rows| && "member_id" in rows[i] && rows[i]["member_id"] == m;
      MemberIdAt(rows, i);
    }
  }

  /** The two maps have the same members: those named by some row. */
  lemma SameMembers(rows: seq<Row>, m: string)
    requires MapAll(SummaryOf, rows).Success?
    ensures DonorRecords(Some(rows)).Success?
    ensures m in DonorRecords(Some(rows)).value.0 <==> m in DonorRecords(Some(rows)).value.1
    ensures m in DonorRecords(Some(rows)).value.0 <==> RowNames(rows, m)
  {
    RecordsOf(rows);
    PairKeys(MapAll(SummaryOf, rows).value, m);
    NamesRows(rows, m);
  }

  // ---------------------------------------------------------------- awards

  function AwardOf(row: Row): (r: Result<(string, Award), string>)
    ensures r.Success? <==> "member_id" in row && "badge_code" in row && "label" in row
    ensures r.Success? ==> r.value == (row["member_id"], Award(row["badge_code"], row["label"]))
  {
    if "member_id" !in row then Failure(KeyError("member_id"))
    else if "badge_code" !in row then Failure(KeyError("badge_code"))
    else if "label" !in row then Failure(KeyError("label"))
    else Success((row["member_id"], Award(row["badge_code"], row["label"])))
  }

  /** The awards of member `m`, in file order. */
  function AwardsFor(entries: seq<(string, Award)>, m: string): seq<Award> {
    if entries == [] then []
    else AwardsFor(entries[..|entries| - 1], m) + (if entries[|entries| - 1].0 == m then [entries[|entries| - 1].1] else [])
  }

  /** The awards grouped by member, as `setdefault(mid, ...).append(...)` builds them. */
  function Group(entries: seq<(string, Award)>): map<string, seq<Award>> {
    if entries == [] then map[]
    else
      var g := Group(entries[..|entries| - 1]);
      var last := entries[|entries| - 1];
      g[last.0 := Get(g, last.0, []) + [last.1]]
  }

  /** Every member with a badge row is a key, holding that member's badges in file order. */
  lemma {:induction false} GroupSpec(entries: seq<(string, Award)>, m: string)
    ensures m in Group(entries) <==> exists i :: 0 <= i < |entries| && entries[i].0 == m
    ensures m in Group(entries) ==> Group(entries)[m] == AwardsFor(entries, m) && |Group(entries)[m]| >= 1
    ensures m !in Group(entries) ==> AwardsFor(entries, m) == []
    decreases |entries|
  {
    if entries != [] {
      var init := entries[..|entries| - 1];
      GroupSpec(init, m);
      if m !in Group(entries) {
        assert forall i :: 0 <= i < |init| ==> init[i] == entries[i];
      }
      if m in Group(init) {
        var i :| 0 <= i < |init| && init[i].0 == m;
        assert entries[i].0 == m;
      }
      if exists i :: 0 <= i < |entries| && entries[i].0 == m {
        var i :| 0 <= i < |entries| && entries[i].0 == m;
        if i < |init| { assert init[i].0 == m; }
      }
    }
  }

  /** The awards file: empty when the badge table is missing. */
  function AwardRecords(file: Option<seq<Row>>): Result<map<string, seq<Award>>, string> {
    match file
    case None => Success(map[])
    case Some(rows) =>
      match MapAll(AwardOf, rows)
      case Failure(e) => Failure(e)
      case Success(es) => Success(Group(es))
  }

  method BuildAwardsRecords(file: Option<seq<Row>>) returns (r: Result<map<string, seq<Award>>, string>)
    ensures r == AwardRecords(file)
  {
    var awards: map<string, seq<Award>> := map[];
    if file.None? {
      return Success(awards);
    }
    var rows := file.value;
    ghost var done: seq<(string, Award)> := [];
    for i := 0 to |rows|
      invariant MapAll(AwardOf, rows[..i]) == Success(done)
      invariant awards == Group(done)
    {
      var a := AwardOf(rows[i]);
      if a.Failure? {
        MapAllFirstFailure(AwardOf, rows, i);
        return Failure(a.error);
      }
      MapAllStep(AwardOf, rows, i);
      var mid := a.value.0;
      var list := if mid in awards then awards[mid] else [];
      awards := awards[mid := list + [a.value.1]];
      assert (done + [a.value])[..|done|] == done;
      done := done + [a.value];
    }
    assert rows[..|rows|] == rows;
    r := Success(awards);
  }
}
