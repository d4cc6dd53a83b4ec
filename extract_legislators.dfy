/**
 * Extraction of the legislator table and the ID crosswalk from the congress-legislators
 * YAML files: one row of each per person, in file order.
 */
module ExtractLegislators {
  import opened Wrappers
  import opened Text
  import opened Legislators
  import Link

  datatype LegislatorRow = LegislatorRow(bioguide: Option<string>, firstName: Option<string>, lastName: Option<string>, party: Option<string>)

  datatype CrosswalkRow = CrosswalkRow(bioguide: Option<string>, govtrack: Option<int>, icpsr: Option<int>, fecCandidateIds: string)

  /** `_load_people`: the people of each file that exists, file after file (a missing file is None). */
  method LoadPeople(files: seq<Option<seq<Person>>>) returns (people: seq<Person>)
    ensures people == Present(files)
  {
    people := [];
    for i := 0 to |files|
      invariant people == Present(files[..i])
    {
      assert files[..i + 1] == files[..i] + [files[i]];
      PresentAppend(files[..i], [files[i]]);
      if files[i].Some? {
        people := people + files[i].value;
      }
    }
    assert files[..|files|] == files;
  }

  /** The concatenation of the files that are present. */
  function Present(files: seq<Option<seq<Person>>>): seq<Person>
    decreases |files|
  {
    if files == [] then [] else (match files[0] case Some(ps) => ps case None => []) + Present(files[1..])
  }

  lemma {:induction false} PresentAppend(a: seq<Option<seq<Person>>>, b: seq<Option<seq<Person>>>)
    ensures Present(a + b) == Present(a) + Present(b)
    decreases |a|
  {
    if a == [] {
      assert a + b == b;
    } else {
      assert (a + b)[1..] == a[1..] + b;
      PresentAppend(a[1..], b);
    }
  }

  /** The current legislators come before the historical ones, and a missing file adds nobody. */
  lemma CurrentThenHistorical(current: Option<seq<Person>>, historical: Option<seq<Person>>)
    ensures Present([current, historical]) == current.GetOr([]) + historical.GetOr([])
  {
    assert [current, historical][1..] == [historical];
    assert [historical][1..] == [];
    assert Present([historical]) == historical.GetOr([]) + Present([]);
    assert Present([current, historical]) == current.GetOr([]) + Present([historical]);
  }

  /** The party of a person's last term, or None without terms. */
  function PartyOf(p: Person): (r: Option<string>)
    ensures LastTerm(p).None? ==> r.None?
    ensures LastTerm(p).Some? ==> r == LastTerm(p).value.party
  {
    match LastTerm(p) case Some(t) => t.party case None => None
  }

  /** The crosswalk cell: a list is `;`-joined, a single string passes through, and no `fec` key gives "". */
  function FecCell(f: Option<FecField>): (r: string)
    ensures f.None? ==> r == ""
    ensures f.Some? && f.value.FecScalar? ==> r == f.value.id
  {
    match f
    case None => Join([], ";")
    case Some(FecList(ids)) => Join(ids, ";")
    case Some(FecScalar(id)) => id
  }

  function RowOf(p: Person): LegislatorRow {
    LegislatorRow(Bioguide(p), FirstName(p), LastName(p), PartyOf(p))
  }

  function CrosswalkOf(p: Person): CrosswalkRow {
    var ids := match p.id case Some(b) => b case None => IdBlock(None, None, None, None);
    CrosswalkRow(ids.bioguide, ids.govtrack, ids.icpsr, FecCell(ids.fec))
  }

  /** `extract`: one legislator row and one crosswalk row per person, appended in step. */
  method Extract(people: seq<Person>) returns (rows: seq<LegislatorRow>, xwalk: seq<CrosswalkRow>)
    ensures |rows| == |people| && |xwalk| == |people|
    ensures forall i :: 0 <= i < |people| ==> rows[i].bioguide == xwalk[i].bioguide == Bioguide(people[i])
    ensures forall i :: 0 <= i < |people| ==> rows[i] == LegislatorRow(Bioguide(people[i]), FirstName(people[i]), LastName(people[i]), PartyOf(people[i]))
    ensures forall i :: 0 <= i < |people| ==> xwalk[i] == CrosswalkOf(people[i])
  {
    rows, xwalk := [], [];
    for i := 0 to |people|
      invariant |rows| == i && |xwalk| == i
      invariant forall j :: 0 <= j < i ==> rows[j] == RowOf(people[j]) && xwalk[j] == CrosswalkOf(people[j])
    {
      rows := rows + [RowOf(people[i])];
      xwalk := xwalk + [CrosswalkOf(people[i])];
    }
  }

  /** A person's crosswalk row as `link` reads it back from the CSV: an empty cell is NaN. */
  function AsLinkRow(row: CrosswalkRow, bioguide: string): Link.XwalkRow {
    Link.XwalkRow(bioguide, if row.fecCandidateIds == "" then None else Some(row.fecCandidateIds))
  }

  /**
   * The IDs written for a person are the IDs `link` reads for them, when they are non-empty and
   * contain no `;` (including an empty list and an absent `fec` key, which give no IDs).
   */
  lemma CrosswalkFeedsLink(p: Person, b: string, rest: seq<Link.XwalkRow>)
    requires Bioguide(p) == Some(b)
    requires FecOf(p).None? || FecOf(p).value.FecList?
    requires FecOf(p).Some? ==> forall i :: 0 <= i < |FecOf(p).value.ids| ==> FecOf(p).value.ids[i] != "" && ';' !in FecOf(p).value.ids[i]
    ensures Link.CandidateIds([AsLinkRow(CrosswalkOf(p), b)] + rest, b)
         == Success(if FecOf(p).Some? then FecOf(p).value.ids else [])
  {
    var ids := if FecOf(p).Some? then FecOf(p).value.ids else [];
    assert FecCell(FecOf(p)) == Join(ids, ";");
    SplitJoinNonEmpty(ids, ';');
    assert NonEmpty(Split("", ';')) == [];
  }
}
