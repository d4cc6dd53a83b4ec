/**
 * The site's FEC builder: in live mode every member row of the roster CSV is normalised
 * (its FEC IDs parsed from the comma-separated cell) and given the headline totals of the
 * candidate ID with the greatest receipts; otherwise the demo data is used.
 */
module FecBuild {
  import opened Wrappers
  import opened Text
  import opened Maps

  /** A roster row as parsed with a header line; an absent cell is None. */
  datatype CsvMember = CsvMember(bioguideId: Option<string>, name: Option<string>, state: Option<string>,
                                 district: Option<string>, party: Option<string>, fecIds: Option<string>)

  /** A normalised member: a falsy BioGuide ID becomes null, and the FEC IDs become a list. */
  datatype Member = Member(bioguideId: Option<string>, name: Option<string>, state: Option<string>,
                           district: Option<string>, party: Option<string>, fecIds: seq<string>)

  function TrimAll(xs: seq<string>): (r: seq<string>)
    ensures |r| == |xs| && forall i :: 0 <= i < |xs| ==> r[i] == Trim(xs[i], JavaScript)
  {
    if xs == [] then [] else [Trim(xs[0], JavaScript)] + TrimAll(xs[1..])
  }

  /** `(cell || "").split(",").map((s) => s.trim()).filter(Boolean)`. */
  function ParseFecIds(cell: Option<string>): (ids: seq<string>)
    ensures forall i :: 0 <= i < |ids| ==> ids[i] != ""
  {
    NonEmpty(TrimAll(Split(cell.GetOr(""), ',')))
  }

  /** A missing or empty cell gives no IDs. */
  lemma BlankCell(cell: Option<string>)
    requires cell.None? || cell.value == ""
    ensures ParseFecIds(cell) == []
  {
    assert cell.GetOr("") == "";
    assert Split("", ',') == [""];
    assert |Trim("", JavaScript)| == 0;
    assert TrimAll([""]) == [""];
    assert NonEmpty([""]) == [];
  }

  /** No parsed ID holds a comma. */
  lemma ParsedHaveNoComma(cell: Option<string>)
    ensures forall x :: x in ParseFecIds(cell) ==> ',' !in x
  {
    var pieces := Split(cell.GetOr(""), ',');
    TrimKeepsOut(pieces, ',');
    NonEmptyKeepsOut(TrimAll(pieces), ',');
  }

  lemma TrimKeepsOut(xs: seq<string>, c: char)
    requires forall i :: 0 <= i < |xs| ==> c !in xs[i]
    ensures forall i :: 0 <= i < |TrimAll(xs)| ==> c !in TrimAll(xs)[i]
  {
    forall i | 0 <= i < |xs| ensures c !in TrimAll(xs)[i] {
      TrimWithin(xs[i], JavaScript);
    }
  }

  lemma NonEmptyKeepsOut(xs: seq<string>, c: char)
    requires forall i :: 0 <= i < |xs| ==> c !in xs[i]
    ensures forall x :: x in NonEmpty(xs) ==> c !in x
  {
  }

  predicate Trimmed(s: string) {
    Trim(s, JavaScript) == s
  }

  lemma TrimAllTrimmed(xs: seq<string>)
    requires forall i :: 0 <= i < |xs| ==> Trimmed(xs[i])
    ensures TrimAll(xs) == xs
  {
  }

  /** Non-empty, trimmed IDs written comma-separated parse back as the same list. */
  lemma ParseJoined(ids: seq<string>)
    requires forall i :: 0 <= i < |ids| ==> ids[i] != "" && ',' !in ids[i] && Trimmed(ids[i])
    ensures ParseFecIds(Some(Join(ids, ","))) == ids
  {
    if ids == [] {
      BlankCell(Some(""));
    } else {
      var text := Join(ids, ",");
      assert ParseFecIds(Some(text)) == NonEmpty(TrimAll(Split(text, ',')));
      SplitJoin(ids, ',');
      assert Split(text, ',') == ids;
      TrimAllTrimmed(ids);
      NonEmptyAll(ids);
    }
  }

  function Normalise(m: CsvMember): (r: Member)
    ensures r.bioguideId.Some? <==> m.bioguideId.Some? && m.bioguideId.value != ""
    ensures r.bioguideId.Some? ==> r.bioguideId == m.bioguideId
    ensures r.fecIds == ParseFecIds(m.fecIds)
    ensures r.name == m.name && r.state == m.state && r.district == m.district && r.party == m.party
  {
    var bio := if m.bioguideId.Some? && m.bioguideId.value != "" then m.bioguideId else None;
    Member(bio, m.name, m.state, m.district, m.party, ParseFecIds(m.fecIds))
  }

  function NormaliseAll(ms: seq<CsvMember>): (r: seq<Member>)
    ensures |r| == |ms| && forall i :: 0 <= i < |ms| ==> r[i] == Normalise(ms[i])
  {
    if ms == [] then [] else [Normalise(ms[0])] + NormaliseAll(ms[1..])
  }

  // ---------------------------------------------------------------- the query string

  /**
   * `fecGet`'s search parameters: the URL's own, then `api_key`, then `per_page=100` unless
   * already there, then every parameter that is not null or undefined, in order.
   */
  function QuerySpec(existing: map<string, string>, key: string, params: seq<(string, Option<string>)>): map<string, string> {
    var base := existing["api_key" := key];
    var paged := if "per_page" in base then base else base["per_page" := "100"];
    AssignAll(paged, Present(params))
  }

  function Present(params: seq<(string, Option<string>)>): (r: seq<(string, string)>)
    ensures forall q :: q in r ==> (q.0, Some(q.1)) in params
  {
    if params == [] then []
    else
      var init := Present(params[..|params| - 1]);
      var last := params[|params| - 1];
      if last.1.Some? then init + [(last.0, last.1.value)] else init
  }

  method FecQuery(existing: map<string, string>, key: string, params: seq<(string, Option<string>)>) returns (q: map<string, string>)
    ensures q == QuerySpec(existing, key, params)
  {
    q := existing["api_key" := key];
    if "per_page" !in q {
      q := q["per_page" := "100"];
    }
    ghost var base := q;
    for i := 0 to |params|
      invariant q == AssignAll(base, Present(params[..i]))
    {
      assert params[..i + 1][..i] == params[..i];
      if params[i].1.Some? {
        q := q[params[i].0 := params[i].1.value];
      }
    }
    assert params[..|params|] == params;
  }

  /** The key is always sent, and `per_page` always present, unless a parameter overrides them. */
  lemma QueryKeys(existing: map<string, string>, key: string, params: seq<(string, Option<string>)>)
    requires forall i :: 0 <= i < |params| ==> params[i].0 != "api_key" && params[i].0 != "per_page"
    ensures var q := QuerySpec(existing, key, params);
      && "api_key" in q && q["api_key"] == key
      && "per_page" in q && q["per_page"] == (if "per_page" in existing then existing["per_page"] else "100")
  {
    var base := existing["api_key" := key];
    var paged := if "per_page" in base then base else base["per_page" := "100"];
    AssignAllUntouched(paged, Present(params), "api_key");
    AssignAllUntouched(paged, Present(params), "per_page");
  }

  // ---------------------------------------------------------------- candidate totals

  datatype Totals = Totals(cycle: Option<int>, totalReceipts: Option<real>, individualContributions: Option<real>,
                           pacContributions: Option<real>, disbursements: Option<real>,
                           cashOnHandEndPeriod: Option<real>, debtsOwedByCommittee: Option<real>)

  /** `(t.cycle || 0)`. */
  function CycleOf(t: Totals): int { t.cycle.GetOr(0) }

  /** `(t.total_receipts || 0)`. */
  function ReceiptsOf(t: Totals): real { t.totalReceipts.GetOr(0.0) }

  /**
   * The most recent cycle's totals: the first result, after a stable sort by descending
   * cycle, is the earliest result holding the greatest cycle.
   */
  function Latest(results: seq<Totals>): (r: Option<nat>)
    ensures r.None? <==> results == []
    ensures r.Some? ==> r.value < |results|
    ensures r.Some? ==> forall j :: 0 <= j < |results| ==> CycleOf(results[j]) <= CycleOf(results[r.value])
    ensures r.Some? ==> forall j :: 0 <= j < r.value ==> CycleOf(results[j]) < CycleOf(results[r.value])
  {
    if results == [] then None
    else
      match Latest(results[..|results| - 1])
      case None => Some(|results| - 1)
      case Some(k) =>
        if CycleOf(results[|results| - 1]) > CycleOf(results[k]) then Some(|results| - 1) else Some(k)
  }

  /** `fetchCandidateTotals`: the response's results (`[]` when missing) reduced to the latest. */
  function CandidateTotals(results: Option<seq<Totals>>): Option<Totals> {
    var rs := results.GetOr([]);
    match Latest(rs) case Some(k) => Some(rs[k]) case None => None
  }

  /** What fetching one ID gives: the results list of the response, or an error. */
  type Fetch = string -> Result<Option<seq<Totals>>, string>

  function TotalsFor(fetch: Fetch, id: string): Option<Totals> {
    match fetch(id)
    case Failure(_) => None
    case Success(results) => CandidateTotals(results)
  }

  /** One step of the running best: new totals replace it only with strictly greater receipts. */
  function Step(best: Option<(string, Totals)>, fetch: Fetch, id: string): Option<(string, Totals)> {
    match TotalsFor(fetch, id)
    case None => best
    case Some(t) => if best.None? || ReceiptsOf(t) > ReceiptsOf(best.value.1) then Some((id, t)) else best
  }

  function Best(fetch: Fetch, ids: seq<string>): Option<(string, Totals)>
    decreases |ids|
  {
    if ids == [] then None else Step(Best(fetch, ids[..|ids| - 1]), fetch, ids[|ids| - 1])
  }

  /** The running best over one member's IDs; an ID whose fetch fails is only warned about. */
  method BestOf(fetch: Fetch, ids: seq<string>) returns (best: Option<(string, Totals)>)
    ensures best == Best(fetch, ids)
  {
    best := None;
    for i := 0 to |ids|
      invariant best == Best(fetch, ids[..i])
    {
      assert ids[..i + 1][..i] == ids[..i];
      var response := fetch(ids[i]);
      if response.Success? {
        var totals := CandidateTotals(response.value);
        if totals.Some? {
          if best.None? || ReceiptsOf(totals.value) > ReceiptsOf(best.value.1) {
            best := Some((ids[i], totals.value));
          }
        }
      }
    }
    assert ids[..|ids|] == ids;
  }

  /**
   * There is a best exactly when some ID produced totals; its receipts are at least those of
   * every ID's totals and strictly more than those of every earlier ID's.
   */
  lemma {:induction false} BestSpec(fetch: Fetch, ids: seq<string>)
    ensures Best(fetch, ids).None? <==> forall i :: 0 <= i < |ids| ==> TotalsFor(fetch, ids[i]).None?
    ensures Best(fetch, ids).Some? ==>
      var b := Best(fetch, ids).value;
      && b.0 in ids && TotalsFor(fetch, b.0) == Some(b.1)
      && forall i :: 0 <= i < |ids| && TotalsFor(fetch, ids[i]).Some? ==> ReceiptsOf(TotalsFor(fetch, ids[i]).value) <= ReceiptsOf(b.1)
    decreases |ids|
  {
    if ids != [] {
      var init := ids[..|ids| - 1];
      BestSpec(fetch, init);
      assert forall i :: 0 <= i < |init| ==> init[i] == ids[i];
      if Best(fetch, init).Some? {
        assert Best(fetch, init).value.0 in ids;
      }
    }
  }

  /** An ID whose fetch fails changes nothing: the best is that of the other IDs. */
  lemma {:induction false} FailingIdSkipped(fetch: Fetch, p: seq<string>, bad: string, q: seq<string>)
    requires fetch(bad).Failure?
    ensures Best(fetch, p + [bad] + q) == Best(fetch, p + q)
    decreases |q|
  {
    if q == [] {
      assert (p + [bad] + q)[..|p|] == p;
      assert p + q == p;
    } else {
      var q' := q[..|q| - 1];
      FailingIdSkipped(fetch, p, bad, q');
      assert (p + [bad] + q)[..|p + [bad] + q| - 1] == p + [bad] + q';
      assert (p + q)[..|p + q| - 1] == p + q';
    }
  }

  // ---------------------------------------------------------------- the donors file

  datatype Headline = Headline(cycle: Option<int>, totalReceipts: Option<real>, individualContributions: Option<real>,
                               pacContributions: Option<real>, contributionsFromIndividuals: Option<real>,
                               contributionsFromPacs: Option<real>, disbursements: Option<real>,
                               cashOnHandEndPeriod: Option<real>, debtsOwedByCommittee: Option<real>)

  datatype DonorEntry = DonorEntry(bioguideId: Option<string>, name: Option<string>, state: Option<string>,
                                   district: Option<string>, party: Option<string>, fecIds: seq<string>,
                                   totals: Option<Headline>)

  function HeadlineOf(t: Totals): (h: Headline)
    ensures h.contributionsFromIndividuals == h.individualContributions == t.individualContributions
    ensures h.contributionsFromPacs == h.pacContributions == t.pacContributions
    ensures h.cycle == t.cycle && h.totalReceipts == t.totalReceipts
  {
    Headline(t.cycle, t.totalReceipts, t.individualContributions, t.pacContributions, t.individualContributions,
             t.pacContributions, t.disbursements, t.cashOnHandEndPeriod, t.debtsOwedByCommittee)
  }

  function EntryOf(fetch: Fetch, m: Member): DonorEntry {
    var best := Best(fetch, m.fecIds);
    DonorEntry(m.bioguideId, m.name, m.state, m.district, m.party, m.fecIds,
               match best case Some((_, t)) => Some(HeadlineOf(t)) case None => None)
  }

  function EntriesOf(fetch: Fetch, ms: seq<Member>): (r: seq<DonorEntry>)
    ensures |r| == |ms| && forall i :: 0 <= i < |ms| ==> r[i] == EntryOf(fetch, ms[i])
  {
    if ms == [] then [] else [EntryOf(fetch, ms[0])] + EntriesOf(fetch, ms[1..])
  }

  /** `buildDonorsByMember`, reading each member's already parsed list of IDs. */
  method BuildDonorsByMember(fetch: Fetch, members: seq<Member>) returns (out: seq<DonorEntry>)
    ensures out == EntriesOf(fetch, members)
  {
    out := [];
    for i := 0 to |members|
      invariant |out| == i && forall j :: 0 <= j < i ==> out[j] == EntryOf(fetch, members[j])
    {
      var m := members[i];
      var best := BestOf(fetch, m.fecIds);
      var totals := match best case Some((_, t)) => Some(HeadlineOf(t)) case None => None;
      out := out + [DonorEntry(m.bioguideId, m.name, m.state, m.district, m.party, m.fecIds, totals)];
    }
  }

  /** One entry per member, in order, with totals exactly when some ID produced them. */
  lemma EntriesSpec(fetch: Fetch, ms: seq<Member>, i: nat)
    requires i < |ms|
    ensures var e := EntriesOf(fetch, ms)[i];
      && e.bioguideId == ms[i].bioguideId && e.fecIds == ms[i].fecIds
      && (e.totals.None? <==> forall k :: 0 <= k < |ms[i].fecIds| ==> TotalsFor(fetch, ms[i].fecIds[k]).None?)
  {
    BestSpec(fetch, ms[i].fecIds);
  }

  // ---------------------------------------------------------------- the run

  /** Live mode needs a key and at least one member row. */
  predicate LiveMode(key: string, members: seq<CsvMember>) {
    key != "" && |members| > 0
  }

  /** What a run leaves: the demo fallback, both live files, or the members file and an error. */
  datatype Run = Fallback | Live(members: seq<Member>, donors: seq<DonorEntry>) | Crashed(members: seq<Member>, error: string)

  const NotAFunction: string := "TypeError: (m.fec_ids || \"\").split is not a function"

  /** What a member's `fec_ids` holds when the donor build reads it: CSV text, or a parsed array. */
  datatype IdsCell = IdsText(text: Option<string>) | IdsArray(ids: seq<string>)

  /**
   * The donor build's own parse, `(m.fec_ids || "").split(",")`: on text it is the parse
   * above; an array, even an empty one, is truthy and has no `split`.
   */
  function DonorIds(cell: IdsCell): (r: Result<seq<string>, string>)
    ensures r.Success? <==> cell.IdsText?
    ensures cell.IdsText? ==> r.value == ParseFecIds(cell.text)
    ensures cell.IdsArray? ==> r.error == NotAFunction
  {
    match cell
    case IdsText(text) => Success(ParseFecIds(text))
    case IdsArray(_) => Failure(NotAFunction)
  }

  /** Handed the CSV text, the donor build would read the very IDs the members file holds. */
  lemma TextCellAgrees(m: CsvMember)
    ensures DonorIds(IdsText(m.fecIds)) == Success(Normalise(m).fecIds)
  {
  }

  /** The run as written: the donor build re-parses `fec_ids`, which is now an array. */
  function RunAsWritten(key: string, members: seq<CsvMember>): (r: Run)
    ensures !LiveMode(key, members) ==> r == Fallback
  {
    if !LiveMode(key, members) then Fallback
    else
      var normalized := NormaliseAll(members);
      match DonorIds(IdsArray(normalized[0].fecIds))
      case Failure(e) => Crashed(normalized, e)
      case Success(_) => Live(normalized, [])
  }

  /** Every live run as written stops with the type error after writing the members file. */
  lemma LiveRunCrashes(key: string, members: seq<CsvMember>)
    requires LiveMode(key, members)
    ensures RunAsWritten(key, members) == Crashed(NormaliseAll(members), NotAFunction)
  {
  }

  /** The run as intended: the donor build uses the parsed lists. */
  method BuildRun(key: string, members: seq<CsvMember>, fetch: Fetch) returns (r: Run)
    ensures !LiveMode(key, members) ==> r == Fallback
    ensures LiveMode(key, members) ==> r == Live(NormaliseAll(members), EntriesOf(fetch, NormaliseAll(members)))
  {
    if !(key != "" && |members| > 0) {
      return Fallback;
    }
    var normalized := NormaliseAll(members);
    var donors := BuildDonorsByMember(fetch, normalized);
    r := Live(normalized, donors);
  }
}
