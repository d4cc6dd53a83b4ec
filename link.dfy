/**
 * Linking legislators to FEC candidates: for every cycle and every legislator, the FEC
 * candidate rows whose ID is among the legislator's crosswalk IDs each give one link.
 */
module Link {
  import opened Wrappers
  import opened Text

  const LinkMethod: string := "yaml_direct"
  const LinkScore: real := 1.0

  /** A row of the crosswalk; a missing `fec_candidate_ids` cell is None. */
  datatype XwalkRow = XwalkRow(bioguide: string, fecCandidateIds: Option<string>)

  datatype CandidateLink = CandidateLink(cycle: int, bioguide: string, candId: string, linkMethod: string, score: real)

  /** The first crosswalk row of a legislator. */
  function FirstXwalk(xwalk: seq<XwalkRow>, bioguide: string): (r: Option<XwalkRow>)
    ensures r.Some? ==> r.value in xwalk && r.value.bioguide == bioguide
    ensures r.None? <==> forall i :: 0 <= i < |xwalk| ==> xwalk[i].bioguide != bioguide
    decreases |xwalk|
  {
    if xwalk == [] then None
    else if xwalk[0].bioguide == bioguide then Some(xwalk[0])
    else
      var r := FirstXwalk(xwalk[1..], bioguide);
      assert forall i :: 1 <= i < |xwalk| ==> xwalk[i] == xwalk[1..][i - 1];
      r
  }

  /**
   * A legislator's FEC IDs: the non-empty `;`-pieces of their first crosswalk row, a missing
   * cell read as ""; a legislator without a crosswalk row is an error.
   */
  function CandidateIds(xwalk: seq<XwalkRow>, bioguide: string): (r: Result<seq<string>, string>)
    ensures r.Failure? <==> forall i :: 0 <= i < |xwalk| ==> xwalk[i].bioguide != bioguide
    ensures r.Success? ==> forall id :: id in r.value ==> id != "" && ';' !in id
  {
    match FirstXwalk(xwalk, bioguide)
    case None => Failure("no crosswalk row for " + bioguide)
    case Some(row) =>
      var pieces := NonEmpty(Split(row.fecCandidateIds.GetOr(""), ';'));
      assert forall id :: id in pieces ==> ';' !in id by {
        forall id | id in pieces ensures ';' !in id {
          assert id in Split(row.fecCandidateIds.GetOr(""), ';');
        }
      }
      Success(pieces)
  }

  /** One link per FEC row whose ID is in the list, in the order of the FEC file. */
  function LinksOf(cycle: int, bioguide: string, fec: seq<string>, ids: seq<string>): (r: seq<CandidateLink>)
    ensures forall l :: l in r ==> l == CandidateLink(cycle, bioguide, l.candId, LinkMethod, LinkScore) && l.candId in ids && l.candId in fec
    decreases |fec|
  {
    if fec == [] then []
    else (if fec[0] in ids then [CandidateLink(cycle, bioguide, fec[0], LinkMethod, LinkScore)] else [])
         + LinksOf(cycle, bioguide, fec[1..], ids)
  }

  /** Matching preserves the order of the FEC file: a split file links as its two halves. */
  lemma {:induction false} LinksOfAppend(cycle: int, bioguide: string, a: seq<string>, b: seq<string>, ids: seq<string>)
    ensures LinksOf(cycle, bioguide, a + b, ids) == LinksOf(cycle, bioguide, a, ids) + LinksOf(cycle, bioguide, b, ids)
    decreases |a|
  {
    if a == [] {
      assert a + b == b;
    } else {
      assert (a + b)[1..] == a[1..] + b;
      LinksOfAppend(cycle, bioguide, a[1..], b, ids);
    }
  }

  /** Each FEC row gives one link when its ID is in the list, so duplicate rows give duplicate links. */
  lemma LinksOfOne(cycle: int, bioguide: string, candId: string, ids: seq<string>)
    ensures LinksOf(cycle, bioguide, [candId], ids)
         == if candId in ids then [CandidateLink(cycle, bioguide, candId, LinkMethod, LinkScore)] else []
  {
    assert [candId][1..] == [];
  }

  /** The inner loop over the legislators of one cycle, from legislator `i` on, appending to `acc`. */
  function CycleLinks(cycle: int, fec: seq<string>, legislators: seq<string>, xwalk: seq<XwalkRow>, i: nat, acc: seq<CandidateLink>)
    : Result<seq<CandidateLink>, string>
    requires i <= |legislators|
    decreases |legislators| - i
  {
    if i == |legislators| then Success(acc)
    else match CandidateIds(xwalk, legislators[i])
      case Failure(e) => Failure(e)
      case Success(ids) => CycleLinks(cycle, fec, legislators, xwalk, i + 1, acc + LinksOf(cycle, legislators[i], fec, ids))
  }

  /**
   * The outer loop over the cycles, from cycle `c` on; `fecFiles` holds the candidate IDs of
   * each cycle's FEC file, and a cycle without a file is an error.
   */
  function AllLinks(cycles: seq<int>, fecFiles: map<int, seq<string>>, legislators: seq<string>, xwalk: seq<XwalkRow>,
                    c: nat, acc: seq<CandidateLink>): Result<seq<CandidateLink>, string>
    requires c <= |cycles|
    decreases |cycles| - c
  {
    if c == |cycles| then Success(acc)
    else if cycles[c] !in fecFiles then Failure("no FEC candidate file for a cycle")
    else match CycleLinks(cycles[c], fecFiles[cycles[c]], legislators, xwalk, 0, acc)
      case Failure(e) => Failure(e)
      case Success(next) => AllLinks(cycles, fecFiles, legislators, xwalk, c + 1, next)
  }

  /** The rows of one FEC file matching a legislator's IDs, gathered row by row. */
  method MatchedLinks(cycle: int, bioguide: string, fec: seq<string>, ids: seq<string>) returns (more: seq<CandidateLink>)
    ensures more == LinksOf(cycle, bioguide, fec, ids)
  {
    more := [];
    for j := 0 to |fec|
      invariant more == LinksOf(cycle, bioguide, fec[..j], ids)
    {
      LinksOfAppend(cycle, bioguide, fec[..j], [fec[j]], ids);
      LinksOfOne(cycle, bioguide, fec[j], ids);
      assert fec[..j + 1] == fec[..j] + [fec[j]];
      if fec[j] in ids {
        more := more + [CandidateLink(cycle, bioguide, fec[j], LinkMethod, LinkScore)];
      }
    }
    assert fec[..|fec|] == fec;
  }

  /** `link_legislators_candidates`: the nested loops appending links. */
  method LinkLegislatorsCandidates(cycles: seq<int>, fecFiles: map<int, seq<string>>, legislators: seq<string>, xwalk: seq<XwalkRow>)
    returns (r: Result<seq<CandidateLink>, string>)
    ensures r == AllLinks(cycles, fecFiles, legislators, xwalk, 0, [])
  {
    var links: seq<CandidateLink> := [];
    for c := 0 to |cycles|
      invariant AllLinks(cycles, fecFiles, legislators, xwalk, 0, []) == AllLinks(cycles, fecFiles, legislators, xwalk, c, links)
    {
      if cycles[c] !in fecFiles {
        return Failure("no FEC candidate file for a cycle");
      }
      var fec := fecFiles[cycles[c]];
      ghost var start := links;
      for i := 0 to |legislators|
        invariant CycleLinks(cycles[c], fec, legislators, xwalk, 0, start) == CycleLinks(cycles[c], fec, legislators, xwalk, i, links)
      {
        var ids := CandidateIds(xwalk, legislators[i]);
        if ids.Failure? {
          return Failure(ids.error);
        }
        var more := MatchedLinks(cycles[c], legislators[i], fec, ids.value);
        links := links + more;
      }
    }
    r := Success(links);
  }

  /** What every link says: its cycle, its legislator, and an ID both in their crosswalk list and in that cycle's FEC file. */
  ghost predicate ValidLink(l: CandidateLink, cycles: seq<int>, fecFiles: map<int, seq<string>>, legislators: seq<string>, xwalk: seq<XwalkRow>) {
    && l.linkMethod == LinkMethod && l.score == LinkScore
    && l.cycle in cycles && l.cycle in fecFiles && l.candId in fecFiles[l.cycle]
    && l.bioguide in legislators
    && CandidateIds(xwalk, l.bioguide).Success? && l.candId in CandidateIds(xwalk, l.bioguide).value
  }

  lemma {:induction false} CycleLinksValid(cycles: seq<int>, fecFiles: map<int, seq<string>>, legislators: seq<string>, xwalk: seq<XwalkRow>,
                                           c: nat, i: nat, acc: seq<CandidateLink>)
    requires c < |cycles| && cycles[c] in fecFiles && i <= |legislators|
    requires forall l :: l in acc ==> ValidLink(l, cycles, fecFiles, legislators, xwalk)
    ensures var r := CycleLinks(cycles[c], fecFiles[cycles[c]], legislators, xwalk, i, acc);
      r.Success? ==> forall l :: l in r.value ==> ValidLink(l, cycles, fecFiles, legislators, xwalk)
    decreases |legislators| - i
  {
    if i < |legislators| {
      var ids := CandidateIds(xwalk, legislators[i]);
      if ids.Success? {
        var more := LinksOf(cycles[c], legislators[i], fecFiles[cycles[c]], ids.value);
        forall l | l in acc + more ensures ValidLink(l, cycles, fecFiles, legislators, xwalk) {
          if l in more {
            assert l == CandidateLink(cycles[c], legislators[i], l.candId, LinkMethod, LinkScore);
          }
        }
        CycleLinksValid(cycles, fecFiles, legislators, xwalk, c, i + 1, acc + more);
      }
    }
  }

  lemma {:induction false} AllLinksValidFrom(cycles: seq<int>, fecFiles: map<int, seq<string>>, legislators: seq<string>, xwalk: seq<XwalkRow>,
                                             c: nat, acc: seq<CandidateLink>)
    requires c <= |cycles|
    requires forall l :: l in acc ==> ValidLink(l, cycles, fecFiles, legislators, xwalk)
    ensures var r := AllLinks(cycles, fecFiles, legislators, xwalk, c, acc);
      r.Success? ==> forall l :: l in r.value ==> ValidLink(l, cycles, fecFiles, legislators, xwalk)
    decreases |cycles| - c
  {
    if c < |cycles| && cycles[c] in fecFiles {
      CycleLinksValid(cycles, fecFiles, legislators, xwalk, c, 0, acc);
      var r := CycleLinks(cycles[c], fecFiles[cycles[c]], legislators, xwalk, 0, acc);
      if r.Success? {
        AllLinksValidFrom(cycles, fecFiles, legislators, xwalk, c + 1, r.value);
      }
    }
  }

  /**
   * Every link carries a requested cycle, method "yaml_direct" and score 1.0, and an ID that
   * is both among its legislator's crosswalk IDs and in that cycle's FEC file.
   */
  lemma AllLinksValid(cycles: seq<int>, fecFiles: map<int, seq<string>>, legislators: seq<string>, xwalk: seq<XwalkRow>)
    ensures var r := AllLinks(cycles, fecFiles, legislators, xwalk, 0, []);
      r.Success? ==> forall l :: l in r.value ==> ValidLink(l, cycles, fecFiles, legislators, xwalk)
  {
    AllLinksValidFrom(cycles, fecFiles, legislators, xwalk, 0, []);
  }

  lemma {:induction false} CycleLinksFails(cycle: int, fec: seq<string>, legislators: seq<string>, xwalk: seq<XwalkRow>,
                                           i: nat, acc: seq<CandidateLink>, k: nat)
    requires i <= k < |legislators| && CandidateIds(xwalk, legislators[k]).Failure?
    ensures CycleLinks(cycle, fec, legislators, xwalk, i, acc).Failure?
    decreases k - i
  {
    var ids := CandidateIds(xwalk, legislators[i]);
    if i < k && ids.Success? {
      CycleLinksFails(cycle, fec, legislators, xwalk, i + 1, acc + LinksOf(cycle, legislators[i], fec, ids.value), k);
    }
  }

  /** With at least one cycle whose file exists, a legislator without a crosswalk row makes the whole linking fail. */
  lemma MissingXwalkFails(cycles: seq<int>, fecFiles: map<int, seq<string>>, legislators: seq<string>, xwalk: seq<XwalkRow>, k: nat)
    requires |cycles| > 0 && cycles[0] in fecFiles
    requires k < |legislators| && forall i :: 0 <= i < |xwalk| ==> xwalk[i].bioguide != legislators[k]
    ensures AllLinks(cycles, fecFiles, legislators, xwalk, 0, []).Failure?
  {
    CycleLinksFails(cycles[0], fecFiles[cycles[0]], legislators, xwalk, 0, [], k);
  }

  /**
   * The crosswalk cell written as the `;`-join of a legislator's IDs reads back as those IDs,
   * provided they are non-empty and contain no `;`.
   */
  lemma CrosswalkRoundTrip(bioguide: string, ids: seq<string>, rest: seq<XwalkRow>)
    requires forall i :: 0 <= i < |ids| ==> ids[i] != "" && ';' !in ids[i]
    ensures CandidateIds([XwalkRow(bioguide, Some(Join(ids, ";")))] + rest, bioguide) == Success(ids)
  {
    SplitJoinNonEmpty(ids, ';');
  }
}
