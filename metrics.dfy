/**
 * The metrics stage of the analysis pipeline: a finance summary per candidate-totals row, a
 * vote summary (participation and party unity) per legislator, and an alignment flag per
 * legislator-candidate link. Tables are sequences of records; a missing numeric cell is None.
 */
module Metrics {
  import opened Wrappers
  import Maps

  /** A contribution counts as small-dollar when its amount is at most this. */
  const SmallDollarLimit: real := 200.0
  /** The alignment flag needs receipts strictly above this ... */
  const ReceiptsThreshold: real := 100000.0
  /** ... and unity strictly below this. */
  const UnityThreshold: real := 0.5

  // ------------------------------------------------------------------ finance

  datatype CandidateTotals = CandidateTotals(candId: string, totalReceipts: Option<real>)
  datatype Receipt = Receipt(candId: string, amount: Option<real>)
  datatype FinanceRow = FinanceRow(candId: string, totalReceipts: Option<real>, smallDollar: real)

  /** A missing amount compares false with 200, so it is never small. */
  predicate IsSmall(r: Receipt) { r.amount.Some? && r.amount.value <= SmallDollarLimit }

  /** The small-dollar total of one candidate: its receipts of at most 200, summed. */
  function SmallDollar(receipts: seq<Receipt>, cand: string): real
    decreases |receipts|
  {
    if receipts == [] then 0.0
    else
      var last := receipts[|receipts| - 1];
      SmallDollar(receipts[..|receipts| - 1], cand) + (if last.candId == cand && IsSmall(last) then last.amount.value else 0.0)
  }

  /** The small receipts as (candidate, amount) pairs, in order: the filtered table that is grouped. */
  function SmallPairs(receipts: seq<Receipt>): (r: seq<(string, real)>)
    decreases |receipts|
  {
    if receipts == [] then []
    else
      var last := receipts[|receipts| - 1];
      SmallPairs(receipts[..|receipts| - 1]) + (if IsSmall(last) then [(last.candId, last.amount.value)] else [])
  }

  lemma {:induction false} SmallPairsSum(receipts: seq<Receipt>, cand: string)
    ensures Maps.SumFor(SmallPairs(receipts), cand) == SmallDollar(receipts, cand)
    decreases |receipts|
  {
    if receipts != [] {
      var init := receipts[..|receipts| - 1];
      var last := receipts[|receipts| - 1];
      SmallPairsSum(init, cand);
      var extra := if IsSmall(last) then [(last.candId, last.amount.value)] else [];
      Maps.SumForAppend(SmallPairs(init), extra, cand);
      if IsSmall(last) {
        assert extra[..0] == [];
      }
    }
  }

  /** The grouped small sums, looked up with a missing group read as 0 (the left merge and `fillna(0)`). */
  lemma SmallGroups(receipts: seq<Receipt>)
    ensures forall cand :: Maps.Get(Maps.SumByKey(SmallPairs(receipts)), cand, 0.0) == SmallDollar(receipts, cand)
  {
    forall cand ensures Maps.Get(Maps.SumByKey(SmallPairs(receipts)), cand, 0.0) == SmallDollar(receipts, cand) {
      Maps.SumByKeyAt(SmallPairs(receipts), cand);
      SmallPairsSum(receipts, cand);
    }
  }

  /**
   * `_finance_summary`: the totals rows, in order, each with its candidate's small-dollar sum
   * (0 when it has none).
   */
  function FinanceSummary(totals: seq<CandidateTotals>, receipts: seq<Receipt>): (out: seq<FinanceRow>)
    ensures |out| == |totals|
    ensures forall i :: 0 <= i < |totals| ==>
      out[i] == FinanceRow(totals[i].candId, totals[i].totalReceipts, SmallDollar(receipts, totals[i].candId))
  {
    var small := Maps.SumByKey(SmallPairs(receipts));
    SmallGroups(receipts);
    seq(|totals|, i requires 0 <= i < |totals| => FinanceRow(totals[i].candId, totals[i].totalReceipts, Maps.Get(small, totals[i].candId, 0.0)))
  }

  /** A candidate without any receipt of at most 200 has a small-dollar total of 0. */
  lemma {:induction false} SmallDollarNone(receipts: seq<Receipt>, cand: string)
    requires forall i :: 0 <= i < |receipts| && receipts[i].candId == cand ==> !IsSmall(receipts[i])
    ensures SmallDollar(receipts, cand) == 0.0
    decreases |receipts|
  {
    if receipts != [] {
      SmallDollarNone(receipts[..|receipts| - 1], cand);
    }
  }

  /** Small-dollar totals add up over the concatenation of two receipt tables. */
  lemma {:induction false} SmallDollarAppend(a: seq<Receipt>, b: seq<Receipt>, cand: string)
    ensures SmallDollar(a + b, cand) == SmallDollar(a, cand) + SmallDollar(b, cand)
    decreases |b|
  {
    if b == [] {
      assert a + b == a;
    } else {
      var ab := a + b;
      assert ab[..|ab| - 1] == a + b[..|b| - 1];
      SmallDollarAppend(a, b[..|b| - 1], cand);
    }
  }

  // ------------------------------------------------------------------ votes

  datatype VoteRecord = VoteRecord(voteId: string, bioguide: string, position: Option<string>)
  datatype LegislatorParty = LegislatorParty(bioguide: string, party: Option<string>)

  /** The most common position of a party on a vote; how ties are broken is not part of this model. */
  type Majority = (string, Option<string>) -> string

  /** The party of a legislator from legislators.csv (the left merge); None when not listed. */
  function PartyOf(legislators: seq<LegislatorParty>, bioguide: string): Option<string>
    decreases |legislators|
  {
    if legislators == [] then None
    else if legislators[0].bioguide == bioguide then legislators[0].party
    else PartyOf(legislators[1..], bioguide)
  }

  /** A record is "unity" when its position equals its party's majority position on that vote. */
  predicate IsUnity(r: VoteRecord, legislators: seq<LegislatorParty>, majority: Majority) {
    r.position == Some(majority(r.voteId, PartyOf(legislators, r.bioguide)))
  }

  /** How many records a legislator has. */
  function RecordCount(records: seq<VoteRecord>, bioguide: string): (n: nat)
    ensures n <= |records|
    decreases |records|
  {
    if records == [] then 0
    else RecordCount(records[..|records| - 1], bioguide) + (if records[|records| - 1].bioguide == bioguide then 1 else 0)
  }

  /** How many of a legislator's records are unity records. */
  function UnityCount(records: seq<VoteRecord>, bioguide: string, legislators: seq<LegislatorParty>, majority: Majority): (n: nat)
    ensures n <= RecordCount(records, bioguide)
    decreases |records|
  {
    if records == [] then 0
    else
      var last := records[|records| - 1];
      UnityCount(records[..|records| - 1], bioguide, legislators, majority)
        + (if last.bioguide == bioguide && IsUnity(last, legislators, majority) then 1 else 0)
  }

  /** One summary row: participation is None when there are no votes at all (a division by zero). */
  datatype VoteStats = VoteStats(participationRate: Option<real>, unity: real)

  function CountPairs(records: seq<VoteRecord>): (r: seq<(string, real)>)
    ensures |r| == |records| && forall i :: 0 <= i < |records| ==> r[i] == (records[i].bioguide, 1.0)
  {
    seq(|records|, i requires 0 <= i < |records| => (records[i].bioguide, 1.0))
  }

  function UnityPairs(records: seq<VoteRecord>, legislators: seq<LegislatorParty>, majority: Majority): (r: seq<(string, real)>)
    ensures |r| == |records|
    ensures forall i :: 0 <= i < |records| ==> r[i] == (records[i].bioguide, if IsUnity(records[i], legislators, majority) then 1.0 else 0.0)
  {
    seq(|records|, i requires 0 <= i < |records| => (records[i].bioguide, if IsUnity(records[i], legislators, majority) then 1.0 else 0.0))
  }

  lemma {:induction false} CountPairsSum(records: seq<VoteRecord>, b: string)
    ensures Maps.SumFor(CountPairs(records), b) == RecordCount(records, b) as real
    decreases |records|
  {
    if records != [] {
      var init := records[..|records| - 1];
      assert CountPairs(records)[..|records| - 1] == CountPairs(init);
      CountPairsSum(init, b);
    }
  }

  lemma {:induction false} UnityPairsSum(records: seq<VoteRecord>, b: string, legislators: seq<LegislatorParty>, majority: Majority)
    ensures Maps.SumFor(UnityPairs(records, legislators, majority), b) == UnityCount(records, b, legislators, majority) as real
    decreases |records|
  {
    if records != [] {
      var init := records[..|records| - 1];
      assert UnityPairs(records, legislators, majority)[..|records| - 1] == UnityPairs(init, legislators, majority);
      UnityPairsSum(init, b, legislators, majority);
    }
  }

  lemma {:induction false} RecordCountPositive(records: seq<VoteRecord>, b: string, i: nat)
    requires i < |records| && records[i].bioguide == b
    ensures RecordCount(records, b) > 0
    decreases |records|
  {
    if i < |records| - 1 {
      RecordCountPositive(records[..|records| - 1], b, i);
    }
  }

  lemma VoteGroups(records: seq<VoteRecord>, legislators: seq<LegislatorParty>, majority: Majority)
    ensures forall b :: b in Maps.SumByKey(CountPairs(records)) <==> Maps.HasKey(CountPairs(records), b)
    ensures forall b :: Maps.Get(Maps.SumByKey(CountPairs(records)), b, 0.0) == RecordCount(records, b) as real
    ensures forall b :: Maps.Get(Maps.SumByKey(UnityPairs(records, legislators, majority)), b, 0.0)
                     == UnityCount(records, b, legislators, majority) as real
  {
    forall b ensures b in Maps.SumByKey(CountPairs(records)) <==> Maps.HasKey(CountPairs(records), b)
      ensures Maps.Get(Maps.SumByKey(CountPairs(records)), b, 0.0) == RecordCount(records, b) as real
      ensures Maps.Get(Maps.SumByKey(UnityPairs(records, legislators, majority)), b, 0.0)
           == UnityCount(records, b, legislators, majority) as real
    {
      Maps.SumByKeyAt(CountPairs(records), b);
      Maps.SumByKeyAt(UnityPairs(records, legislators, majority), b);
      CountPairsSum(records, b);
      UnityPairsSum(records, b, legislators, majority);
    }
  }

  /** Whether a legislator has at least one record. */
  predicate Participates(records: seq<VoteRecord>, b: string) {
    exists i :: 0 <= i < |records| && records[i].bioguide == b
  }

  /**
   * `_vote_summary`: one row per legislator with records; participation is their record
   * count over the number of votes, and unity the fraction of their records that are unity.
   */
  function VoteSummary(totalVotes: nat, records: seq<VoteRecord>, legislators: seq<LegislatorParty>, majority: Majority)
    : (out: map<string, VoteStats>)
    ensures forall b :: b in out <==> Participates(records, b)
    ensures forall b :: b in out ==>
      && RecordCount(records, b) > 0
      && out[b].unity == UnityCount(records, b, legislators, majority) as real / RecordCount(records, b) as real
      && out[b].participationRate == (if totalVotes == 0 then None else Some(RecordCount(records, b) as real / totalVotes as real))
  {
    var counts := Maps.SumByKey(CountPairs(records));
    var unity := Maps.SumByKey(UnityPairs(records, legislators, majority));
    VoteGroups(records, legislators, majority);
    assert forall b :: Maps.HasKey(CountPairs(records), b) <==> Participates(records, b) by {
      forall b ensures Maps.HasKey(CountPairs(records), b) <==> Participates(records, b) {
        if Participates(records, b) {
          var i :| 0 <= i < |records| && records[i].bioguide == b;
          assert CountPairs(records)[i].0 == b;
        }
      }
    }
    assert forall b :: b in counts ==> RecordCount(records, b) > 0 by {
      forall b | b in counts ensures RecordCount(records, b) > 0 {
        var i :| 0 <= i < |records| && records[i].bioguide == b;
        RecordCountPositive(records, b, i);
      }
    }
    map b | b in counts :: VoteStats(
      if totalVotes == 0 then None else Some(counts[b] / totalVotes as real),
      Maps.Get(unity, b, 0.0) / counts[b])
  }

  /** Unity is a fraction: it lies between 0 and 1. */
  lemma UnityIsFraction(totalVotes: nat, records: seq<VoteRecord>, legislators: seq<LegislatorParty>, majority: Majority, b: string)
    requires b in VoteSummary(totalVotes, records, legislators, majority)
    ensures 0.0 <= VoteSummary(totalVotes, records, legislators, majority)[b].unity <= 1.0
  {
    var n, u := RecordCount(records, b), UnityCount(records, b, legislators, majority);
    RatioAtMostOne(u, n);
  }

  lemma RatioAtMostOne(u: nat, n: nat)
    requires 0 < n && u <= n
    ensures 0.0 <= u as real / n as real <= 1.0
  {
    var q := u as real / n as real;
    assert q * n as real == u as real;
  }

  // ------------------------------------------------------------------ alignment

  datatype Link = Link(bioguide: string, candId: string)

  datatype AlignmentRow = AlignmentRow(link: Link, totalReceipts: Option<real>, smallDollar: Option<real>,
                                       participationRate: Option<real>, unity: Option<real>, flag: bool)

  /** The flag rule: receipts above 100000 and unity below 0.5, and a missing value compares false. */
  predicate Flag(totalReceipts: Option<real>, unity: Option<real>) {
    totalReceipts.Some? && totalReceipts.value > ReceiptsThreshold && unity.Some? && unity.value < UnityThreshold
  }

  function FinanceMatches(finance: seq<FinanceRow>, cand: string): (r: seq<FinanceRow>)
    ensures forall x :: x in r ==> x in finance && x.candId == cand
    decreases |finance|
  {
    if finance == [] then []
    else (if finance[0].candId == cand then [finance[0]] else []) + FinanceMatches(finance[1..], cand)
  }

  function RowFor(l: Link, f: Option<FinanceRow>, votes: map<string, VoteStats>): AlignmentRow {
    var receipts := if f.Some? then f.value.totalReceipts else None;
    var small := if f.Some? then Some(f.value.smallDollar) else None;
    var rate := if l.bioguide in votes then votes[l.bioguide].participationRate else None;
    var unity := if l.bioguide in votes then Some(votes[l.bioguide].unity) else None;
    AlignmentRow(l, receipts, small, rate, unity, Flag(receipts, unity))
  }

  /** The rows one link contributes to a left merge: one per matching finance row, or one with the finance columns missing. */
  function RowsFor(l: Link, finance: seq<FinanceRow>, votes: map<string, VoteStats>): (r: seq<AlignmentRow>)
    ensures |r| >= 1
  {
    var ms := FinanceMatches(finance, l.candId);
    if ms == [] then [RowFor(l, None, votes)]
    else seq(|ms|, i requires 0 <= i < |ms| => RowFor(l, Some(ms[i]), votes))
  }

  /** `_alignment`: links left-merged with the finance summary, then with the vote summary, then flagged. */
  function Alignment(links: seq<Link>, finance: seq<FinanceRow>, votes: map<string, VoteStats>): (out: seq<AlignmentRow>)
    ensures |out| >= |links|
    decreases |links|
  {
    if links == [] then [] else RowsFor(links[0], finance, votes) + Alignment(links[1..], finance, votes)
  }

  predicate UniqueCandidates(finance: seq<FinanceRow>) {
    forall i, j :: 0 <= i < j < |finance| ==> finance[i].candId != finance[j].candId
  }

  lemma {:induction false} FinanceMatchesNone(finance: seq<FinanceRow>, cand: string)
    requires forall i :: 0 <= i < |finance| ==> finance[i].candId != cand
    ensures FinanceMatches(finance, cand) == []
    decreases |finance|
  {
    if finance != [] {
      FinanceMatchesNone(finance[1..], cand);
    }
  }

  lemma {:induction false} FinanceMatchesUnique(finance: seq<FinanceRow>, cand: string)
    requires UniqueCandidates(finance)
    ensures |FinanceMatches(finance, cand)| <= 1
    decreases |finance|
  {
    if finance != [] {
      if finance[0].candId == cand {
        forall i | 0 <= i < |finance[1..]| ensures finance[1..][i].candId != cand {
          assert finance[1..][i] == finance[i + 1];
        }
        FinanceMatchesNone(finance[1..], cand);
      } else {
        FinanceMatchesUnique(finance[1..], cand);
      }
    }
  }

  /** Each candidate has at most one finance row. */
  ghost predicate AtMostOneRow(finance: seq<FinanceRow>) {
    forall cand :: |FinanceMatches(finance, cand)| <= 1
  }

  lemma {:induction false} AlignmentLength(links: seq<Link>, finance: seq<FinanceRow>, votes: map<string, VoteStats>)
    requires AtMostOneRow(finance)
    ensures |Alignment(links, finance, votes)| == |links|
    decreases |links|
  {
    if links != [] {
        OneRowFor(links[0], finance, votes);
      AlignmentLength(links[1..], finance, votes);
    }
  }

  /** Row `i` of the table belongs to link `i`. */
  lemma {:induction false} AlignmentRowAt(links: seq<Link>, finance: seq<FinanceRow>, votes: map<string, VoteStats>, i: nat)
    requires AtMostOneRow(finance) && i < |links|
    ensures i < |Alignment(links, finance, votes)|
    ensures Alignment(links, finance, votes)[i].link == links[i]
    decreases i
  {
    OneRowFor(links[0], finance, votes);
    var head, rest := RowsFor(links[0], finance, votes), Alignment(links[1..], finance, votes);
    assert Alignment(links, finance, votes) == head + rest;
    if i == 0 {
      assert Alignment(links, finance, votes)[0] == head[0];
    } else {
      AlignmentRowAt(links[1..], finance, votes, i - 1);
      assert Alignment(links, finance, votes)[i] == rest[i - 1];
    }
  }

  /** Every row of the table is flagged by the flag rule on its merged values. */
  lemma {:induction false} AlignmentFlagged(links: seq<Link>, finance: seq<FinanceRow>, votes: map<string, VoteStats>)
    ensures forall r :: r in Alignment(links, finance, votes) ==> r.flag == Flag(r.totalReceipts, r.unity)
    decreases |links|
  {
    if links != [] {
      AlignmentFlagged(links[1..], finance, votes);
      assert Alignment(links, finance, votes) == RowsFor(links[0], finance, votes) + Alignment(links[1..], finance, votes);
    }
  }

  /**
   * With one finance row per candidate, the alignment table has exactly one row per link, in
   * link order, and each row's flag is the flag rule applied to its merged values.
   */
  lemma AlignmentOneRowPerLink(links: seq<Link>, finance: seq<FinanceRow>, votes: map<string, VoteStats>)
    requires UniqueCandidates(finance)
    ensures |Alignment(links, finance, votes)| == |links|
    ensures forall i :: 0 <= i < |links| ==> Alignment(links, finance, votes)[i].link == links[i]
    ensures forall i :: 0 <= i < |links| ==>
      Alignment(links, finance, votes)[i].flag == Flag(Alignment(links, finance, votes)[i].totalReceipts, Alignment(links, finance, votes)[i].unity)
  {
    forall cand ensures |FinanceMatches(finance, cand)| <= 1 {
      FinanceMatchesUnique(finance, cand);
    }
    AlignmentLength(links, finance, votes);
    AlignmentFlagged(links, finance, votes);
    forall i | 0 <= i < |links|
      ensures Alignment(links, finance, votes)[i].link == links[i]
      ensures Alignment(links, finance, votes)[i].flag == Flag(Alignment(links, finance, votes)[i].totalReceipts, Alignment(links, finance, votes)[i].unity)
    {
      AlignmentRowAt(links, finance, votes, i);
      assert Alignment(links, finance, votes)[i] in Alignment(links, finance, votes);
    }
  }

  /** A link with at most one finance row contributes one row, flagged by the flag rule. */
  lemma OneRowFor(l: Link, finance: seq<FinanceRow>, votes: map<string, VoteStats>)
    requires |FinanceMatches(finance, l.candId)| <= 1
    ensures |RowsFor(l, finance, votes)| == 1
    ensures RowsFor(l, finance, votes)[0].link == l
    ensures RowsFor(l, finance, votes)[0].flag == Flag(RowsFor(l, finance, votes)[0].totalReceipts, RowsFor(l, finance, votes)[0].unity)
  {
  }

  /** A link whose candidate has no finance row, or whose legislator has no vote summary, is never flagged. */
  lemma UnmatchedNeverFlagged(l: Link, finance: seq<FinanceRow>, votes: map<string, VoteStats>)
    requires FinanceMatches(finance, l.candId) == [] || l.bioguide !in votes
    ensures forall r :: r in RowsFor(l, finance, votes) ==> !r.flag
  {
  }

  // ------------------------------------------------------------------ ordering

  datatype Step = FinanceStep(cycle: int) | VoteStep(congress: int) | AlignmentStep(cycle: int, congress: int)

  function FinanceSteps(cycles: seq<int>): (r: seq<Step>)
    ensures |r| == |cycles| && forall i :: 0 <= i < |cycles| ==> r[i] == FinanceStep(cycles[i])
  {
    seq(|cycles|, i requires 0 <= i < |cycles| => FinanceStep(cycles[i]))
  }

  function VoteSteps(congresses: seq<int>): (r: seq<Step>)
    ensures |r| == |congresses| && forall j :: 0 <= j < |congresses| ==> r[j] == VoteStep(congresses[j])
  {
    seq(|congresses|, j requires 0 <= j < |congresses| => VoteStep(congresses[j]))
  }

  function AlignmentRowOf(cycle: int, congresses: seq<int>): (r: seq<Step>)
    ensures |r| == |congresses| && forall j :: 0 <= j < |congresses| ==> r[j] == AlignmentStep(cycle, congresses[j])
  {
    seq(|congresses|, j requires 0 <= j < |congresses| => AlignmentStep(cycle, congresses[j]))
  }

  /** The alignment steps of the nested loops, one row of congresses per cycle. */
  function AlignmentSteps(cycles: seq<int>, congresses: seq<int>): (r: seq<Step>)
    ensures |r| == |cycles| * |congresses|
    decreases |cycles|
  {
    if cycles == [] then []
    else
      assert (|cycles| - 1) * |congresses| + |congresses| == |cycles| * |congresses|;
      AlignmentSteps(cycles[..|cycles| - 1], congresses) + AlignmentRowOf(cycles[|cycles| - 1], congresses)
  }

  /** The plan `build_metrics` runs. */
  function MetricsPlan(cycles: seq<int>, congresses: seq<int>): seq<Step> {
    FinanceSteps(cycles) + VoteSteps(congresses) + AlignmentSteps(cycles, congresses)
  }

  lemma MulLess(a: nat, b: nat, i: nat, n: nat)
    requires a < i && b < n
    ensures a * n + b < i * n
  {
    assert (a + 1) * n <= i * n;
  }

  /**
   * Alignment (cycle i, congress j) is step i * |congresses| + j of the nested loops: the row
   * of cycle i comes after the rows of the cycles before it.
   */
  lemma {:induction false} AlignmentCell(cycles: seq<int>, congresses: seq<int>, i: nat, j: nat)
    requires i < |cycles| && j < |congresses|
    ensures i * |congresses| + j < |cycles| * |congresses|
    ensures AlignmentSteps(cycles, congresses)[i * |congresses| + j] == AlignmentStep(cycles[i], congresses[j])
    decreases |cycles|
  {
    var n := |congresses|;
    var init := cycles[..|cycles| - 1];
    MulLess(i, j, |cycles|, n);
    if i < |init| {
      AlignmentCell(init, congresses, i, j);
      assert init[i] == cycles[i];
    } else {
      assert i * n + j == |init| * n + j;
    }
  }

  /**
   * `build_metrics` runs every finance summary, then every vote summary, then the alignments
   * (whose order `AlignmentCell` gives).
   */
  lemma MetricsPlanOrder(cycles: seq<int>, congresses: seq<int>)
    ensures var plan := MetricsPlan(cycles, congresses);
      && |cycles| + |congresses| <= |plan|
      && (forall i :: 0 <= i < |cycles| ==> plan[i] == FinanceStep(cycles[i]))
      && (forall j :: 0 <= j < |congresses| ==> plan[|cycles| + j] == VoteStep(congresses[j]))
      && plan[|cycles| + |congresses|..] == AlignmentSteps(cycles, congresses)
  {
    var f, v, a := FinanceSteps(cycles), VoteSteps(congresses), AlignmentSteps(cycles, congresses);
    var plan := f + v + a;
    assert plan[|f| + |v|..] == a;
    forall j | 0 <= j < |v| ensures plan[|f| + j] == v[j] {
      var fv := f + v;
      assert fv[|f| + j] == v[j];
      assert plan == fv + a;
    }
  }

  /** The inner loop of the alignments: cycle `cycle` against every congress, in order. */
  method AppendRow(steps: seq<Step>, cycle: int, congresses: seq<int>) returns (steps': seq<Step>)
    ensures steps' == steps + AlignmentRowOf(cycle, congresses)
  {
    steps' := steps;
    for j := 0 to |congresses|
      invariant steps' == steps + AlignmentRowOf(cycle, congresses[..j])
    {
      steps' := steps' + [AlignmentStep(cycle, congresses[j])];
    }
    assert congresses[..|congresses|] == congresses;
  }

  lemma AlignmentStepsSnoc(cycles: seq<int>, congresses: seq<int>, i: nat)
    requires i < |cycles|
    ensures AlignmentSteps(cycles[..i + 1], congresses) == AlignmentSteps(cycles[..i], congresses) + AlignmentRowOf(cycles[i], congresses)
  {
    assert cycles[..i + 1][..i] == cycles[..i];
  }

  /** The first loop of `build_metrics`: a finance summary per cycle. */
  method FinanceLoop(cycles: seq<int>) returns (steps: seq<Step>)
    ensures steps == FinanceSteps(cycles)
  {
    steps := [];
    for i := 0 to |cycles|
      invariant steps == FinanceSteps(cycles[..i])
    {
      steps := steps + [FinanceStep(cycles[i])];
    }
    assert cycles[..|cycles|] == cycles;
  }

  /** The second loop: a vote summary per congress. */
  method VoteLoop(steps: seq<Step>, congresses: seq<int>) returns (steps': seq<Step>)
    ensures steps' == steps + VoteSteps(congresses)
  {
    steps' := steps;
    for j := 0 to |congresses|
      invariant steps' == steps + VoteSteps(congresses[..j])
    {
      steps' := steps' + [VoteStep(congresses[j])];
    }
    assert congresses[..|congresses|] == congresses;
  }

  /** The nested loops: an alignment per cycle and congress. */
  method AlignmentLoop(steps: seq<Step>, cycles: seq<int>, congresses: seq<int>) returns (steps': seq<Step>)
    ensures steps' == steps + AlignmentSteps(cycles, congresses)
  {
    steps' := steps;
    assert cycles[..0] == [];
    for i := 0 to |cycles|
      invariant steps' == steps + AlignmentSteps(cycles[..i], congresses)
    {
      AlignmentStepsSnoc(cycles, congresses, i);
      steps' := AppendRow(steps', cycles[i], congresses);
    }
    assert cycles[..|cycles|] == cycles;
  }

  /** The three loops of `build_metrics`, recording the summary each iteration computes. */
  method BuildMetrics(cycles: seq<int>, congresses: seq<int>) returns (steps: seq<Step>)
    ensures steps == MetricsPlan(cycles, congresses)
  {
    steps := FinanceLoop(cycles);
    steps := VoteLoop(steps, congresses);
    steps := AlignmentLoop(steps, cycles, congresses);
  }
}
