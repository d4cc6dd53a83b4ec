/**
 * The two-chamber roll-call collector: one page of recent votes per chamber becomes a
 * dictionary of roll calls keyed `chamber-congress-session-rc<roll>`, each listing the members
 * who voted No or Nay; the House and Senate dictionaries are merged into one.
 */
module CollectVotes {
  import opened Wrappers
  import opened Text
  import opened Maps

  const Base := "https://api.congress.gov/v3"
  const MissingKey := "CONGRESS_API_KEY missing"

  datatype VoteMember = VoteMember(bioguideId: Option<string>, fullName: Option<string>,
                                   partyName: Option<string>, stateCode: Option<string>)

  /** One member's position on a roll call. */
  datatype Position = Position(vote: Option<string>, member: Option<VoteMember>)

  datatype Offender = Offender(bioguide: Option<string>, name: Option<string>, party: Option<string>, state: Option<string>)

  datatype BillRef = BillRef(title: Option<string>, number: Option<string>)

  /** A listed roll call; a missing or non-numeric congress, session or roll number is None. */
  datatype RollCall = RollCall(congress: Option<int>, session: Option<int>, rollNumber: Option<int>,
                               voteQuestion: Option<string>, voteDesc: Option<string>,
                               bill: Option<BillRef>, votes: Option<seq<Position>>)

  /** `rc`: the chamber and the `Number()` conversions, None standing for NaN. */
  datatype Rc = Rc(chamber: string, congress: Option<int>, session: Option<int>, roll: Option<int>)

  datatype Entry = Entry(title: string, short: string, award: string, meaning: string, rc: Rc,
                         offendersVote: seq<string>, offenders: seq<Offender>)

  predicate Truthy(s: Option<string>) {
    s.Some? && s.value != ""
  }

  /** `a || b` on an optional string. */
  function Or(a: Option<string>, b: string): (r: string)
    ensures Truthy(a) ==> r == a.value
    ensures !Truthy(a) ==> r == b
  {
    if Truthy(a) then a.value else b
  }

  /** `${x}` on an optional number. */
  function NumText(x: Option<int>): string {
    match x case Some(n) => IntToString(n) case None => "undefined"
  }

  // ---------------------------------------------------------------- offenders

  /** `(m.vote || "").toLowerCase()` is "no" or "nay". */
  predicate IsNay(p: Position) {
    var choice := Lower(p.vote.GetOr(""));
    choice == "no" || choice == "nay"
  }

  function OffenderOf(p: Position): Offender {
    match p.member
    case None => Offender(None, None, None, None)
    case Some(m) => Offender(m.bioguideId, m.fullName, m.partyName, m.stateCode)
  }

  /** The offenders pushed by the loop, before the final filter. */
  function Nays(ps: seq<Position>): seq<Offender>
    decreases |ps|
  {
    if ps == [] then []
    else Nays(ps[..|ps| - 1]) + (if IsNay(ps[|ps| - 1]) then [OffenderOf(ps[|ps| - 1])] else [])
  }

  /** `res.filter(o => o.bioguide)`. */
  function WithBioguide(os: seq<Offender>): (r: seq<Offender>)
    ensures forall o :: o in r ==> o in os && Truthy(o.bioguide)
    ensures forall o :: o in os && Truthy(o.bioguide) ==> o in r
  {
    if os == [] then [] else (if Truthy(os[0].bioguide) then [os[0]] else []) + WithBioguide(os[1..])
  }

  /** The reference list: in roll order, every No or Nay position with a truthy BioGuide ID. */
  function Offenders(ps: seq<Position>): seq<Offender>
    decreases |ps|
  {
    if ps == [] then []
    else
      var p := ps[|ps| - 1];
      Offenders(ps[..|ps| - 1]) + (if IsNay(p) && Truthy(OffenderOf(p).bioguide) then [OffenderOf(p)] else [])
  }

  lemma WithBioguideAppend(a: seq<Offender>, b: seq<Offender>)
    ensures WithBioguide(a + b) == WithBioguide(a) + WithBioguide(b)
  {
    if a != [] {
      assert (a + b)[1..] == a[1..] + b;
      WithBioguideAppend(a[1..], b);
    } else {
      assert a + b == b;
    }
  }

  /** Filtering after the loop is filtering in the loop. */
  lemma {:induction false} FilterAfterLoop(ps: seq<Position>)
    ensures WithBioguide(Nays(ps)) == Offenders(ps)
    decreases |ps|
  {
    if ps != [] {
      var p := ps[|ps| - 1];
      FilterAfterLoop(ps[..|ps| - 1]);
      WithBioguideAppend(Nays(ps[..|ps| - 1]), if IsNay(p) then [OffenderOf(p)] else []);
    }
  }

  /** An offender is exactly a No or Nay position with a truthy BioGuide ID. */
  lemma {:induction false} OffendersSpec(ps: seq<Position>)
    ensures forall o :: o in Offenders(ps) <==>
      exists i :: 0 <= i < |ps| && IsNay(ps[i]) && Truthy(OffenderOf(ps[i]).bioguide) && o == OffenderOf(ps[i])
    decreases |ps|
  {
    if ps != [] {
      var init := ps[..|ps| - 1];
      OffendersSpec(init);
      forall o | o in Offenders(ps)
        ensures exists i :: 0 <= i < |ps| && IsNay(ps[i]) && Truthy(OffenderOf(ps[i]).bioguide) && o == OffenderOf(ps[i])
      {
        if o in Offenders(init) {
          var i :| 0 <= i < |init| && IsNay(init[i]) && Truthy(OffenderOf(init[i]).bioguide) && o == OffenderOf(init[i]);
          assert ps[i] == init[i];
        }
      }
      forall o | exists i :: 0 <= i < |ps| && IsNay(ps[i]) && Truthy(OffenderOf(ps[i]).bioguide) && o == OffenderOf(ps[i])
        ensures o in Offenders(ps)
      {
        var i :| 0 <= i < |ps| && IsNay(ps[i]) && Truthy(OffenderOf(ps[i]).bioguide) && o == OffenderOf(ps[i]);
        if i < |init| {
          assert init[i] == ps[i];
        }
      }
    }
  }

  /** A position without a vote is never an offender. */
  lemma MissingVoteIsNoNay(p: Position)
    requires p.vote.None?
    ensures !IsNay(p)
  {
    assert Lower("") == "";
  }

  /** The comparison ignores case: "No", "NAY" and "nAy" count, "N" and "yes" do not. */
  lemma NayIgnoresCase(v: string)
    ensures IsNay(Position(Some(v), None)) <==>
      (|v| == 2 && (v[0] == 'n' || v[0] == 'N') && (v[1] == 'o' || v[1] == 'O'))
      || (|v| == 3 && (v[0] == 'n' || v[0] == 'N') && (v[1] == 'a' || v[1] == 'A') && (v[2] == 'y' || v[2] == 'Y'))
  {
    var l := Lower(v);
    if |v| == 2 {
      assert l == "no" <==> l[0] == 'n' && l[1] == 'o';
    } else if |v| == 3 {
      assert l == "nay" <==> l[0] == 'n' && l[1] == 'a' && l[2] == 'y';
    }
  }

  /** `offendersFromRoll`. */
  method OffendersFromRoll(roll: RollCall) returns (r: seq<Offender>)
    ensures r == Offenders(roll.votes.GetOr([]))
  {
    var ps := roll.votes.GetOr([]);
    var res: seq<Offender> := [];
    for i := 0 to |ps|
      invariant res == Nays(ps[..i])
    {
      assert ps[..i + 1][..i] == ps[..i];
      var choice := Lower(ps[i].vote.GetOr(""));
      if choice == "no" || choice == "nay" {
        res := res + [OffenderOf(ps[i])];
      }
    }
    assert ps[..|ps|] == ps;
    FilterAfterLoop(ps);
    r := WithBioguide(res);
  }

  // ---------------------------------------------------------------- one chamber

  /** The roll-call key. */
  function RollId(chamber: string, v: RollCall): (id: string)
    ensures StartsWith(id, chamber + "-")
  {
    var id := chamber + "-" + NumText(v.congress) + "-" + NumText(v.session) + "-rc" + NumText(v.rollNumber);
    assert id[..|chamber + "-"|] == chamber + "-";
    id
  }

  function BillTitle(v: RollCall): Option<string> {
    if v.bill.Some? then v.bill.value.title else None
  }

  function BillNumber(v: RollCall): Option<string> {
    if v.bill.Some? then v.bill.value.number else None
  }

  function EntryOf(chamber: string, v: RollCall): Entry
  {
    Entry(Or(v.voteQuestion, Or(v.voteDesc, Or(BillTitle(v), "Roll Call"))),
          Or(BillNumber(v), Or(v.voteQuestion, "RC " + NumText(v.rollNumber))),
          "Recorded Vote",
          Or(v.voteQuestion, ""),
          Rc(chamber, v.congress, v.session, v.rollNumber),
          ["no", "nay"],
          Offenders(v.votes.GetOr([])))
  }

  /**
   * The title falls back from the question to the description to the bill's title to
   * "Roll Call", the short name from the bill's number to the question to "RC n"; the
   * award and the offending votes are fixed.
   */
  lemma EntryFields(chamber: string, v: RollCall)
    ensures EntryOf(chamber, v).title != "" && EntryOf(chamber, v).short != ""
    ensures Truthy(v.voteQuestion) ==> EntryOf(chamber, v).title == EntryOf(chamber, v).meaning == v.voteQuestion.value
    ensures EntryOf(chamber, v).title == "Roll Call" <== !Truthy(v.voteQuestion) && !Truthy(v.voteDesc) && !Truthy(BillTitle(v))
    ensures Truthy(BillNumber(v)) ==> EntryOf(chamber, v).short == BillNumber(v).value
    ensures !Truthy(BillNumber(v)) && !Truthy(v.voteQuestion) ==> EntryOf(chamber, v).short == "RC " + NumText(v.rollNumber)
    ensures EntryOf(chamber, v).award == "Recorded Vote" && EntryOf(chamber, v).offendersVote == ["no", "nay"]
    ensures EntryOf(chamber, v).rc == Rc(chamber, v.congress, v.session, v.rollNumber)
    ensures EntryOf(chamber, v).offenders == Offenders(v.votes.GetOr([]))
  {
  }

  function Pairs(chamber: string, vs: seq<RollCall>): (r: seq<(string, Entry)>)
    ensures |r| == |vs| && forall i :: 0 <= i < |vs| ==> r[i] == (RollId(chamber, vs[i]), EntryOf(chamber, vs[i]))
  {
    if vs == [] then [] else [(RollId(chamber, vs[0]), EntryOf(chamber, vs[0]))] + Pairs(chamber, vs[1..])
  }

  /** The chamber's dictionary: each roll call assigned under its key in list order. */
  function ChamberEntries(chamber: string, votes: Option<seq<RollCall>>): map<string, Entry> {
    AssignAll(map[], Pairs(chamber, votes.GetOr([])))
  }

  /** The loop of `collectChamber` over `data.votes || []`. */
  method CollectChamber(chamber: string, votes: Option<seq<RollCall>>) returns (out: map<string, Entry>)
    ensures out == ChamberEntries(chamber, votes)
  {
    var vs := votes.GetOr([]);
    out := map[];
    for i := 0 to |vs|
      invariant out == AssignAll(map[], Pairs(chamber, vs)[..i])
    {
      AssignAllPrefix(map[], Pairs(chamber, vs), i);
      var v := vs[i];
      var offenders := OffendersFromRoll(v);
      var entry := Entry(Or(v.voteQuestion, Or(v.voteDesc, Or(BillTitle(v), "Roll Call"))),
                                             Or(BillNumber(v), Or(v.voteQuestion, "RC " + NumText(v.rollNumber))),
                                             "Recorded Vote",
                                             Or(v.voteQuestion, ""),
                                             Rc(chamber, v.congress, v.session, v.rollNumber),
                                             ["no", "nay"],
                                             offenders);
      assert entry == EntryOf(chamber, v);
      out := out[RollId(chamber, v) := entry];
    }
    assert Pairs(chamber, vs)[..|vs|] == Pairs(chamber, vs);
  }

  /** The keys are those of the listed roll calls. */
  lemma ChamberKeys(chamber: string, vs: seq<RollCall>)
    ensures ChamberEntries(chamber, Some(vs)).Keys == set i | 0 <= i < |vs| :: RollId(chamber, vs[i])
  {
    var pairs := Pairs(chamber, vs);
    AssignAllKeys(map[], pairs);
    assert (set i | 0 <= i < |pairs| :: pairs[i].0) == set i | 0 <= i < |vs| :: RollId(chamber, vs[i]);
  }

  predicate AllPrefixed(m: map<string, Entry>, prefix: string) {
    forall k :: k in m ==> StartsWith(k, prefix)
  }

  /** Every key starts with the chamber. */
  lemma ChamberPrefix(chamber: string, votes: Option<seq<RollCall>>)
    ensures AllPrefixed(ChamberEntries(chamber, votes), chamber + "-")
  {
    var vs := votes.GetOr([]);
    ChamberKeys(chamber, vs);
    forall k | k in ChamberEntries(chamber, votes) ensures StartsWith(k, chamber + "-") {
      var i :| 0 <= i < |vs| && RollId(chamber, vs[i]) == k;
    }
  }

  /** A key holds the entry of the last roll call with it. */
  lemma ChamberLast(chamber: string, vs: seq<RollCall>, i: nat)
    requires i < |vs|
    requires forall j :: i < j < |vs| ==> RollId(chamber, vs[j]) != RollId(chamber, vs[i])
    ensures RollId(chamber, vs[i]) in ChamberEntries(chamber, Some(vs))
    ensures ChamberEntries(chamber, Some(vs))[RollId(chamber, vs[i])] == EntryOf(chamber, vs[i])
  {
    AssignAllLast(map[], Pairs(chamber, vs), i);
  }

  /** A page without votes gives an empty dictionary. */
  lemma NoVotesNoEntries(chamber: string)
    ensures ChamberEntries(chamber, None) == map[]
  {
  }

  // ---------------------------------------------------------------- the run

  /** The one page requested per chamber: its status and, when ok, its votes. */
  datatype Answer = Answer(ok: bool, status: int, votes: Option<seq<RollCall>>)

  function ChamberUrl(chamber: string, since: string, key: string): string {
    Base + "/votes/" + chamber + "?fromDateTime=" + EncodeComponent(since) + "&format=json&api_key=" + key
  }

  function HexDigit(d: nat): (c: char)
    requires d < 16
  {
    if d < 10 then ('0' as int + d) as char else ('A' as int + d - 10) as char
  }

  predicate Unreserved(c: char) {
    IsUpperAscii(c) || IsLowerAscii(c) || IsDigit(c)
    || c == '-' || c == '_' || c == '.' || c == '!' || c == '~' || c == '*' || c == '\'' || c == '(' || c == ')'
  }

  /** `encodeURIComponent` on ASCII text: unreserved characters stay, the others become `%XX`. */
  function EncodeComponent(s: string): (r: string)
    ensures (forall i :: 0 <= i < |s| ==> Unreserved(s[i])) ==> r == s
  {
    if s == [] then []
    else
      var c := s[0];
      (if Unreserved(c) || c as int >= 128 then [c] else ['%', HexDigit(c as int / 16), HexDigit(c as int % 16)])
      + EncodeComponent(s[1..])
  }

  function Error(status: int, url: string): string {
    "HTTP " + IntToString(status) + " " + url
  }

  /** `collectChamber`, given the answer to its one request. */
  function Collect(chamber: string, since: string, key: string, a: Answer): Result<map<string, Entry>, string> {
    if !a.ok then Failure(Error(a.status, ChamberUrl(chamber, since, key)))
    else Success(ChamberEntries(chamber, a.votes))
  }

  /** The whole script: the key check, the House, then the Senate, merged with the Senate last. */
  function Run(key: string, since: string, house: Answer, senate: Answer): (r: Result<map<string, Entry>, string>)
    ensures key == "" ==> r == Failure(MissingKey)
    ensures key != "" && house.ok && senate.ok ==>
      r == Success(ChamberEntries("house", house.votes) + ChamberEntries("senate", senate.votes))
    ensures key != "" && house.ok && senate.ok ==>
      && r.value.Keys == ChamberEntries("house", house.votes).Keys + ChamberEntries("senate", senate.votes).Keys
      && forall k :: k in ChamberEntries("house", house.votes) ==> r.value[k] == ChamberEntries("house", house.votes)[k]
    ensures key != "" && !house.ok ==> r == Failure(Error(house.status, ChamberUrl("house", since, key)))
    ensures key != "" && house.ok && !senate.ok ==> r == Failure(Error(senate.status, ChamberUrl("senate", since, key)))
  {
    if key == "" then Failure(MissingKey)
    else
      var h :- Collect("house", since, key, house);
      var s :- Collect("senate", since, key, senate);
      MergeKeepsBoth(house.votes, senate.votes);
      Success(h + s)
  }

  /** House and Senate keys never clash, so the merge keeps every entry of both. */
  lemma {:induction false} MergeKeepsBoth(hv: Option<seq<RollCall>>, sv: Option<seq<RollCall>>)
    ensures ChamberEntries("house", hv).Keys !! ChamberEntries("senate", sv).Keys
    ensures forall k :: k in ChamberEntries("house", hv) ==>
      (ChamberEntries("house", hv) + ChamberEntries("senate", sv))[k] == ChamberEntries("house", hv)[k]
  {
    ChamberPrefix("house", hv);
    ChamberPrefix("senate", sv);
    DisjointMerge(ChamberEntries("house", hv), ChamberEntries("senate", sv));
  }

  lemma DisjointMerge(h: map<string, Entry>, s: map<string, Entry>)
    requires AllPrefixed(h, "house-") && AllPrefixed(s, "senate-")
    ensures h.Keys !! s.Keys
    ensures forall k :: k in h ==> (h + s)[k] == h[k]
  {
    forall k | k in h ensures k !in s {
      assert StartsWith(k, "house-");
      assert k[0] == 'h';
    }
  }
}
