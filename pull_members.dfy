/**
 * The members list of the web front end (`data/members.json`): every current legislator with
 * a BioGuide ID becomes one entry (name, party code and label, chamber, state, district,
 * first FEC ID, photo URL), in input order. script/pull-members.mjs and its copy
 * scripts/pull-members.mjs build the same entries; the copy also refuses a non-ok response.
 */
module PullMembers {
  import opened Wrappers
  import opened Text
  import opened Legislators

  const PhotoBase := "https://unitedstates.github.io/images/congress/225x275/"

  /** `img(bio)`: the 225x275 portrait of the legislator. */
  function Photo(bio: string): (r: string)
    ensures StartsWith(r, PhotoBase) && EndsWith(r, ".jpg")
    ensures |r| == |PhotoBase| + |bio| + 4 && r[|PhotoBase|..|PhotoBase| + |bio|] == bio
  {
    PhotoBase + bio + ".jpg"
  }

  /** Two legislators share a photo URL only when they share a BioGuide ID. */
  lemma PhotoInjective(a: string, b: string)
    requires Photo(a) == Photo(b)
    ensures a == b
  {
    assert |a| == |b|;
    assert a == Photo(a)[|PhotoBase|..|PhotoBase| + |a|];
  }

  /** `normalizeParty`: the first character of the party, upper-cased, or "" when there is none. */
  function NormalizeParty(p: Option<string>): (r: string)
    ensures |r| <= 1
    ensures r == "" <==> p.None? || p.value == ""
    ensures r != "" ==> r[0] == UpperChar(p.value[0])
  {
    match p
    case Some(s) => if s == "" then "" else [UpperChar(s[0])]
    case None => ""
  }

  /** `partyLabel`: the full name of the three known party codes, "" for any other code. */
  function PartyLabel(c: string): (r: string)
    ensures r != "" <==> c == "D" || c == "R" || c == "I"
    ensures r != "" ==> [r[0]] == c
  {
    if c == "D" then "Democrat"
    else if c == "R" then "Republican"
    else if c == "I" then "Independent"
    else ""
  }

  /** A label normalises back to its own code, so code and label always agree. */
  lemma LabelRoundTrip(c: string)
    requires PartyLabel(c) != ""
    ensures NormalizeParty(Some(PartyLabel(c))) == c
  {
  }

  /** The party names of the data normalise to the codes that have labels. */
  lemma KnownParties()
    ensures PartyLabel(NormalizeParty(Some("Democrat"))) == "Democrat"
    ensures PartyLabel(NormalizeParty(Some("republican"))) == "Republican"
    ensures PartyLabel(NormalizeParty(Some("Independent"))) == "Independent"
    ensures PartyLabel(NormalizeParty(Some("Libertarian"))) == ""
  {
  }

  function Or(s: Option<string>): string {
    match s case Some(v) => v case None => ""
  }

  /** `(m.terms || []).at(-1) || {}`: the last term, or a term with no keys at all. */
  function CurrentTerm(p: Person): (t: Term)
    ensures LastTerm(p).Some? ==> t == LastTerm(p).value
    ensures LastTerm(p).None? ==> t == Term(None, None, None, None)
  {
    match LastTerm(p) case Some(t) => t case None => Term(None, None, None, None)
  }

  /** The `district` value: a district number, or "" (a falsy district, including 0, is ""). */
  datatype District = NoDistrict | DistrictNo(number: int)

  /** One entry of `data/members.json`. */
  datatype Member = Member(bioguide: string, name: string, party: string, partyLabel: string,
                           chamber: string, state: string, district: District, fec: string, photo: string)

  /** `` `${first||""} ${last||""}`.trim() ``. */
  function DisplayName(p: Person): string {
    Trim(Or(FirstName(p)) + " " + Or(LastName(p)), JavaScript)
  }

  /** A first and a last name without surrounding spaces are joined by one space. */
  lemma DisplayNameJoins(p: Person)
    requires FirstName(p).Some? && FirstName(p).value != "" && !IsSpace(FirstName(p).value[0], JavaScript)
    requires LastName(p).Some? && LastName(p).value != ""
    requires !IsSpace(LastName(p).value[|LastName(p).value| - 1], JavaScript)
    ensures DisplayName(p) == FirstName(p).value + " " + LastName(p).value
  {
    var s := FirstName(p).value + " " + LastName(p).value;
    assert s[0] == FirstName(p).value[0];
    assert TrimStart(s, JavaScript) == s;
    assert s[|s| - 1] == LastName(p).value[|LastName(p).value| - 1];
    assert TrimEnd(s, JavaScript) == s;
  }

  /** `m.id?.fec?.[0] || ""`: the first ID of a list; on a single string, its first character. */
  function FirstFec(p: Person): (r: string)
    ensures FecOf(p).None? ==> r == ""
    ensures FecOf(p).Some? && FecOf(p).value.FecList? ==>
              r == (if |FecOf(p).value.ids| > 0 then FecOf(p).value.ids[0] else "")
    ensures FecOf(p).Some? && FecOf(p).value.FecScalar? ==> |r| <= 1
  {
    match FecOf(p)
    case None => ""
    case Some(FecList(ids)) => if |ids| > 0 then ids[0] else ""
    case Some(FecScalar(s)) => if |s| > 0 then [s[0]] else ""
  }

  /** The entry the loop pushes for a legislator whose BioGuide ID is `bio`. */
  function EntryOf(p: Person, bio: string): Member {
    var t := CurrentTerm(p);
    var party := NormalizeParty(t.party);
    Member(bio, DisplayName(p), party, PartyLabel(party),
           if t.termType == Some("sen") then "senate" else "house",
           Or(t.state),
           if t.termType == Some("rep") && t.district.Some? && t.district.value != 0
           then DistrictNo(t.district.value) else NoDistrict,
           FirstFec(p), Photo(bio))
  }

  /** What each entry says about the legislator's current term. */
  lemma EntryFields(p: Person, bio: string)
    ensures var e := EntryOf(p, bio); var t := CurrentTerm(p);
      && e.bioguide == bio && e.photo == Photo(bio)
      && (e.chamber == "senate" <==> t.termType == Some("sen"))
      && (e.chamber == "senate" || e.chamber == "house")
      && (e.district.DistrictNo? ==> e.chamber == "house" && t.district == Some(e.district.number))
      && (e.district.DistrictNo? <==> t.termType == Some("rep") && t.district.Some? && t.district.value != 0)
      && (e.partyLabel != "" <==> e.party == "D" || e.party == "R" || e.party == "I")
      && (e.state == "" <==> t.state.None? || t.state == Some(""))
  {
  }

  /** `if (!bio) continue`: the legislators that have a non-empty BioGuide ID. */
  predicate Listed(p: Person) {
    Bioguide(p).Some? && Bioguide(p).value != ""
  }

  /** The entries of `out` after the loop has seen `raw`. */
  function Members(raw: seq<Person>): seq<Member>
    decreases |raw|
  {
    if raw == [] then []
    else
      var p := raw[|raw| - 1];
      Members(raw[..|raw| - 1]) + (if Listed(p) then [EntryOf(p, Bioguide(p).value)] else [])
  }

  /** The entries of two blocks of legislators are the entries of each, in order. */
  lemma {:induction false} MembersAppend(a: seq<Person>, b: seq<Person>)
    ensures Members(a + b) == Members(a) + Members(b)
    decreases |b|
  {
    if b == [] {
      assert a + b == a;
    } else {
      var ab := a + b;
      assert ab[..|ab| - 1] == a + b[..|b| - 1];
      MembersAppend(a, b[..|b| - 1]);
    }
  }

  /** A legislator without a BioGuide ID adds nothing and moves nothing. */
  lemma SkippedWithoutId(a: seq<Person>, p: Person, b: seq<Person>)
    requires !Listed(p)
    ensures Members(a + [p] + b) == Members(a + b)
  {
    MembersAppend(a + [p], b);
    MembersAppend(a, b);
    assert (a + [p])[..|a + [p]| - 1] == a;
  }

  /** Every entry comes from a listed legislator of the input (the order is that of MembersAppend). */
  lemma {:induction false} MembersFromInput(raw: seq<Person>)
    ensures |Members(raw)| <= |raw|
    ensures forall i :: 0 <= i < |Members(raw)| ==>
              exists j :: 0 <= j < |raw| && Listed(raw[j]) && Members(raw)[i] == EntryOf(raw[j], Bioguide(raw[j]).value)
    decreases |raw|
  {
    if raw != [] {
      var init := raw[..|raw| - 1];
      MembersFromInput(init);
      var out := Members(raw);
      var last := raw[|raw| - 1];
      assert out == Members(init) + (if Listed(last) then [EntryOf(last, Bioguide(last).value)] else []);
      forall i | 0 <= i < |out|
        ensures exists j :: 0 <= j < |raw| && Listed(raw[j]) && out[i] == EntryOf(raw[j], Bioguide(raw[j]).value)
      {
        if i < |Members(init)| {
          var j :| 0 <= j < |init| && Listed(init[j]) && Members(init)[i] == EntryOf(init[j], Bioguide(init[j]).value);
          assert raw[j] == init[j] && out[i] == Members(init)[i];
        } else {
          assert out[i] == EntryOf(last, Bioguide(last).value);
        }
      }
    }
  }

  /** Every listed legislator of the input has its entry. */
  lemma {:induction false} ListedAreKept(raw: seq<Person>, j: nat)
    requires j < |raw| && Listed(raw[j])
    ensures EntryOf(raw[j], Bioguide(raw[j]).value) in Members(raw)
  {
    assert raw == raw[..j] + [raw[j]] + raw[j + 1..];
    MembersAppend(raw[..j] + [raw[j]], raw[j + 1..]);
    assert Members(raw[..j] + [raw[j]]) == Members(raw[..j]) + [EntryOf(raw[j], Bioguide(raw[j]).value)] by {
      assert (raw[..j] + [raw[j]])[..j] == raw[..j];
    }
  }

  /** The loop over the legislators, pushing one entry for each listed one. */
  method CollectMembers(raw: seq<Person>) returns (out: seq<Member>)
    ensures out == Members(raw)
  {
    out := [];
    for i := 0 to |raw|
      invariant out == Members(raw[..i])
    {
      var m := raw[i];
      assert raw[..i + 1][..i] == raw[..i];
      var bio := Bioguide(m);
      if bio.Some? && bio.value != "" {
        out := out + [EntryOf(m, bio.value)];
      }
    }
    assert raw[..|raw|] == raw;
  }

  /** The response to the request for the legislators file; `body` is None when it is not a JSON list. */
  datatype Response = Response(ok: bool, status: int, body: Option<seq<Person>>)

  /** script/pull-members.mjs: the status is not looked at, only whether the body reads as a list. */
  method PullUnchecked(res: Response) returns (r: Result<seq<Member>, string>)
    ensures res.body.Some? ==> r == Success(Members(res.body.value))
    ensures res.body.None? ==> r.Failure?
  {
    if res.body.None? {
      return Failure("the response is not a list of legislators");
    }
    var out := CollectMembers(res.body.value);
    r := Success(out);
  }

  /** scripts/pull-members.mjs: a non-ok response fails with `HTTP <status>` before the body is read. */
  method PullChecked(res: Response) returns (r: Result<seq<Member>, string>)
    ensures !res.ok ==> r == Failure("HTTP " + IntToString(res.status))
    ensures res.ok && res.body.Some? ==> r == Success(Members(res.body.value))
    ensures res.ok && res.body.None? ==> r.Failure?
  {
    if !res.ok {
      return Failure("HTTP " + IntToString(res.status));
    }
    r := PullUnchecked(res);
  }
}
