/**
 * The helpers of the accountability web page: money and party formatting, fetching the
 * first of several candidate paths that answers, and loading the data files, where a
 * missing file becomes an empty object.
 */
module FrontendUtils {
  import opened Wrappers
  import opened Text
  import opened Maps
  import PullMembers

  /** `fmtMoney`: "—" for null or undefined, else "$" and the number as the locale writes it. */
  function FmtMoney(n: Option<real>, localeString: real -> string): (r: string)
    ensures r != [] && (r[0] == '$' <==> n.Some?)
    ensures n.Some? ==> r[1..] == localeString(n.value)
  {
    match n
    case None => "—"
    case Some(v) => "$" + localeString(v)
  }

  /** `partyLabel` of the page: the full name of the three known party codes, else "—". */
  function PartyLabel(p: string): (r: string)
    ensures r != "—" <==> p == "D" || p == "R" || p == "I"
  {
    if p == "D" then "Democrat"
    else if p == "R" then "Republican"
    else if p == "I" then "Independent"
    else "—"
  }

  /** The page and the members list agree on every known party and differ only in the placeholder. */
  lemma LabelsAgree(p: string)
    ensures PullMembers.PartyLabel(p) != "" ==> PartyLabel(p) == PullMembers.PartyLabel(p)
    ensures PullMembers.PartyLabel(p) == "" <==> PartyLabel(p) == "—"
  {
  }

  /** What one `fetch(p)` gives: it throws, or answers with a status and a body that may not be JSON. */
  datatype Attempt<J> = Threw | Answer(ok: bool, json: Option<J>)

  /** `r.ok` and `r.json()` succeeds: the attempt that ends the search. */
  predicate Good<J>(a: Attempt<J>) {
    a.Answer? && a.ok && a.json.Some?
  }

  /** The first path whose attempt is good. */
  function FirstGood<J>(paths: seq<string>, fetch: string -> Attempt<J>): (r: Option<nat>)
    ensures r.Some? ==> r.value < |paths| && Good(fetch(paths[r.value]))
    ensures r.Some? ==> forall j :: 0 <= j < r.value ==> !Good(fetch(paths[j]))
    ensures r.None? <==> forall j :: 0 <= j < |paths| ==> !Good(fetch(paths[j]))
    decreases |paths|
  {
    if paths == [] then None
    else if Good(fetch(paths[0])) then Some(0)
    else
      match FirstGood(paths[1..], fetch)
      case Some(k) =>
        assert forall j :: 1 <= j < k + 1 ==> paths[j] == paths[1..][j - 1];
        Some(k + 1)
      case None =>
        assert forall j :: 1 <= j < |paths| ==> paths[j] == paths[1..][j - 1];
        None
  }

  function AllFailed(paths: seq<string>): string {
    "All paths failed: " + Join(paths, ", ")
  }

  /** What `fetchFirstJSON(paths)` resolves to, or the error it throws. */
  function FirstJson<J>(paths: seq<string>, fetch: string -> Attempt<J>): Result<J, string> {
    match FirstGood(paths, fetch)
    case Some(k) => Success(fetch(paths[k]).json.value)
    case None => Failure(AllFailed(paths))
  }

  /**
   * `fetchFirstJSON`: tries the paths in order, skipping any that throws or is not ok, and
   * returns the JSON of the first that answers; when none does, the error lists every path.
   */
  method FetchFirstJson<J>(paths: seq<string>, fetch: string -> Attempt<J>) returns (r: Result<J, string>)
    ensures r == FirstJson(paths, fetch)
    ensures r.Success? ==> exists k :: 0 <= k < |paths| && Good(fetch(paths[k])) && r.value == fetch(paths[k]).json.value
                                       && forall j :: 0 <= j < k ==> !Good(fetch(paths[j]))
    ensures r.Failure? <==> forall j :: 0 <= j < |paths| ==> !Good(fetch(paths[j]))
    ensures r.Failure? ==> r.error == "All paths failed: " + Join(paths, ", ")
  {
    var i := 0;
    while i < |paths|
      invariant 0 <= i <= |paths|
      invariant forall j :: 0 <= j < i ==> !Good(fetch(paths[j]))
    {
      var a := fetch(paths[i]);
      if a.Answer? && a.ok && a.json.Some? {
        return Success(a.json.value);
      }
      i := i + 1;
    }
    return Failure(AllFailed(paths));
  }

  /** The three places a data file is looked for, in order. */
  function Candidates(file: string): (r: seq<string>)
    ensures |r| == 3 && forall i :: 0 <= i < 3 ==> EndsWith(r[i], "data/" + file)
  {
    ["data/" + file, "../data/" + file, "/data/" + file]
  }

  /** A loader: the first answering candidate's JSON, or `empty` (the page's `{}`) when none answers. */
  function LoadFile<J>(file: string, fetch: string -> Attempt<J>, empty: J): J {
    match FirstJson(Candidates(file), fetch)
    case Success(j) => j
    case Failure(_) => empty
  }

  /** The copy next to the page wins; the others are tried only when it does not answer. */
  lemma LoadFilePreference<J>(file: string, fetch: string -> Attempt<J>, empty: J)
    ensures Good(fetch("data/" + file)) ==> LoadFile(file, fetch, empty) == fetch("data/" + file).json.value
    ensures !Good(fetch("data/" + file)) && Good(fetch("../data/" + file)) ==>
              LoadFile(file, fetch, empty) == fetch("../data/" + file).json.value
    ensures !Good(fetch("data/" + file)) && !Good(fetch("../data/" + file)) && Good(fetch("/data/" + file)) ==>
              LoadFile(file, fetch, empty) == fetch("/data/" + file).json.value
    ensures !Good(fetch("data/" + file)) && !Good(fetch("../data/" + file)) && !Good(fetch("/data/" + file)) ==>
              LoadFile(file, fetch, empty) == empty
  {
    var c := Candidates(file);
    assert c[0] == "data/" + file && c[1] == "../data/" + file && c[2] == "/data/" + file;
  }

  /** `loadVotes`, `loadDonors`, `loadAlign`, `loadBadges`. */
  function LoadVotes<J>(fetch: string -> Attempt<J>, empty: J): J { LoadFile("votes.json", fetch, empty) }
  function LoadDonors<J>(fetch: string -> Attempt<J>, empty: J): J { LoadFile("donors-by-member.json", fetch, empty) }
  function LoadAlign<J>(fetch: string -> Attempt<J>, empty: J): J { LoadFile("vote-alignments.json", fetch, empty) }
  function LoadBadges<J>(fetch: string -> Attempt<J>, empty: J): J { LoadFile("badges.json", fetch, empty) }

  /** A loader falls back to `{}` exactly when none of its three paths answers. */
  lemma LoadersFallBack<J>(fetch: string -> Attempt<J>, empty: J)
    requires forall p :: !Good(fetch(p))
    ensures LoadVotes(fetch, empty) == empty && LoadDonors(fetch, empty) == empty
    ensures LoadAlign(fetch, empty) == empty && LoadBadges(fetch, empty) == empty
  {
    LoadFilePreference("votes.json", fetch, empty);
    LoadFilePreference("donors-by-member.json", fetch, empty);
    LoadFilePreference("vote-alignments.json", fetch, empty);
    LoadFilePreference("badges.json", fetch, empty);
  }

  // ---------------------------------------------------------------- members

  datatype RawId = RawId(bioguide: Option<string>)

  /**
   * One element of `members.json` as the page reads it; a string or number element reads as
   * an object with no keys, and `null` makes the property access throw.
   */
  datatype RawMember = NullEntry
                     | RawMember(bioguide: Option<string>, id: Option<RawId>, name: Option<string>,
                                 nameFirst: Option<string>, nameLast: Option<string>, party: Option<string>,
                                 state: Option<string>, district: Option<string>, photo: Option<string>)

  /** The members file: a JSON list, or any other JSON value (which `for ... of` cannot walk). */
  datatype MembersDoc = MemberList(items: seq<RawMember>) | OtherJson

  /** A member card of the page. */
  datatype Card = Card(bioguide: string, name: string, state: string, district: string, party: string, photo: string)

  const NoPhoto := "images/no-photo.png"

  predicate Truthy(s: Option<string>) {
    s.Some? && s.value != ""
  }

  function Or(s: Option<string>, default: string): string {
    if Truthy(s) then s.value else default
  }

  /** `m.bioguide || (m.id && m.id.bioguide)`. */
  function BioguideOf(m: RawMember): Option<string>
    requires m.RawMember?
  {
    if Truthy(m.bioguide) then m.bioguide
    else match m.id case Some(i) => i.bioguide case None => None
  }

  /** `m.name || [m.name_first, m.name_last].filter(Boolean).join(' ')`. */
  function NameOf(m: RawMember): string
    requires m.RawMember?
  {
    if Truthy(m.name) then m.name.value
    else Join((if Truthy(m.nameFirst) then [m.nameFirst.value] else [])
              + (if Truthy(m.nameLast) then [m.nameLast.value] else []), " ")
  }

  /** `(m.party || '').trim().toUpperCase().slice(0, 1)`. */
  function PartyOf(m: RawMember): (r: string)
    requires m.RawMember?
    ensures |r| <= 1 && (r != "" ==> !IsLowerAscii(r[0]) && !IsSpace(r[0], JavaScript))
  {
    var u := Upper(Trim(Or(m.party, ""), JavaScript));
    if u == "" then "" else u[..1]
  }

  function CardOf(m: RawMember, bio: string): Card
    requires m.RawMember?
  {
    Card(bio, NameOf(m), Or(m.state, ""), Or(m.district, ""), PartyOf(m), Or(m.photo, NoPhoto))
  }

  /** The assignments `norm[bioguide] = {...}` of the loop, skipping members without an ID. */
  function Pairs(items: seq<RawMember>): seq<(string, Card)>
    decreases |items|
  {
    if items == [] then []
    else
      var m := items[|items| - 1];
      Pairs(items[..|items| - 1])
        + (if m.RawMember? && Truthy(BioguideOf(m)) then [(BioguideOf(m).value, CardOf(m, BioguideOf(m).value))] else [])
  }

  predicate HasNull(items: seq<RawMember>) {
    exists i :: 0 <= i < |items| && items[i].NullEntry?
  }

  /** What `loadMembers` resolves to: every failure (no file, not a list, a null element) gives `{}`. */
  function MembersLoaded(fetch: string -> Attempt<MembersDoc>): map<string, Card> {
    match FirstJson<MembersDoc>(Candidates("members.json"), fetch)
    case Failure(_) => map[]
    case Success(OtherJson) => map[]
    case Success(MemberList(items)) => if HasNull(items) then map[] else AssignAll(map[], Pairs(items))
  }

  lemma NoNullStep(items: seq<RawMember>, i: nat)
    requires i < |items| && !HasNull(items[..i]) && items[i].RawMember?
    ensures !HasNull(items[..i + 1])
  {
    var pre := items[..i + 1];
    forall j | 0 <= j < i + 1 ensures !pre[j].NullEntry? {
      if j < i { assert pre[j] == items[..i][j]; }
    }
  }

  /** One more element of the list, as the loop sees it. */
  lemma NormaliseStep(items: seq<RawMember>, i: nat)
    requires i < |items| && items[i].RawMember?
    ensures var m := items[i];
      AssignAll(map[], Pairs(items[..i + 1]))
        == if Truthy(BioguideOf(m)) then AssignAll(map[], Pairs(items[..i]))[BioguideOf(m).value := CardOf(m, BioguideOf(m).value)]
           else AssignAll(map[], Pairs(items[..i]))
  {
    var pre := items[..i + 1];
    assert pre[..i] == items[..i];
    var m := items[i];
    var ps := Pairs(items[..i]);
    if Truthy(BioguideOf(m)) {
      var x := (BioguideOf(m).value, CardOf(m, BioguideOf(m).value));
      assert Pairs(pre) == ps + [x];
      AssignAllSnoc(map[], ps, x);
    } else {
      assert Pairs(pre) == ps;
    }
  }

  /** The loop of `loadMembers` over the elements of the list. */
  method Normalise(items: seq<RawMember>) returns (norm: map<string, Card>)
    ensures norm == (if HasNull(items) then map[] else AssignAll(map[], Pairs(items)))
  {
    norm := map[];
    for i := 0 to |items|
      invariant !HasNull(items[..i])
      invariant norm == AssignAll(map[], Pairs(items[..i]))
    {
      var m := items[i];
      if m.NullEntry? {
        assert items[i].NullEntry?;
        return map[];
      }
      NoNullStep(items, i);
      NormaliseStep(items, i);
      var bio := BioguideOf(m);
      if Truthy(bio) {
        norm := norm[bio.value := CardOf(m, bio.value)];
      }
    }
    assert items[..|items|] == items;
  }

  /** `loadMembers`. */
  method LoadMembers(fetch: string -> Attempt<MembersDoc>) returns (norm: map<string, Card>)
    ensures norm == MembersLoaded(fetch)
  {
    var local := FetchFirstJson(Candidates("members.json"), fetch);
    if local.Failure? || local.value.OtherJson? {
      return map[];
    }
    norm := Normalise(local.value.items);
  }

  /** Every pair is keyed by a non-empty BioGuide ID and every card shows that ID and a photo. */
  lemma {:induction false} PairsShape(items: seq<RawMember>)
    ensures forall i :: 0 <= i < |Pairs(items)| ==>
              Pairs(items)[i].0 != "" && Pairs(items)[i].1.bioguide == Pairs(items)[i].0 && Pairs(items)[i].1.photo != ""
    decreases |items|
  {
    if items != [] {
      PairsShape(items[..|items| - 1]);
    }
  }

  /** The cards of the page: keyed by BioGuide ID, each with its own ID and a photo (a placeholder if need be). */
  lemma MembersLoadedShape(fetch: string -> Attempt<MembersDoc>)
    ensures forall b :: b in MembersLoaded(fetch) ==>
              b != "" && MembersLoaded(fetch)[b].bioguide == b && MembersLoaded(fetch)[b].photo != ""
  {
    var r := MembersLoaded(fetch);
    match FirstJson<MembersDoc>(Candidates("members.json"), fetch)
    case Failure(_) =>
    case Success(OtherJson) =>
    case Success(MemberList(items)) =>
      if !HasNull(items) {
        var ps := Pairs(items);
        PairsShape(items);
        AssignAllKeys(map[], ps);
        forall b | b in r ensures b != "" && r[b].bioguide == b && r[b].photo != "" {
          var i :| 0 <= i < |ps| && ps[i].0 == b;
          var k := LastWith(ps, b, i);
          AssignAllLast(map[], ps, k);
        }
      }
  }

  /** The last position of a key in a sequence of pairs, found from any position of it. */
  lemma {:induction false} LastWith(ps: seq<(string, Card)>, b: string, i: nat) returns (k: nat)
    requires i < |ps| && ps[i].0 == b
    ensures i <= k < |ps| && ps[k].0 == b
    ensures forall j :: k < j < |ps| ==> ps[j].0 != b
    decreases |ps| - i
  {
    if exists j :: i < j < |ps| && ps[j].0 == b {
      var j :| i < j < |ps| && ps[j].0 == b;
      k := LastWith(ps, b, j);
    } else {
      k := i;
    }
  }

  /** The members file the members script writes reads back with the same ID, name, state and photo. */
  lemma ReadBack(e: PullMembers.Member, district: Option<string>)
    requires e.bioguide != "" && e.photo != ""
    ensures var m := RawMember(Some(e.bioguide), None, Some(e.name), None, None, Some(e.party),
                               Some(e.state), district, Some(e.photo));
      CardOf(m, BioguideOf(m).value) == Card(e.bioguide, e.name, e.state, Or(district, ""), PartyOf(m), e.photo)
  {
  }

  /** A one-letter upper-case party code reads back unchanged. */
  lemma PartyReadBack(m: RawMember)
    requires m.RawMember? && m.party.Some? && |m.party.value| == 1 && IsUpperAscii(m.party.value[0])
    ensures PartyOf(m) == m.party.value
  {
    var s := m.party.value;
    assert !IsSpace(s[0], JavaScript);
    assert TrimStart(s, JavaScript) == s;
    assert TrimEnd(s, JavaScript) == s;
    assert Trim(s, JavaScript) == s;
    assert Upper(s) == [UpperChar(s[0])] == s;
  }

  /** One `null` element makes `loadMembers` give `{}`, whatever else the list holds. */
  lemma NullEntryEmpties(fetch: string -> Attempt<MembersDoc>, k: nat)
    requires FirstJson(Candidates("members.json"), fetch).Success?
    requires FirstJson(Candidates("members.json"), fetch).value.MemberList?
    requires k < |FirstJson(Candidates("members.json"), fetch).value.items|
    requires FirstJson(Candidates("members.json"), fetch).value.items[k].NullEntry?
    ensures MembersLoaded(fetch) == map[]
  {
  }
}
