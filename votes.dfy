/**
 * Member positions on a roll-call vote, from either the legacy `positions` records or the
 * `results.item` entries of the Congress.gov API, and the unwrapping of API responses.
 */
module Votes {
  import opened Wrappers
  import opened Maps
  import Json

  /** A legacy record; a missing key is None. */
  datatype PositionRecord = PositionRecord(memberId: Option<string>, votePosition: Option<string>)

  /** An API vote item; a missing key is None. */
  datatype Item = Item(bioguideId: Option<string>, voteCast: Option<string>)

  /** The `results` value: an object with an optional `item` list, or something that is not an object. */
  datatype Results = ResultsObject(item: Option<seq<Item>>) | NotAnObject

  datatype Vote = Vote(positions: Option<seq<PositionRecord>>, results: Option<Results>)

  /** The normalisation table: Aye and Yea are "Yes", Nay and No are "No", any other cast is kept. */
  function Normalise(cast: string): (r: string)
    ensures cast == "Aye" || cast == "Yea" ==> r == "Yes"
    ensures cast == "Nay" || cast == "No" ==> r == "No"
    ensures cast !in {"Aye", "Yea", "Nay", "No"} ==> r == cast
  {
    if cast == "Aye" || cast == "Yea" then "Yes"
    else if cast == "Nay" || cast == "No" then "No"
    else cast
  }

  /** The error raised by a legacy record missing a key. */
  const BadRecord: string := "position record without member_id or vote_position"

  /** The assignments the legacy loop makes, in order; a record missing a key is an error. */
  function LegacyPairs(records: seq<PositionRecord>): (r: Result<seq<(string, string)>, string>)
    ensures r.Success? <==> forall i :: 0 <= i < |records| ==> records[i].memberId.Some? && records[i].votePosition.Some?
    ensures r.Failure? ==> r.error == BadRecord
    ensures r.Success? ==> (|r.value| == |records|
      && forall i :: 0 <= i < |records| ==> r.value[i] == (records[i].memberId.value, records[i].votePosition.value))
    decreases |records|
  {
    if records == [] then Success([])
    else
      var last := records[|records| - 1];
      var init := LegacyPairs(records[..|records| - 1]);
      assert forall i :: 0 <= i < |records| - 1 ==> records[..|records| - 1][i] == records[i];
      if last.memberId.None? || last.votePosition.None? then Failure(BadRecord)
      else match init
        case Failure(e) => Failure(e)
        case Success(pairs) => Success(pairs + [(last.memberId.value, last.votePosition.value)])
  }

  predicate Counts(item: Item) {
    item.bioguideId.Some? && item.bioguideId.value != "" && item.voteCast.Some? && item.voteCast.value != ""
  }

  /** The assignments the API loop makes, in order: items without a member or a cast are skipped. */
  function ItemPairs(items: seq<Item>): (r: seq<(string, string)>)
    ensures forall p :: p in r ==> exists i :: 0 <= i < |items| && Counts(items[i]) && p == (items[i].bioguideId.value, Normalise(items[i].voteCast.value))
    decreases |items|
  {
    if items == [] then []
    else
      var init := ItemPairs(items[..|items| - 1]);
      var last := items[|items| - 1];
      assert forall i :: 0 <= i < |items| - 1 ==> items[..|items| - 1][i] == items[i];
      if Counts(last) then init + [(last.bioguideId.value, Normalise(last.voteCast.value))] else init
  }

  function ResultItems(v: Vote): seq<Item> {
    match v.results
    case Some(ResultsObject(item)) => item.GetOr([])
    case _ => []
  }

  /** What `parse_member_positions` returns: the legacy assignments, then the API assignments. */
  function Positions(v: Vote): Result<map<string, string>, string> {
    var legacy :- LegacyPairs(v.positions.GetOr([]));
    Success(AssignAll(AssignAll(map[], legacy), ItemPairs(ResultItems(v))))
  }

  /** `parse_member_positions`: two loops of overwriting assignments into one dictionary. */
  method ParseMemberPositions(v: Vote) returns (r: Result<map<string, string>, string>)
    ensures r == Positions(v)
  {
    var positions: map<string, string> := map[];
    var records := v.positions.GetOr([]);
    ghost var done: seq<(string, string)> := [];
    for i := 0 to |records|
      invariant LegacyPairs(records[..i]) == Success(done)
      invariant positions == AssignAll(map[], done)
    {
      assert records[..i + 1][..i] == records[..i];
      if records[i].memberId.None? || records[i].votePosition.None? {
        assert records[..i + 1][i] == records[i];
        LegacyFails(records, i + 1);
        return Failure(BadRecord);
      }
      positions := positions[records[i].memberId.value := records[i].votePosition.value];
      done := done + [(records[i].memberId.value, records[i].votePosition.value)];
    }
    assert records[..|records|] == records;
    ghost var legacy := done;
    if v.results.Some? && v.results.value.ResultsObject? {
      var items := v.results.value.item.GetOr([]);
      done := [];
      for i := 0 to |items|
        invariant ItemPairs(items[..i]) == done
        invariant positions == AssignAll(AssignAll(map[], legacy), done)
      {
        assert items[..i + 1][..i] == items[..i];
        var member := items[i].bioguideId;
        var cast := items[i].voteCast;
        if member.Some? && member.value != "" && cast.Some? && cast.value != "" {
          positions := positions[member.value := Normalise(cast.value)];
          done := done + [(member.value, Normalise(cast.value))];
        }
      }
      assert items[..|items|] == items;
    }
    r := Success(positions);
  }

  /** A bad record anywhere in a prefix makes the whole legacy list fail. */
  lemma {:induction false} LegacyFails(records: seq<PositionRecord>, n: nat)
    requires 0 < n <= |records|
    requires LegacyPairs(records[..n]).Failure?
    ensures LegacyPairs(records).Failure?
  {
    var i :| 0 <= i < n && (records[..n][i].memberId.None? || records[..n][i].votePosition.None?);
    assert records[i] == records[..n][i];
  }

  /** With neither `positions` nor `results`, the result is empty. */
  lemma NeitherKeyIsEmpty()
    ensures Positions(Vote(None, None)) == Success(map[])
  {
  }

  /** A `results` value that is not an object is ignored: only the legacy records count. */
  lemma NonObjectResultsIgnored(records: Option<seq<PositionRecord>>)
    ensures Positions(Vote(records, Some(NotAnObject))) == Positions(Vote(records, None))
  {
  }

  /** The last legacy record for a member decides their position, unless an API item names them. */
  lemma LegacyLastWins(v: Vote, i: nat)
    requires v.positions.Some? && i < |v.positions.value|
    requires forall j :: 0 <= j < |v.positions.value| ==> v.positions.value[j].memberId.Some? && v.positions.value[j].votePosition.Some?
    requires forall j :: i < j < |v.positions.value| ==> v.positions.value[j].memberId != v.positions.value[i].memberId
    requires forall j :: 0 <= j < |ResultItems(v)| ==> !(Counts(ResultItems(v)[j]) && ResultItems(v)[j].bioguideId == v.positions.value[i].memberId)
    ensures Positions(v).Success?
    ensures var m := v.positions.value[i].memberId.value;
      m in Positions(v).value && Positions(v).value[m] == v.positions.value[i].votePosition.value
  {
    var records := v.positions.value;
    var legacy := LegacyPairs(records).value;
    var m := records[i].memberId.value;
    AssignAllLast(map[], legacy, i);
    var items := ItemPairs(ResultItems(v));
    forall j | 0 <= j < |items| ensures items[j].0 != m {
      assert items[j] in items;
    }
    AssignAllUntouched(AssignAll(map[], legacy), items, m);
  }

  /** An API item overrides every legacy record for its member: the last counting item decides. */
  lemma ItemOverrides(v: Vote, k: nat)
    requires Positions(v).Success?
    requires k < |ResultItems(v)| && Counts(ResultItems(v)[k])
    requires forall j :: k < j < |ResultItems(v)| ==> !(Counts(ResultItems(v)[j]) && ResultItems(v)[j].bioguideId == ResultItems(v)[k].bioguideId)
    ensures var item := ResultItems(v)[k];
      item.bioguideId.value in Positions(v).value && Positions(v).value[item.bioguideId.value] == Normalise(item.voteCast.value)
  {
    var items := ResultItems(v);
    ItemPairsLast(items, k);
    var pairs := ItemPairs(items);
    var legacy := LegacyPairs(v.positions.GetOr([])).value;
    var idx := |ItemPairs(items[..k])|;
    AssignAllLast(AssignAll(map[], legacy), pairs, idx);
  }

  /** The pair of the item at `k` sits in `ItemPairs` at index `|ItemPairs(items[..k])|`, and no later pair names that member. */
  lemma {:induction false} ItemPairsLast(items: seq<Item>, k: nat)
    requires k < |items| && Counts(items[k])
    requires forall j :: k < j < |items| ==> !(Counts(items[j]) && items[j].bioguideId == items[k].bioguideId)
    ensures var pairs := ItemPairs(items); var idx := |ItemPairs(items[..k])|;
      idx < |pairs| && pairs[idx] == (items[k].bioguideId.value, Normalise(items[k].voteCast.value))
      && forall j :: idx < j < |pairs| ==> pairs[j].0 != items[k].bioguideId.value
    decreases |items|
  {
    var init := items[..|items| - 1];
    if k == |items| - 1 {
      assert items[..k] == init;
    } else {
      forall j | k < j < |init| ensures !(Counts(init[j]) && init[j].bioguideId == init[k].bioguideId) {
        assert init[j] == items[j];
      }
      ItemPairsLast(init, k);
      assert init[..k] == items[..k];
    }
  }

  /** The members in the result are exactly those named by a legacy record or by a counting API item. */
  lemma PositionsKeys(v: Vote, m: string)
    requires Positions(v).Success?
    ensures m in Positions(v).value <==>
      (exists i :: 0 <= i < |v.positions.GetOr([])| && v.positions.GetOr([])[i].memberId == Some(m))
      || (exists j :: 0 <= j < |ResultItems(v)| && Counts(ResultItems(v)[j]) && ResultItems(v)[j].bioguideId == Some(m))
  {
    var records := v.positions.GetOr([]);
    var legacy := LegacyPairs(records).value;
    var items := ResultItems(v);
    var pairs := ItemPairs(items);
    AssignAllKeys(map[], legacy);
    AssignAllKeys(AssignAll(map[], legacy), pairs);
    if m in Positions(v).value {
      if m in set i | 0 <= i < |pairs| :: pairs[i].0 {
        var i :| 0 <= i < |pairs| && pairs[i].0 == m;
        assert pairs[i] in pairs;
      } else {
        var i :| 0 <= i < |legacy| && legacy[i].0 == m;
        assert records[i].memberId == Some(m);
      }
    }
    if exists i :: 0 <= i < |records| && records[i].memberId == Some(m) {
      var i :| 0 <= i < |records| && records[i].memberId == Some(m);
      assert legacy[i].0 == m;
    }
    if exists j :: 0 <= j < |items| && Counts(items[j]) && items[j].bioguideId == Some(m) {
      var j :| 0 <= j < |items| && Counts(items[j]) && items[j].bioguideId == Some(m);
      var k := LastNaming(items, j, m);
      ItemPairsLast(items, k);
    }
  }

  /** The last counting item naming `m`, at or after `j`. */
  lemma LastNaming(items: seq<Item>, j: nat, m: string) returns (k: nat)
    requires j < |items| && Counts(items[j]) && items[j].bioguideId == Some(m)
    ensures j <= k < |items| && Counts(items[k]) && items[k].bioguideId == Some(m)
    ensures forall i :: k < i < |items| ==> !(Counts(items[i]) && items[i].bioguideId == items[k].bioguideId)
    decreases |items| - j
  {
    if exists i :: j < i < |items| && Counts(items[i]) && items[i].bioguideId == Some(m) {
      var i :| j < i < |items| && Counts(items[i]) && items[i].bioguideId == Some(m);
      k := LastNaming(items, i, m);
    } else {
      k := j;
    }
  }

  // ---------------------------------------------------------------- response unwrapping

  /**
   * `fetch_votes`: the `houseRollCallVote` value inside `houseRollCallVotes`, each defaulting
   * (to an empty object and an empty list); an outer value that is not an object is an error.
   */
  function VoteList(data: map<string, Json.Value>): (r: Result<Json.Value, string>)
    ensures "houseRollCallVotes" !in data ==> r == Success(Json.Arr([]))
    ensures r.Failure? <==> "houseRollCallVotes" in data && !data["houseRollCallVotes"].Obj?
  {
    var outer := Json.Field(data, "houseRollCallVotes").GetOr(Json.Obj(map[]));
    if !outer.Obj? then Failure("houseRollCallVotes is not an object")
    else Success(Json.Field(outer.fields, "houseRollCallVote").GetOr(Json.Arr([])))
  }

  /**
   * `fetch_roll_call_vote`: the first truthy of `houseRollCallVoteMemberVotes` and
   * `houseRollCallVote`, else the whole payload.
   */
  function RollCallVote(data: map<string, Json.Value>): (r: Json.Value)
    ensures "houseRollCallVoteMemberVotes" in data && Json.PyTruthy(data["houseRollCallVoteMemberVotes"])
      ==> r == data["houseRollCallVoteMemberVotes"]
    ensures (!("houseRollCallVoteMemberVotes" in data && Json.PyTruthy(data["houseRollCallVoteMemberVotes"]))
             && "houseRollCallVote" in data && Json.PyTruthy(data["houseRollCallVote"]))
      ==> r == data["houseRollCallVote"]
    ensures r != Json.Obj(data) ==> Json.PyTruthy(r)
  {
    var first := Json.Field(data, "houseRollCallVoteMemberVotes");
    var second := Json.Field(data, "houseRollCallVote");
    if first.Some? && Json.PyTruthy(first.value) then first.value
    else if second.Some? && Json.PyTruthy(second.value) then second.value
    else Json.Obj(data)
  }
}
