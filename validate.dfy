/**
 * The consistency check of the generated data: every offender of every roll call, every
 * donor key and every alignment key must be the BioGuide ID of some member.
 */
module Validate {
  import opened Wrappers
  import opened Text

  /** A roll call: its key and the BioGuide fields of its offenders (`v.offenders || []`). */
  datatype Vote = Vote(key: string, offenders: Option<seq<Option<string>>>)

  datatype Warning = InVotes(key: string, offender: Option<string>) | InDonors(bio: string) | InAlign(bio: string)

  /** `new Set(members.map(m => m.bioguide))`; a member without the field contributes undefined. */
  function Known(members: seq<Option<string>>): (r: set<Option<string>>)
    ensures forall b :: b in r <==> b in members
  {
    set b | b in members
  }

  function VoteWarnings(votes: seq<Vote>, known: set<Option<string>>): seq<Warning>
    decreases |votes|
  {
    if votes == [] then []
    else
      var v := votes[|votes| - 1];
      VoteWarnings(votes[..|votes| - 1], known) + OffenderWarnings(v.key, v.offenders.GetOr([]), known)
  }

  function OffenderWarnings(key: string, bios: seq<Option<string>>, known: set<Option<string>>): seq<Warning>
    decreases |bios|
  {
    if bios == [] then []
    else
      var b := bios[|bios| - 1];
      OffenderWarnings(key, bios[..|bios| - 1], known) + (if b !in known then [InVotes(key, b)] else [])
  }

  function KeyWarnings(keys: seq<string>, known: set<Option<string>>, donors: bool): seq<Warning>
    decreases |keys|
  {
    if keys == [] then []
    else
      var b := keys[|keys| - 1];
      KeyWarnings(keys[..|keys| - 1], known, donors) + (if Some(b) !in known then [if donors then InDonors(b) else InAlign(b)] else [])
  }

  /** The warnings in the order the script prints them. */
  function Warnings(members: seq<Option<string>>, votes: seq<Vote>, donors: seq<string>, align: seq<string>): seq<Warning> {
    var known := Known(members);
    VoteWarnings(votes, known) + KeyWarnings(donors, known, true) + KeyWarnings(align, known, false)
  }

  /** The number of entries of `xs` that are not in `known`. */
  function Unknown<T>(xs: seq<T>, known: set<T>): nat {
    |set i | 0 <= i < |xs| && xs[i] !in known|
  }

  lemma UnknownNone<T>(known: set<T>)
    ensures Unknown([], known) == 0
  {
    var none: seq<T> := [];
    var s := set i | 0 <= i < |none| && none[i] !in known;
    assert forall i :: i !in s;
    assert s == {};
  }

  lemma UnknownSnoc<T>(xs: seq<T>, x: T, known: set<T>)
    ensures Unknown(xs + [x], known) == Unknown(xs, known) + (if x in known then 0 else 1)
  {
    var ys := xs + [x];
    var a := set i | 0 <= i < |xs| && xs[i] !in known;
    var b := set i | 0 <= i < |ys| && ys[i] !in known;
    if x in known {
      assert b == a;
    } else {
      assert b == a + {|xs|};
    }
  }

  /** One warning per offender entry whose ID is not a member's. */
  lemma {:induction false} OffenderWarningCount(key: string, bios: seq<Option<string>>, known: set<Option<string>>)
    ensures |OffenderWarnings(key, bios, known)| == Unknown(bios, known)
    decreases |bios|
  {
    if bios != [] {
      var init := bios[..|bios| - 1];
      OffenderWarningCount(key, init, known);
      assert bios == init + [bios[|bios| - 1]];
      UnknownSnoc(init, bios[|bios| - 1], known);
    }
  }

  function Somes(keys: seq<string>): (r: seq<Option<string>>)
    ensures |r| == |keys| && forall i :: 0 <= i < |keys| ==> r[i] == Some(keys[i])
  {
    if keys == [] then [] else [Some(keys[0])] + Somes(keys[1..])
  }

  lemma SomesSnoc(keys: seq<string>, k: string)
    ensures Somes(keys + [k]) == Somes(keys) + [Some(k)]
  {
    var l, r := Somes(keys + [k]), Somes(keys) + [Some(k)];
    assert |l| == |r|;
    forall i | 0 <= i < |l| ensures l[i] == r[i] {
      if i < |keys| {
        assert (keys + [k])[i] == keys[i];
      }
    }
  }

  /** One warning per key that is not a member's. */
  lemma {:induction false} KeyWarningCount(keys: seq<string>, known: set<Option<string>>, donors: bool)
    ensures |KeyWarnings(keys, known, donors)| == Unknown(Somes(keys), known)
    decreases |keys|
  {
    if keys != [] {
      var init, last := keys[..|keys| - 1], keys[|keys| - 1];
      KeyWarningCount(init, known, donors);
      assert keys == init + [last];
      SomesSnoc(init, last);
      UnknownSnoc(Somes(init), Some(last), known);
    }
  }

  function VoteUnknown(votes: seq<Vote>, known: set<Option<string>>): nat
    decreases |votes|
  {
    if votes == [] then 0
    else VoteUnknown(votes[..|votes| - 1], known) + Unknown(votes[|votes| - 1].offenders.GetOr([]), known)
  }

  lemma {:induction false} VoteWarningCount(votes: seq<Vote>, known: set<Option<string>>)
    ensures |VoteWarnings(votes, known)| == VoteUnknown(votes, known)
    decreases |votes|
  {
    if votes != [] {
      VoteWarningCount(votes[..|votes| - 1], known);
      var v := votes[|votes| - 1];
      OffenderWarningCount(v.key, v.offenders.GetOr([]), known);
    }
  }

  /**
   * The issue count is the unknown offender entries plus the unknown donor keys plus the
   * unknown alignment keys.
   */
  lemma BadCount(members: seq<Option<string>>, votes: seq<Vote>, donors: seq<string>, align: seq<string>)
    ensures var known := Known(members);
      |Warnings(members, votes, donors, align)|
        == VoteUnknown(votes, known) + Unknown(Somes(donors), known) + Unknown(Somes(align), known)
  {
    var known := Known(members);
    VoteWarningCount(votes, known);
    KeyWarningCount(donors, known, true);
    KeyWarningCount(align, known, false);
  }

  /** A roll call without offenders contributes nothing. */
  lemma NoOffendersNoIssues(votes: seq<Vote>, key: string, known: set<Option<string>>)
    ensures VoteUnknown(votes + [Vote(key, None)], known) == VoteUnknown(votes, known)
  {
    assert (votes + [Vote(key, None)])[..|votes|] == votes;
    UnknownNone(known);
  }

  function Summary(bad: nat): string {
    if bad != 0 then "Found " + NatToString(bad) + " issues" else "All good"
  }

  /** "All good" is printed exactly when there is no issue. */
  lemma AllGoodIffNoIssues(bad: nat)
    ensures Summary(bad) == "All good" <==> bad == 0
  {
    if bad != 0 {
      assert Summary(bad)[0] == 'F';
    }
  }

  /** The script's three loops; `bad` counts the warnings. */
  method Check(members: seq<Option<string>>, votes: seq<Vote>, donors: seq<string>, align: seq<string>)
      returns (warnings: seq<Warning>, bad: nat, summary: string)
    ensures warnings == Warnings(members, votes, donors, align)
    ensures bad == |warnings| && summary == Summary(bad)
  {
    var known := set b | b in members;
    warnings := [];
    for i := 0 to |votes|
      invariant warnings == VoteWarnings(votes[..i], known)
    {
      assert votes[..i + 1][..i] == votes[..i];
      var offenders := votes[i].offenders.GetOr([]);
      ghost var before := warnings;
      for j := 0 to |offenders|
        invariant warnings == before + OffenderWarnings(votes[i].key, offenders[..j], known)
      {
        assert offenders[..j + 1][..j] == offenders[..j];
        if offenders[j] !in known {
          warnings := warnings + [InVotes(votes[i].key, offenders[j])];
        }
      }
      assert offenders[..|offenders|] == offenders;
    }
    assert votes[..|votes|] == votes;
    ghost var afterVotes := warnings;
    for i := 0 to |donors|
      invariant warnings == afterVotes + KeyWarnings(donors[..i], known, true)
    {
      assert donors[..i + 1][..i] == donors[..i];
      if Some(donors[i]) !in known {
        warnings := warnings + [InDonors(donors[i])];
      }
    }
    assert donors[..|donors|] == donors;
    ghost var afterDonors := warnings;
    for i := 0 to |align|
      invariant warnings == afterDonors + KeyWarnings(align[..i], known, false)
    {
      assert align[..i + 1][..i] == align[..i];
      if Some(align[i]) !in known {
        warnings := warnings + [InAlign(align[i])];
      }
    }
    assert align[..|align|] == align;
    bad := |warnings|;
    summary := if bad != 0 then "Found " + NatToString(bad) + " issues" else "All good";
  }
}
