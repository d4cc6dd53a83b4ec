/**
 * The starter alignment index: for each member with a donor profile, the share of the
 * money-related roll calls (title mentioning campaign, finance, lobby, dark or ethic) on
 * which the member is listed among the offenders.
 */
module Alignments {
  import opened Wrappers
  import opened Text

  /** A roll call of `data/votes.json`: its title and the BioGuide fields of its offenders. */
  datatype Meta = Meta(title: Option<string>, offenders: Option<seq<Option<string>>>)

  /** `/campaign|finance|lobby|dark|ethic/i.test(meta.title || "")`. */
  predicate IsMoney(m: Meta) {
    var t := Lower(m.title.GetOr(""));
    Contains(t, "campaign") || Contains(t, "finance") || Contains(t, "lobby") || Contains(t, "dark") || Contains(t, "ethic")
  }

  /** `(meta.offenders || []).some(o => o.bioguide === bio)`. */
  predicate Offends(m: Meta, bio: string) {
    Some(bio) in m.offenders.GetOr([])
  }

  /** The money votes counted. */
  function Seen(votes: seq<Meta>): nat
    decreases |votes|
  {
    if votes == [] then 0 else Seen(votes[..|votes| - 1]) + (if IsMoney(votes[|votes| - 1]) then 1 else 0)
  }

  /** The money votes on which `bio` is an offender, each counted once. */
  function Aligned(votes: seq<Meta>, bio: string): nat
    decreases |votes|
  {
    if votes == [] then 0
    else Aligned(votes[..|votes| - 1], bio) + (if IsMoney(votes[|votes| - 1]) && Offends(votes[|votes| - 1], bio) then 1 else 0)
  }

  /** `seen ? aligned / seen : 0`. */
  function Index(votes: seq<Meta>, bio: string): real {
    if Seen(votes) != 0 then Aligned(votes, bio) as real / Seen(votes) as real else 0.0
  }

  lemma {:induction false} AlignedAtMostSeen(votes: seq<Meta>, bio: string)
    ensures Aligned(votes, bio) <= Seen(votes)
    decreases |votes|
  {
    if votes != [] {
      AlignedAtMostSeen(votes[..|votes| - 1], bio);
    }
  }

  /** A share of `s` counts, `a` of them picked, lies in [0, 1] and multiplies back to `a`. */
  lemma Share(a: nat, s: nat)
    requires 0 < s && a <= s
    ensures 0.0 <= a as real / s as real <= 1.0
    ensures a as real / s as real * s as real == a as real
  {
    var q := a as real / s as real;
    assert q * s as real == a as real;
  }

  /** The index lies in [0, 1], and is 0 when no money vote was seen or the member offended on none. */
  lemma IndexBounded(votes: seq<Meta>, bio: string)
    ensures 0.0 <= Index(votes, bio) <= 1.0
    ensures Seen(votes) == 0 || Aligned(votes, bio) == 0 ==> Index(votes, bio) == 0.0
    ensures Seen(votes) != 0 ==> Index(votes, bio) * Seen(votes) as real == Aligned(votes, bio) as real
  {
    var a, s := Aligned(votes, bio), Seen(votes);
    AlignedAtMostSeen(votes, bio);
    if s != 0 {
      Share(a, s);
    }
  }

  /** A vote that is not money-related changes no index. */
  lemma OtherVotesIgnored(votes: seq<Meta>, v: Meta, bio: string)
    requires !IsMoney(v)
    ensures Index(votes + [v], bio) == Index(votes, bio)
  {
    assert (votes + [v])[..|votes|] == votes;
  }

  /** The inner loop over the votes for one member. */
  method Tally(votes: seq<Meta>, bio: string) returns (seen: nat, aligned: nat)
    ensures seen == Seen(votes) && aligned == Aligned(votes, bio)
  {
    seen, aligned := 0, 0;
    for i := 0 to |votes|
      invariant seen == Seen(votes[..i]) && aligned == Aligned(votes[..i], bio)
    {
      assert votes[..i + 1][..i] == votes[..i];
      var meta := votes[i];
      var t := Lower(meta.title.GetOr(""));
      if !(Contains(t, "campaign") || Contains(t, "finance") || Contains(t, "lobby") || Contains(t, "dark") || Contains(t, "ethic")) {
        continue;
      }
      var off := Some(bio) in meta.offenders.GetOr([]);
      seen := seen + 1;
      if off {
        aligned := aligned + 1;
      }
    }
    assert votes[..|votes|] == votes;
  }

  /** One entry per donor key, holding that member's index. */
  method BuildAlignments(donors: set<string>, votes: seq<Meta>) returns (out: map<string, real>)
    ensures out == map b | b in donors :: Index(votes, b)
  {
    out := map[];
    var todo := donors;
    while todo != {}
      invariant todo <= donors
      invariant out == map b | b in donors - todo :: Index(votes, b)
      decreases todo
    {
      var bio :| bio in todo;
      var seen, aligned := Tally(votes, bio);
      out := out[bio := if seen != 0 then aligned as real / seen as real else 0.0];
      todo := todo - {bio};
    }
  }
}
