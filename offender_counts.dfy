/**
 * The offender tally: across the roll calls whose `offenders` field is a list, how many
 * offender entries name each BioGuide ID, and that count as a share of those roll calls.
 */
module OffenderCounts {
  import opened Wrappers
  import opened Maps

  /** A roll call's `offenders` field: missing, present but not a list, or the entries' BioGuide fields. */
  datatype Offenders = Missing | NotAList | List(bios: seq<Option<string>>)

  /** `counts[o.bioguide]`: an undefined field is the key "undefined". */
  function KeyOf(b: Option<string>): string { b.GetOr("undefined") }

  function Keys(bios: seq<Option<string>>): (r: seq<string>)
    ensures |r| == |bios| && forall i :: 0 <= i < |bios| ==> r[i] == KeyOf(bios[i])
  {
    if bios == [] then [] else [KeyOf(bios[0])] + Keys(bios[1..])
  }

  /** The roll calls counted (`total`). */
  function Total(votes: seq<Offenders>): nat
    decreases |votes|
  {
    if votes == [] then 0 else Total(votes[..|votes| - 1]) + (if votes[|votes| - 1].List? then 1 else 0)
  }

  /** The offender keys of the counted roll calls, in order. */
  function Entries(votes: seq<Offenders>): seq<string>
    decreases |votes|
  {
    if votes == [] then []
    else Entries(votes[..|votes| - 1]) + (if votes[|votes| - 1].List? then Keys(votes[|votes| - 1].bios) else [])
  }

  /** `counts[k] = (counts[k] || 0) + 1` for each key in order. */
  function Count(keys: seq<string>): map<string, nat>
    decreases |keys|
  {
    if keys == [] then map[]
    else
      var c := Count(keys[..|keys| - 1]);
      var k := keys[|keys| - 1];
      c[k := Get(c, k, 0) + 1]
  }

  lemma CountStep(keys: seq<string>, k: string)
    ensures Count(keys + [k]) == Count(keys)[k := Get(Count(keys), k, 0) + 1]
  {
    assert (keys + [k])[..|keys|] == keys;
  }

  /** The keys are those that occur, and each holds its number of occurrences. */
  lemma {:induction false} CountSpec(keys: seq<string>, k: string)
    ensures k in Count(keys) <==> k in keys
    ensures Get(Count(keys), k, 0) == multiset(keys)[k]
    decreases |keys|
  {
    if keys != [] {
      var init := keys[..|keys| - 1];
      CountSpec(init, k);
      assert keys == init + [keys[|keys| - 1]];
    }
  }

  /** A key that is counted comes from some counted roll call, so `total` is at least 1. */
  lemma {:induction false} CountedImpliesTotal(votes: seq<Offenders>)
    requires Entries(votes) != []
    ensures Total(votes) >= 1
    decreases |votes|
  {
    if Entries(votes[..|votes| - 1]) != [] {
      CountedImpliesTotal(votes[..|votes| - 1]);
    }
  }

  /** A roll call without a list of offenders adds to neither the counts nor the total. */
  lemma SkippedVote(votes: seq<Offenders>, v: Offenders)
    requires !v.List?
    ensures Total(votes + [v]) == Total(votes) && Entries(votes + [v]) == Entries(votes)
  {
    assert (votes + [v])[..|votes|] == votes;
  }

  /** `+(n / total).toFixed(3)`: the quotient rounded half up to three decimals. */
  function Share(n: nat, total: nat): real {
    if total == 0 then 0.0 else ((2000 * n + total) / (2 * total)) as real / 1000.0
  }

  /** The share is within half a thousandth of the exact quotient. */
  lemma ShareClose(n: nat, total: nat)
    requires total >= 1
    ensures -1.0 / 2000.0 < Share(n, total) - n as real / total as real <= 1.0 / 2000.0
  {
    var q := (2000 * n + total) / (2 * total);
    var r := (2000 * n + total) % (2 * total);
    assert 2000 * n + total == q * (2 * total) + r && 0 <= r < 2 * total;
    var e := q * (2 * total) - 2000 * n;
    assert -(total as int) < e <= total;
    ShareAsRatio(n, total, q, e);
    ErrorBound(e as real, total as real);
  }

  lemma ShareAsRatio(n: nat, total: nat, q: int, e: int)
    requires total >= 1 && q == (2000 * n + total) / (2 * total) && e == q * (2 * total) - 2000 * n
    ensures Share(n, total) - n as real / total as real == e as real / (2000.0 * total as real)
  {
    var t := total as real;
    assert Share(n, total) == q as real / 1000.0;
    assert q as real / 1000.0 == (q as real * 2.0 * t) / (2000.0 * t);
    assert n as real / t == (2000.0 * n as real) / (2000.0 * t);
    assert (e as real) == q as real * 2.0 * t - 2000.0 * n as real;
  }

  lemma ErrorBound(e: real, t: real)
    requires t > 0.0 && -t < e <= t
    ensures -1.0 / 2000.0 < e / (2000.0 * t) <= 1.0 / 2000.0
  {
    var x := e / (2000.0 * t);
    assert x * (2000.0 * t) == e;
    assert (1.0 / 2000.0) * (2000.0 * t) == t;
  }

  datatype Alignment = Alignment(offenderVotes: nat, share: real)

  /** The output: one entry per counted key. */
  function Alignments(votes: seq<Offenders>): map<string, Alignment> {
    var counts := Count(Entries(votes));
    map b | b in counts :: Alignment(counts[b], Share(counts[b], Total(votes)))
  }

  /**
   * A key has an entry exactly when some counted roll call lists it; the entry holds the
   * number of times it is listed, and a share within half a thousandth of that count over
   * the roll calls counted.
   */
  lemma AlignmentsSpec(votes: seq<Offenders>, k: string)
    ensures k in Alignments(votes) <==> k in Entries(votes)
    ensures k in Alignments(votes) ==>
      var a := Alignments(votes)[k];
      && a.offenderVotes == multiset(Entries(votes))[k] >= 1
      && Total(votes) >= 1
      && -1.0 / 2000.0 < a.share - a.offenderVotes as real / Total(votes) as real <= 1.0 / 2000.0
  {
    CountSpec(Entries(votes), k);
    if k in Entries(votes) {
      CountedImpliesTotal(votes);
      ShareClose(Count(Entries(votes))[k], Total(votes));
    }
  }

  /** The counting loop, over the roll calls and then each one's offenders. */
  method Tally(votes: seq<Offenders>) returns (counts: map<string, nat>, total: nat)
    ensures counts == Count(Entries(votes)) && total == Total(votes)
  {
    counts, total := map[], 0;
    for i := 0 to |votes|
      invariant counts == Count(Entries(votes[..i])) && total == Total(votes[..i])
    {
      assert votes[..i + 1][..i] == votes[..i];
      if !votes[i].List? {
        assert Entries(votes[..i + 1]) == Entries(votes[..i]);
        continue;
      }
      total := total + 1;
      var bios := votes[i].bios;
      ghost var before := Entries(votes[..i]);
      counts := AddOffenders(before, counts, bios);
      assert Entries(votes[..i + 1]) == before + Keys(bios);
    }
    assert votes[..|votes|] == votes;
  }

  /** Counting one more key of a block of keys. */
  lemma PrefixStep(before: seq<string>, ks: seq<string>, j: nat)
    requires j < |ks|
    ensures Count(before + ks[..j + 1]) == Count(before + ks[..j])[ks[j] := Get(Count(before + ks[..j]), ks[j], 0) + 1]
  {
    assert before + ks[..j + 1] == (before + ks[..j]) + [ks[j]];
    CountStep(before + ks[..j], ks[j]);
  }

  /** The inner loop over one roll call's offenders. */
  method AddOffenders(ghost before: seq<string>, counts: map<string, nat>, bios: seq<Option<string>>) returns (counts': map<string, nat>)
    requires counts == Count(before)
    ensures counts' == Count(before + Keys(bios))
  {
    ghost var ks := Keys(bios);
    counts' := counts;
    assert before + ks[..0] == before;
    for j := 0 to |bios|
      invariant counts' == Count(before + ks[..j])
    {
      var key := KeyOf(bios[j]);
      assert key == ks[j];
      PrefixStep(before, ks, j);
      counts' := counts'[key := (if key in counts' then counts'[key] else 0) + 1];
    }
    assert ks[..|bios|] == ks;
  }

  /** The script's two loops. */
  method BuildAlignments(votes: seq<Offenders>) returns (out: map<string, Alignment>)
    ensures out == Alignments(votes)
  {
    var counts, total := Tally(votes);
    out := map[];
    var todo := counts.Keys;
    while todo != {}
      invariant todo <= counts.Keys
      invariant out == map b | b in counts.Keys - todo :: Alignment(counts[b], Share(counts[b], total))
      decreases todo
    {
      var bio :| bio in todo;
      var n := counts[bio];
      out := out[bio := Alignment(n, if total != 0 then ((2000 * n + total) / (2 * total)) as real / 1000.0 else 0.0)];
      todo := todo - {bio};
    }
  }
}
