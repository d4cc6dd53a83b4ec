/**
 * Seeding `data/votes.json` from the bill pages: every `.html` file of the Bills directory
 * becomes an entry with a slug key, its title, a short title without the "(2027)" tag, a
 * link to the page and an empty list of offenders.
 */
module SeedVotes {
  import opened Wrappers
  import opened Text
  import opened Maps

  datatype Entry = Entry(title: string, short: string, href: string, award: string, meaning: string, offenders: seq<string>)

  /** `f.toLowerCase().endsWith(".html")`. */
  predicate IsPage(f: string) {
    EndsWith(Lower(f), ".html")
  }

  /** `f.replace(/\.html$/i, "")` on a page name: the name without its last five characters. */
  function Title(f: string): (t: string)
    requires IsPage(f)
    ensures f == t + f[|f| - 5..] && Lower(f[|f| - 5..]) == ".html"
  {
    assert Lower(f)[|f| - 5..] == Lower(f[|f| - 5..]);
    f[..|f| - 5]
  }

  // ---------------------------------------------------------------- the key

  predicate Space(c: char) { IsSpace(c, JavaScript) }

  /** `.replace(/\s+/g, "-")`: each run of whitespace becomes one dash (`inRun` after a space). */
  function DashSpaces(s: string, inRun: bool): (r: string)
    ensures forall c :: c in r ==> !Space(c) && (c in s || c == '-')
    decreases |s|
  {
    if s == [] then []
    else if Space(s[0]) then (if inRun then "" else "-") + DashSpaces(s[1..], true)
    else [s[0]] + DashSpaces(s[1..], false)
  }

  predicate Dropped(c: char) { c == '(' || c == ')' || c == '\'' || c == '&' }

  /** `.replace(/[()'&]/g, "")`. */
  function DropMarks(s: string): (r: string)
    ensures forall c :: c in r ==> c in s && !Dropped(c)
  {
    if s == [] then [] else (if Dropped(s[0]) then "" else [s[0]]) + DropMarks(s[1..])
  }

  /** `.replace(/-{2,}/g, "-")`: each run of dashes becomes one (`afterDash` after a dash). */
  function CollapseDashes(s: string, afterDash: bool): (r: string)
    ensures forall c :: c in r ==> c in s
    ensures afterDash ==> r == [] || r[0] != '-'
    ensures NoDoubleDash(r)
    decreases |s|
  {
    if s == [] then []
    else if s[0] == '-' then
      var rest := CollapseDashes(s[1..], true);
      if afterDash then rest else "-" + rest
    else [s[0]] + CollapseDashes(s[1..], false)
  }

  predicate NoDoubleDash(s: string) {
    forall i :: 0 <= i < |s| - 1 ==> !(s[i] == '-' && s[i + 1] == '-')
  }

  function Key(title: string): string {
    CollapseDashes(DropMarks(DashSpaces(Lower(title), false)), false)
  }

  /** The key has no whitespace, none of `()'&`, no upper-case ASCII letter and no "--". */
  lemma KeyShape(title: string)
    ensures forall c :: c in Key(title) ==> !Space(c) && !Dropped(c) && !IsUpperAscii(c)
    ensures NoDoubleDash(Key(title))
  {
    var l := Lower(title);
    forall c | c in l ensures !IsUpperAscii(c) {
      var i :| 0 <= i < |l| && l[i] == c;
    }
  }

  // ---------------------------------------------------------------- the short title

  const Tag := "(2027)"

  predicate OccursAt(s: string, sub: string, i: nat) {
    i + |sub| <= |s| && s[i..i + |sub|] == sub
  }

  /** An occurrence after the first character is an occurrence in the rest. */
  lemma OccursShift(s: string, sub: string)
    requires s != []
    ensures forall i :: 1 <= i ==> OccursAt(s, sub, i) == OccursAt(s[1..], sub, i - 1)
  {
    forall i | 1 <= i
      ensures OccursAt(s, sub, i) == OccursAt(s[1..], sub, i - 1)
    {
      if i + |sub| <= |s| {
        assert s[1..][i - 1..i - 1 + |sub|] == s[i..i + |sub|];
      }
    }
  }

  /** The first index where `sub` occurs. */
  function Find(s: string, sub: string): (r: Option<nat>)
    ensures r.Some? ==> OccursAt(s, sub, r.value) && forall i :: 0 <= i < r.value ==> !OccursAt(s, sub, i)
    ensures r.None? ==> forall i :: 0 <= i <= |s| ==> !OccursAt(s, sub, i)
    decreases |s|
  {
    if StartsWith(s, sub) then
      assert s[0..|sub|] == s[..|sub|];
      Some(0)
    else if s == [] then None
    else
      assert !OccursAt(s, sub, 0) by {
        if |sub| <= |s| {
          assert s[0..|sub|] == s[..|sub|];
        }
      }
      OccursShift(s, sub);
      match Find(s[1..], sub)
      case None => None
      case Some(k) => Some(k + 1)
  }

  /** The start of the whitespace run that ends at `i`. */
  function RunBefore(s: string, i: nat): (j: nat)
    requires i <= |s|
    ensures j <= i && forall k :: j <= k < i ==> Space(s[k])
    ensures j == 0 || !Space(s[j - 1])
  {
    if i > 0 && Space(s[i - 1]) then RunBefore(s, i - 1) else i
  }

  /** The end of the whitespace run that starts at `i`. */
  function RunAfter(s: string, i: nat): (j: nat)
    requires i <= |s|
    ensures i <= j <= |s| && forall k :: i <= k < j ==> Space(s[k])
    ensures j == |s| || !Space(s[j])
    decreases |s| - i
  {
    if i < |s| && Space(s[i]) then RunAfter(s, i + 1) else i
  }

  /**
   * `title.replace(/\s*\(2027\)\s*\/, "")`: the leftmost match starts with the whitespace
   * before the first "(2027)" and ends after the whitespace that follows it.
   */
  function Short(title: string): string {
    match Find(title, Tag)
    case None => title
    case Some(p) => title[..RunBefore(title, p)] + title[RunAfter(title, p + |Tag|)..]
  }

  /**
   * Without a tag the title is kept; otherwise the title is the short title's head, the
   * whitespace run before the first tag, the tag, the whitespace run after it and the short
   * title's tail (`RunBefore` and `RunAfter` state that the runs are maximal).
   */
  lemma ShortSpec(title: string, p: nat)
    requires Find(title, Tag) == Some(p)
    ensures var i, j := RunBefore(title, p), RunAfter(title, p + |Tag|);
      && title == title[..i] + title[i..p] + Tag + title[p + |Tag|..j] + title[j..]
      && Short(title) == title[..i] + title[j..]
  {
    Slices(title, RunBefore(title, p), p, p + |Tag|, RunAfter(title, p + |Tag|));
  }

  lemma Slices(s: string, i: nat, p: nat, q: nat, j: nat)
    requires i <= p <= q <= j <= |s|
    ensures s == s[..i] + s[i..p] + s[p..q] + s[q..j] + s[j..]
  {
    assert s[..p] == s[..i] + s[i..p];
    assert s[..q] == s[..p] + s[p..q];
    assert s[..j] == s[..q] + s[q..j];
    assert s == s[..j] + s[j..];
  }

  // ---------------------------------------------------------------- the file

  function EntryOf(f: string): Entry
    requires IsPage(f)
  {
    Entry(Title(f), Short(Title(f)), "/Bills/" + f, "", "", [])
  }

  function Pages(files: seq<string>): (r: seq<string>)
    ensures forall f :: f in r <==> f in files && IsPage(f)
  {
    if files == [] then [] else (if IsPage(files[0]) then [files[0]] else []) + Pages(files[1..])
  }

  function Pairs(pages: seq<string>): (r: seq<(string, Entry)>)
    requires forall f :: f in pages ==> IsPage(f)
    ensures |r| == |pages| && forall i :: 0 <= i < |pages| ==> r[i] == (Key(Title(pages[i])), EntryOf(pages[i]))
  {
    if pages == [] then [] else [(Key(Title(pages[0])), EntryOf(pages[0]))] + Pairs(pages[1..])
  }

  /** The dictionary, in directory order, a later page overwriting an earlier one with the same key. */
  function Seeded(files: seq<string>): map<string, Entry> {
    AssignAll(map[], Pairs(Pages(files)))
  }

  method Seed(files: seq<string>) returns (out: map<string, Entry>)
    ensures out == Seeded(files)
  {
    var pages := Pages(files);
    out := map[];
    for i := 0 to |pages|
      invariant out == AssignAll(map[], Pairs(pages)[..i])
    {
      AssignAllPrefix(map[], Pairs(pages), i);
      var f := pages[i];
      var title := f[..|f| - 5];
      var key := CollapseDashes(DropMarks(DashSpaces(Lower(title), false)), false);
      out := out[key := Entry(title, Short(title), "/Bills/" + f, "", "", [])];
    }
    assert Pairs(pages)[..|pages|] == Pairs(pages);
  }

  /** Every entry links to its page and carries no award, meaning or offenders. */
  lemma EntriesShape(files: seq<string>, i: nat)
    requires i < |Pages(files)|
    requires forall j :: i < j < |Pages(files)| ==> Key(Title(Pages(files)[j])) != Key(Title(Pages(files)[i]))
    ensures var f := Pages(files)[i];
      && Key(Title(f)) in Seeded(files)
      && Seeded(files)[Key(Title(f))] == Entry(Title(f), Short(Title(f)), "/Bills/" + f, "", "", [])
  {
    AssignAllLast(map[], Pairs(Pages(files)), i);
  }
}
