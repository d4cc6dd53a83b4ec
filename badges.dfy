/**
 * Badge assignment: five threshold rules over a member's summary, each giving at most one
 * badge, in a fixed order.
 */
module Badges {
  import opened Wrappers

  /** A member summary; a missing key is None. */
  datatype Summary = Summary(memberId: Option<string>, financeConflicts: Option<real>, financeAlignmentIndex: Option<real>,
                             topIndustries: Option<seq<string>>, pharmaConflicts: Option<real>,
                             defenseAlignmentIndex: Option<real>, pacShare: Option<real>, smallDonorShare: Option<real>)

  datatype Badge = Badge(memberId: string, code: string, title: string)

  const WallStreet := Badge("", "WALL_STREET_WONT_LIKE_IT", "Wall Street Won't Like It")
  const Healthcare := Badge("", "HEALTHCARE_INDEPENDENT", "Healthcare Independent")
  const Defense := Badge("", "DEFENSE_ALIGNED", "Defense Aligned")
  const SmallDollars := Badge("", "SMALL_DOLLARS_HEAVY", "Small Dollars Heavy")
  const IndustryUnknown := Badge("", "INDUSTRY_LEAN_UNKNOWN", "Industry Lean Unknown")

  /** The five rules in the order they are tried. */
  const Rules: seq<Badge> := [WallStreet, Healthcare, Defense, SmallDollars, IndustryUnknown]

  function Industries(s: Summary): seq<string> {
    s.topIndustries.GetOr([])
  }

  predicate WallStreetRule(s: Summary) {
    s.financeConflicts.GetOr(0.0) >= 3.0 && s.financeAlignmentIndex.GetOr(1.0) <= 0.35
  }

  predicate HealthcareRule(s: Summary) {
    "Healthcare" in Industries(s) && s.pharmaConflicts.GetOr(0.0) >= 2.0
  }

  predicate DefenseRule(s: Summary) {
    "Defense" in Industries(s) && s.defenseAlignmentIndex.GetOr(0.0) >= 0.65
  }

  predicate SmallDollarsRule(s: Summary) {
    s.pacShare.GetOr(1.0) <= 0.2 && s.smallDonorShare.GetOr(0.0) >= 0.4
  }

  /** `top_industries[0] == "Unknown"`, where an absent list reads as `[None]`. */
  predicate UnknownRule(s: Summary)
    requires s.topIndustries.None? || |s.topIndustries.value| > 0
  {
    s.topIndustries.Some? && s.topIndustries.value[0] == "Unknown"
  }

  /** Whether rule `i` fires. */
  predicate Fires(s: Summary, i: nat)
    requires i < |Rules|
    requires s.topIndustries.None? || |s.topIndustries.value| > 0
  {
    if i == 0 then WallStreetRule(s)
    else if i == 1 then HealthcareRule(s)
    else if i == 2 then DefenseRule(s)
    else if i == 3 then SmallDollarsRule(s)
    else UnknownRule(s)
  }

  /** The badges of the rules among the first `n` that fire, in rule order, for `mid`. */
  function Earned(s: Summary, mid: string, n: nat): (r: seq<Badge>)
    requires n <= |Rules|
    requires s.topIndustries.None? || |s.topIndustries.value| > 0
  {
    if n == 0 then []
    else Earned(s, mid, n - 1) + (if Fires(s, n - 1) then [Rules[n - 1].(memberId := mid)] else [])
  }

  /**
   * What `assign_badges` returns: an error without `member_id` or with a present but empty
   * `top_industries`; otherwise the badges of the rules that fire.
   */
  function AssignSpec(s: Summary): Result<seq<Badge>, string> {
    if s.memberId.None? then Failure("member_id missing")
    else if s.topIndustries.Some? && |s.topIndustries.value| == 0 then Failure("top_industries is empty")
    else Success(Earned(s, s.memberId.value, |Rules|))
  }

  /** `assign_badges`: the guarded appends, one per rule. */
  method AssignBadges(s: Summary) returns (r: Result<seq<Badge>, string>)
    ensures r == AssignSpec(s)
  {
    if s.memberId.None? {
      return Failure("member_id missing");
    }
    var mid := s.memberId.value;
    if s.topIndustries.Some? && |s.topIndustries.value| == 0 {
      return Failure("top_industries is empty");
    }
    var badges: seq<Badge> := [];
    if s.financeConflicts.GetOr(0.0) >= 3.0 && s.financeAlignmentIndex.GetOr(1.0) <= 0.35 {
      badges := badges + [Badge(mid, "WALL_STREET_WONT_LIKE_IT", "Wall Street Won't Like It")];
    }
    assert badges == Earned(s, mid, 1);
    if "Healthcare" in s.topIndustries.GetOr([]) && s.pharmaConflicts.GetOr(0.0) >= 2.0 {
      badges := badges + [Badge(mid, "HEALTHCARE_INDEPENDENT", "Healthcare Independent")];
    }
    assert badges == Earned(s, mid, 2);
    if "Defense" in s.topIndustries.GetOr([]) && s.defenseAlignmentIndex.GetOr(0.0) >= 0.65 {
      badges := badges + [Badge(mid, "DEFENSE_ALIGNED", "Defense Aligned")];
    }
    assert badges == Earned(s, mid, 3);
    if s.pacShare.GetOr(1.0) <= 0.2 && s.smallDonorShare.GetOr(0.0) >= 0.4 {
      badges := badges + [Badge(mid, "SMALL_DOLLARS_HEAVY", "Small Dollars Heavy")];
    }
    assert badges == Earned(s, mid, 4);
    var first: Option<string> := if s.topIndustries.None? then None else Some(s.topIndustries.value[0]);
    if first == Some("Unknown") {
      badges := badges + [Badge(mid, "INDUSTRY_LEAN_UNKNOWN", "Industry Lean Unknown")];
    }
    assert badges == Earned(s, mid, 5);
    r := Success(badges);
  }

  lemma RuleIndexOf(j: nat)
    requires j < |Rules|
    ensures RuleIndex(Rules[j].code) == j
  {
  }

  /** A rule's badge is among the result iff the rule fires. */
  lemma {:induction false} EarnedIff(s: Summary, mid: string, n: nat, i: nat)
    requires i < n <= |Rules|
    requires s.topIndustries.None? || |s.topIndustries.value| > 0
    ensures Rules[i].(memberId := mid) in Earned(s, mid, n) <==> Fires(s, i)
    decreases n
  {
    RuleIndexOf(i);
    RuleIndexOf(n - 1);
    if i < n - 1 {
      EarnedIff(s, mid, n - 1, i);
    } else {
      EarnedCodes(s, mid, n - 1);
      if Rules[i].(memberId := mid) in Earned(s, mid, n - 1) {
        var j :| 0 <= j < n - 1 && Rules[i].(memberId := mid) == Rules[j].(memberId := mid);
        RuleIndexOf(j);
        assert false;
      }
    }
  }

  /** Every badge of the first `n` rules is a rule's badge for `mid`, and their codes come in rule order, each at most once. */
  lemma {:induction false} EarnedCodes(s: Summary, mid: string, n: nat)
    requires n <= |Rules|
    requires s.topIndustries.None? || |s.topIndustries.value| > 0
    ensures forall b :: b in Earned(s, mid, n) ==> b.memberId == mid && exists i :: 0 <= i < n && b == Rules[i].(memberId := mid)
    ensures forall j, k :: 0 <= j < k < |Earned(s, mid, n)| ==> RuleIndex(Earned(s, mid, n)[j].code) < RuleIndex(Earned(s, mid, n)[k].code)
    decreases n
  {
    if n > 0 {
      EarnedCodes(s, mid, n - 1);
      var e := Earned(s, mid, n - 1);
      forall j | 0 <= j < |e| ensures RuleIndex(e[j].code) < n - 1 {
        assert e[j] in e;
        var k :| 0 <= k < n - 1 && e[j] == Rules[k].(memberId := mid);
        RuleIndexOf(k);
      }
      RuleIndexOf(n - 1);
    }
  }

  /** The position of a code in the rule order. */
  function RuleIndex(code: string): nat {
    if code == WallStreet.code then 0
    else if code == Healthcare.code then 1
    else if code == Defense.code then 2
    else if code == SmallDollars.code then 3
    else 4
  }

  /**
   * Each badge fires exactly on its rule; badges come in rule order with distinct codes, all
   * carrying the member's ID.
   */
  lemma BadgeRules(s: Summary)
    requires AssignSpec(s).Success?
    ensures var bs := AssignSpec(s).value; var mid := s.memberId.value;
      && (Rules[0].(memberId := mid) in bs <==> WallStreetRule(s))
      && (Rules[1].(memberId := mid) in bs <==> HealthcareRule(s))
      && (Rules[2].(memberId := mid) in bs <==> DefenseRule(s))
      && (Rules[3].(memberId := mid) in bs <==> SmallDollarsRule(s))
      && (Rules[4].(memberId := mid) in bs <==> UnknownRule(s))
      && (forall b :: b in bs ==> b.memberId == mid)
      && (forall j, k :: 0 <= j < k < |bs| ==> RuleIndex(bs[j].code) < RuleIndex(bs[k].code))
  {
    var mid := s.memberId.value;
    EarnedIff(s, mid, 5, 0);
    EarnedIff(s, mid, 5, 1);
    EarnedIff(s, mid, 5, 2);
    EarnedIff(s, mid, 5, 3);
    EarnedIff(s, mid, 5, 4);
    EarnedCodes(s, mid, 5);
  }

  /** With the finance fields absent, the defaults 0 and 1.0 keep the Wall Street badge from firing. */
  lemma AbsentFinanceNoBadge(s: Summary)
    requires s.financeConflicts.None? || s.financeAlignmentIndex.None?
    ensures !WallStreetRule(s)
  {
  }

  /** The worked example: a member with 3 finance conflicts at index 0.3, PAC share 0.1 and small share 0.5. */
  lemma ExampleSummary()
    ensures var s := Summary(Some("A000360"), Some(3.0), Some(0.3), Some(["Finance"]), Some(0.0), Some(0.0), Some(0.1), Some(0.5));
      AssignSpec(s) == Success([Badge("A000360", "WALL_STREET_WONT_LIKE_IT", "Wall Street Won't Like It"),
                                Badge("A000360", "SMALL_DOLLARS_HEAVY", "Small Dollars Heavy")])
  {
    var s := Summary(Some("A000360"), Some(3.0), Some(0.3), Some(["Finance"]), Some(0.0), Some(0.0), Some(0.1), Some(0.5));
    assert "Healthcare" !in ["Finance"] && "Defense" !in ["Finance"];
    assert ["Finance"][0] != "Unknown";
    assert Earned(s, "A000360", 1) == [Badge("A000360", "WALL_STREET_WONT_LIKE_IT", "Wall Street Won't Like It")];
    assert Earned(s, "A000360", 2) == Earned(s, "A000360", 1);
    assert Earned(s, "A000360", 3) == Earned(s, "A000360", 1);
    assert SmallDollarsRule(s);
    assert Earned(s, "A000360", 4) == Earned(s, "A000360", 3) + [Badge("A000360", "SMALL_DOLLARS_HEAVY", "Small Dollars Heavy")];
    assert Earned(s, "A000360", 5) == Earned(s, "A000360", 4);
    assert AssignSpec(s) == Success(Earned(s, "A000360", |Rules|));
    assert Earned(s, "A000360", 4) == [Badge("A000360", "WALL_STREET_WONT_LIKE_IT", "Wall Street Won't Like It"),
                                       Badge("A000360", "SMALL_DOLLARS_HEAVY", "Small Dollars Heavy")];
  }
}
