/** `calculate_relevance_score`: four additive rules, evaluated in a fixed
    order, each adding points and one reason string when it fires. */
module Scoring {
  import opened Text
  import opened Catalog

  datatype Option<+T> = None | Some(value: T)

  /** The student profile: chosen skills, one interest (empty when none was
      chosen) and an academic year that may be absent. */
  datatype Profile = Profile(skills: seq<string>, interests: string, academicYear: Option<int>)

  /** The profile a session starts with. */
  const EmptyProfile := Profile([], "", None)

  /** The score and the reasons of one opportunity for one profile. */
  datatype Assessment = Assessment(score: int, reasons: seq<string>)

  const SkillsPoints := 40
  const YearPoints := 15
  const InterestPoints := 15
  const UrgencyPoints := 15
  /** Last day (inclusive) on which a deadline counts as close. */
  const UrgencyWindow := 14

  const SkillsPrefix := "\U{2713} Skills match: "
  const YearReason := "\U{2713} Eligible for your academic year"
  const InterestPrefix := "\U{2713} Matches interest in "
  const UrgencyReason := "\U{1F6A8} Closing soon"

  /** `[s.lower() for s in skills]`. */
  function LowerAll(ss: seq<string>): (r: seq<string>)
    ensures |r| == |ss|
    ensures forall i :: 0 <= i < |ss| ==> r[i] == LowerStr(ss[i])
  {
    if ss == [] then [] else [LowerStr(ss[0])] + LowerAll(ss[1..])
  }

  /** `[s for s in us if s in req]`. */
  function Keep(us: seq<string>, req: seq<string>): (r: seq<string>)
    ensures forall x :: x in r <==> x in us && x in req
    ensures forall x :: multiset(r)[x] == if x in req then multiset(us)[x] else 0
  {
    if us == [] then []
    else
      var r := (if us[0] in req then [us[0]] else []) + Keep(us[1..], req);
      assert us == [us[0]] + us[1..];
      r
  }

  /** `xs` is `ys` with some elements left out, the rest in their order. */
  predicate IsSubsequence(xs: seq<string>, ys: seq<string>) {
    if xs == [] then true
    else if ys == [] then false
    else if xs[0] == ys[0] then IsSubsequence(xs[1..], ys[1..])
    else IsSubsequence(xs, ys[1..])
  }

  lemma {:induction false} KeepIsSubsequence(us: seq<string>, req: seq<string>)
    ensures IsSubsequence(Keep(us, req), us)
  {
    if us != [] {
      KeepIsSubsequence(us[1..], req);
      var k := Keep(us, req);
      if us[0] in req {
        assert k[0] == us[0] && k[1..] == Keep(us[1..], req);
      } else {
        assert k == Keep(us[1..], req);
        if k != [] {
          assert k[0] in req;
        }
      }
    }
  }

  /** The lower-cased profile skills that the opportunity requires, ignoring
      case on both sides, in profile order. */
  function Matched(opp: Opportunity, p: Profile): seq<string> {
    Keep(LowerAll(p.skills), LowerAll(opp.requiredSkills))
  }

  predicate SkillsFire(opp: Opportunity, p: Profile) {
    Matched(opp, p) != []
  }

  predicate YearFires(opp: Opportunity, p: Profile) {
    p.academicYear.Some? && p.academicYear.value in opp.eligibleYears
  }

  predicate InterestFires(opp: Opportunity, p: Profile) {
    p.interests != [] && IsSubstring(LowerStr(p.interests), LowerStr(opp.description))
  }

  predicate UrgencyFires(opp: Opportunity) {
    0 <= opp.deadlineDays <= UrgencyWindow
  }

  /** One scoring rule: whether it fires, what it adds, what it says. */
  datatype Rule = Rule(fires: bool, points: nat, reason: string)

  /** The four rules in their evaluation order. */
  function Rules(opp: Opportunity, p: Profile): seq<Rule> {
    [ Rule(SkillsFire(opp, p), SkillsPoints, SkillsPrefix + Join(Matched(opp, p), ", ")),
      Rule(YearFires(opp, p), YearPoints, YearReason),
      Rule(InterestFires(opp, p), InterestPoints, InterestPrefix + LowerStr(p.interests)),
      Rule(UrgencyFires(opp), UrgencyPoints, UrgencyReason) ]
  }

  /** Sum of the points of the rules that fire. */
  function Points(rs: seq<Rule>): nat {
    if rs == [] then 0 else (if rs[0].fires then rs[0].points else 0) + Points(rs[1..])
  }

  /** Reasons of the rules that fire, in rule order. */
  function FiredReasons(rs: seq<Rule>): seq<string> {
    if rs == [] then [] else (if rs[0].fires then [rs[0].reason] else []) + FiredReasons(rs[1..])
  }

  /** How many rules fire. */
  function FiredCount(rs: seq<Rule>): nat {
    if rs == [] then 0 else (if rs[0].fires then 1 else 0) + FiredCount(rs[1..])
  }

  /** The reference definition of the score: the firing rules' points added
      up, their reasons listed in rule order. */
  function Assess(opp: Opportunity, p: Profile): Assessment {
    Assessment(Points(Rules(opp, p)), FiredReasons(Rules(opp, p)))
  }

  lemma ConsRule(r: Rule, rs: seq<Rule>)
    ensures Points([r] + rs) == (if r.fires then r.points else 0) + Points(rs)
    ensures FiredReasons([r] + rs) == (if r.fires then [r.reason] else []) + FiredReasons(rs)
    ensures FiredCount([r] + rs) == (if r.fires then 1 else 0) + FiredCount(rs)
  {
    assert ([r] + rs)[1..] == rs;
  }

  /** Unfolds the rule sums over a list of exactly four rules. */
  lemma FourRules(a: Rule, b: Rule, c: Rule, d: Rule)
    ensures Points([a, b, c, d]) ==
      (if a.fires then a.points else 0) + (if b.fires then b.points else 0)
      + (if c.fires then c.points else 0) + (if d.fires then d.points else 0)
    ensures FiredReasons([a, b, c, d]) ==
      (if a.fires then [a.reason] else []) + (if b.fires then [b.reason] else [])
      + (if c.fires then [c.reason] else []) + (if d.fires then [d.reason] else [])
    ensures FiredCount([a, b, c, d]) ==
      (if a.fires then 1 else 0) + (if b.fires then 1 else 0)
      + (if c.fires then 1 else 0) + (if d.fires then 1 else 0)
  {
    ConsRule(d, []);
    ConsRule(c, [d]);
    ConsRule(b, [c, d]);
    ConsRule(a, [b, c, d]);
  }

  function Bit(b: bool): int {
    if b then 1 else 0
  }

  /** The four rules unfolded: points add up independently and reasons
      follow the order skills, year, interest, urgency. */
  lemma AssessExpanded(opp: Opportunity, p: Profile)
    ensures Assess(opp, p).score ==
      40 * Bit(SkillsFire(opp, p)) + 15 * Bit(YearFires(opp, p))
      + 15 * Bit(InterestFires(opp, p)) + 15 * Bit(UrgencyFires(opp))
    ensures Assess(opp, p).reasons ==
      (if SkillsFire(opp, p) then [SkillsPrefix + Join(Matched(opp, p), ", ")] else [])
      + (if YearFires(opp, p) then [YearReason] else [])
      + (if InterestFires(opp, p) then [InterestPrefix + LowerStr(p.interests)] else [])
      + (if UrgencyFires(opp) then [UrgencyReason] else [])
    ensures |Assess(opp, p).reasons| == FiredCount(Rules(opp, p))
    ensures FiredCount(Rules(opp, p)) ==
      Bit(SkillsFire(opp, p)) + Bit(YearFires(opp, p)) + Bit(InterestFires(opp, p)) + Bit(UrgencyFires(opp))
  {
    var rs := Rules(opp, p);
    FourRules(rs[0], rs[1], rs[2], rs[3]);
    assert rs == [rs[0], rs[1], rs[2], rs[3]];
  }

  /** The score is 40a + 15k with a in {0, 1} and k in 0..3, so it is one of
      eight values between 0 and 85; one reason per firing rule. */
  lemma ScoreValues(opp: Opportunity, p: Profile)
    ensures Assess(opp, p).score in {0, 15, 30, 40, 45, 55, 70, 85}
    ensures 0 <= Assess(opp, p).score <= 85
    ensures Assess(opp, p).score == 40 * Bit(SkillsFire(opp, p)) + 15 * (|Assess(opp, p).reasons| - Bit(SkillsFire(opp, p)))
  {
    AssessExpanded(opp, p);
  }

  /** The score is positive exactly when some rule fires, and then some
      reason is given. */
  lemma ScorePositiveIffReasons(opp: Opportunity, p: Profile)
    ensures Assess(opp, p).score > 0 <==> Assess(opp, p).reasons != []
    ensures Assess(opp, p).score > 0 <==>
      SkillsFire(opp, p) || YearFires(opp, p) || InterestFires(opp, p) || UrgencyFires(opp)
  {
    AssessExpanded(opp, p);
  }

  /** The skill rule fires exactly when some profile skill equals some
      required skill once both are lower-cased. */
  lemma SkillsFireIff(opp: Opportunity, p: Profile)
    ensures SkillsFire(opp, p) <==>
      exists i, j :: 0 <= i < |p.skills| && 0 <= j < |opp.requiredSkills| &&
        LowerStr(p.skills[i]) == LowerStr(opp.requiredSkills[j])
  {
    if SkillsFire(opp, p) {
      var i, j := SkillsFireWitness(opp, p);
    }
    if exists i, j :: 0 <= i < |p.skills| && 0 <= j < |opp.requiredSkills| &&
        LowerStr(p.skills[i]) == LowerStr(opp.requiredSkills[j]) {
      var i, j :| 0 <= i < |p.skills| && 0 <= j < |opp.requiredSkills| &&
        LowerStr(p.skills[i]) == LowerStr(opp.requiredSkills[j]);
      WitnessFiresSkills(opp, p, i, j);
    }
  }

  lemma SkillsFireWitness(opp: Opportunity, p: Profile) returns (i: int, j: int)
    requires SkillsFire(opp, p)
    ensures 0 <= i < |p.skills| && 0 <= j < |opp.requiredSkills|
    ensures LowerStr(p.skills[i]) == LowerStr(opp.requiredSkills[j])
  {
    var us, req := LowerAll(p.skills), LowerAll(opp.requiredSkills);
    var s := Matched(opp, p)[0];
    assert s in us && s in req;
    i :| 0 <= i < |us| && us[i] == s;
    j :| 0 <= j < |req| && req[j] == s;
  }

  lemma WitnessFiresSkills(opp: Opportunity, p: Profile, i: int, j: int)
    requires 0 <= i < |p.skills| && 0 <= j < |opp.requiredSkills|
    requires LowerStr(p.skills[i]) == LowerStr(opp.requiredSkills[j])
    ensures SkillsFire(opp, p)
  {
    var us, req := LowerAll(p.skills), LowerAll(opp.requiredSkills);
    assert req[j] == us[i];
    assert us[i] in req;
    assert us[i] in Matched(opp, p);
  }

  /** The skill reason lists lower-cased profile skills, never the catalog's
      spelling: each matched entry is a lower-cased profile skill that the
      opportunity requires, and they keep the profile's order. */
  lemma MatchedAreLowerProfileSkills(opp: Opportunity, p: Profile)
    ensures forall s :: s in Matched(opp, p) ==>
      IsLowerCase(s) && s in LowerAll(p.skills) && s in LowerAll(opp.requiredSkills)
    ensures IsSubsequence(Matched(opp, p), LowerAll(p.skills))
  {
    KeepIsSubsequence(LowerAll(p.skills), LowerAll(opp.requiredSkills));
    forall s | s in Matched(opp, p)
      ensures IsLowerCase(s)
    {
      var us := LowerAll(p.skills);
      var i :| 0 <= i < |us| && us[i] == s;
    }
  }

  /** On a normalised record the year rule fires exactly when the profile
      has a year within the record's inclusive year range. */
  lemma YearFiresIffInRange(item: RawOpportunity, daysUntil: string -> int, p: Profile)
    ensures YearFires(Normalize(item, daysUntil), p) <==>
      p.academicYear.Some? && item.yearMin <= p.academicYear.value <= item.yearMax
  {
  }

  /** The urgency rule ignores the profile, so the empty profile scores 15
      on an opportunity closing within 14 days and 0 on any other. */
  lemma EmptyProfileAssessment(opp: Opportunity)
    ensures Assess(opp, EmptyProfile) ==
      if UrgencyFires(opp) then Assessment(15, [UrgencyReason]) else Assessment(0, [])
  {
    AssessExpanded(opp, EmptyProfile);
    assert Matched(opp, EmptyProfile) == [];
  }

  /** `calculate_relevance_score`: the score and reasons built step by step
      agree with the reference definition. */
  method CalculateRelevanceScore(opp: Opportunity, profile: Profile)
    returns (score: int, reasons: seq<string>)
    ensures Assessment(score, reasons) == Assess(opp, profile)
  {
    AssessExpanded(opp, profile);
    ghost var a := Assess(opp, profile);
    score := 0;
    reasons := [];

    var userSkills := LowerAll(profile.skills);
    var userYear := profile.academicYear;
    var userInterest := if profile.interests != [] then LowerStr(profile.interests) else "";

    var matched := Keep(userSkills, LowerAll(opp.requiredSkills));
    if matched != [] {
      score := score + 40;
      reasons := reasons + [SkillsPrefix + Join(matched, ", ")];
    }
    ghost var r1, s1 := reasons, score;
    assert s1 == 40 * Bit(SkillsFire(opp, profile));
    assert r1 == if SkillsFire(opp, profile) then [SkillsPrefix + Join(Matched(opp, profile), ", ")] else [];

    if userYear.Some? && userYear.value in opp.eligibleYears {
      score := score + 15;
      reasons := reasons + [YearReason];
    }
    ghost var r2, s2 := reasons, score;
    assert s2 == s1 + 15 * Bit(YearFires(opp, profile));
    assert r2 == r1 + if YearFires(opp, profile) then [YearReason] else [];

    if userInterest != [] && IsSubstring(userInterest, LowerStr(opp.description)) {
      score := score + 15;
      reasons := reasons + [InterestPrefix + userInterest];
    }
    ghost var r3, s3 := reasons, score;
    assert s3 == s2 + 15 * Bit(InterestFires(opp, profile));
    assert r3 == r2 + if InterestFires(opp, profile) then [InterestPrefix + LowerStr(profile.interests)] else [];

    if 0 <= opp.deadlineDays <= 14 {
      score := score + 15;
      reasons := reasons + [UrgencyReason];
    }
    assert score == s3 + 15 * Bit(UrgencyFires(opp));
    assert reasons == r3 + if UrgencyFires(opp) then [UrgencyReason] else [];
    assert score == a.score && reasons == a.reasons;
  }
}
