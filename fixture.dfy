/** The catalog the application ships with (`RAW_DATA`) and concrete
    scenarios checked against it and against small hand-made records. */
module Fixture {
  import opened Text
  import opened Catalog
  import opened Options
  import opened Scoring
  import opened Ranking

  /** The records of `RAW_DATA`, one constant each, by id. */
  const Entry1 :=
    RawOpportunity(1, "Women in AI Research Fellowship",
      "ABC Foundation",
      "A 6-month remote research fellowship for women in STEM focused on AI and ML.",
      "fellowship", 2, 4, ["ai", "machine learning", "research", "women"], "2026-01-20")

  const Entry2 :=
    RawOpportunity(2, "Google Software Engineering Internship",
      "Google",
      "A software engineering internship focusing on backend development and scalable systems.",
      "internship", 2, 4, ["software engineering", "backend", "systems"], "2025-12-31")

  const Entry3 :=
    RawOpportunity(3, "AI for Social Good Research Program",
      "UNICEF AI Lab",
      "A program applying AI to education access, poverty mapping, and healthcare analytics.",
      "research", 1, 4, ["ai", "social good", "health", "education"], "2026-02-10")

  const Entry4 :=
    RawOpportunity(4, "Microsoft Codess Scholarship",
      "Microsoft",
      "A scholarship and mentorship program supporting women in computer science.",
      "scholarship", 1, 4, ["women", "computer science", "scholarship"], "2026-01-15")

  const Entry5 :=
    RawOpportunity(5, "IIT Delhi ML Winter School",
      "IIT Delhi",
      "A hands-on program covering ML, CV, NLP and mathematical foundations.",
      "program", 1, 4, ["machine learning", "nlp", "computer vision"], "2025-12-28")

  const Entry6 :=
    RawOpportunity(6, "Google STEP Internship",
      "Google",
      "An internship for first and second-year students interested in software engineering.",
      "internship", 1, 2, ["software", "engineering", "coding", "women"], "2025-12-30")

  const Entry7 :=
    RawOpportunity(7, "Amazon ML Summer School",
      "Amazon India",
      "Covers supervised learning, deep learning, and ML systems.",
      "program", 2, 4, ["machine learning", "deep learning"], "2025-12-20")

  const Entry8 :=
    RawOpportunity(8, "MITACS Globalink Research Internship",
      "Mitacs",
      "Research internship with Canadian professors on STEM projects.",
      "research", 2, 3, ["research", "international", "canada"], "2026-03-15")

  const Entry9 :=
    RawOpportunity(9, "Microsoft AI for Accessibility Grant",
      "Microsoft Research",
      "Funding for students using AI to improve accessibility for people with disabilities.",
      "fellowship", 1, 4, ["ai", "accessibility", "ethics"], "2026-02-01")

  const Entry10 :=
    RawOpportunity(10, "IIT Bombay Research Bootcamp in Data Science",
      "IIT Bombay",
      "A project-based bootcamp covering ML pipelines, data preprocessing, and DS fundamentals.",
      "program", 1, 4, ["data science", "python", "research"], "2025-12-22")

  const Entry11 :=
    RawOpportunity(11, "Grace Hopper Celebration Student Scholarship",
      "AnitaB.org",
      "Scholarship for women in computing to attend the Grace Hopper Celebration.",
      "scholarship", 1, 4, ["women", "computing", "conference"], "2026-04-01")

  /** Entry 12 of `RAW_DATA`, used by the worked example below. */
  const StanfordApprenticeship :=
    RawOpportunity(12, "Stanford AI Research Apprenticeship",
      "Stanford AI Lab",
      "A remote apprenticeship for undergraduates passionate about academic AI and ML research.",
      "research", 2, 4, ["ai", "research", "deep learning", "nlp"], "2026-02-20")

  const Entry13 :=
    RawOpportunity(13, "Women Techmakers Engineering Fellowship",
      "Google",
      "A fellowship that provides mentorship, project funding, and training for women in tech.",
      "fellowship", 2, 4, ["women", "engineering", "mentorship"], "2026-01-25")

  const Entry14 :=
    RawOpportunity(14, "Deep Learning Indaba Mentorship Program",
      "Indaba",
      "A mentorship program connecting students globally with African ML researchers.",
      "program", 1, 4, ["deep learning", "machine learning", "mentorship"], "2026-03-10")

  const Entry15 :=
    RawOpportunity(15, "OpenAI Responsible AI Fellowship",
      "OpenAI",
      "A prestigious fellowship for students working on safe, ethical, and socially responsible AI.",
      "fellowship", 3, 4, ["ai safety", "ethics", "policy", "research"], "2026-03-30")

  /** `RAW_DATA`, record for record. */
  const RawData: seq<RawOpportunity> := [
    Entry1, Entry2, Entry3, Entry4, Entry5, Entry6,
    Entry7, Entry8, Entry9, Entry10, Entry11, StanfordApprenticeship,
    Entry13, Entry14, Entry15]

  /** The profile of the worked example: skills ai and research, interest
      "AI", third year. */
  const AiStudent := Profile(["ai", "research"], "AI", Some(3))

  /** The Stanford apprenticeship (id 12, years 2 to 4, tags ai, research,
      deep learning, nlp) scores 40 + 15 + 15 = 70 for that profile whenever
      its deadline is not within the next 14 days (or has passed), with its three reasons in
      rule order and the interest named in lower case. */
  lemma StanfordScenario(daysUntil: string -> int)
    requires !(0 <= daysUntil(RawData[11].deadline) <= UrgencyWindow)
    ensures Assess(Normalize(RawData[11], daysUntil), AiStudent) ==
      Assessment(70, [SkillsPrefix + "ai, research", YearReason, InterestPrefix + "ai"])
  {
    StanfordIsEntryTwelve();
    StanfordAssessment(daysUntil);
  }

  lemma StanfordIsEntryTwelve()
    ensures |RawData| == 15 && RawData[11] == StanfordApprenticeship
  {
  }

  lemma StanfordAssessment(daysUntil: string -> int)
    requires !(0 <= daysUntil(StanfordApprenticeship.deadline) <= UrgencyWindow)
    ensures Assess(Normalize(StanfordApprenticeship, daysUntil), AiStudent) ==
      Assessment(70, [SkillsPrefix + "ai, research", YearReason, InterestPrefix + "ai"])
  {
    StanfordRules(daysUntil);
    FirstThreeFire(Normalize(StanfordApprenticeship, daysUntil), AiStudent);
  }

  /** Skills, year and interest firing without urgency give 70 points and
      their three reasons in rule order. */
  lemma FirstThreeFire(opp: Opportunity, p: Profile)
    requires SkillsFire(opp, p) && YearFires(opp, p) && InterestFires(opp, p) && !UrgencyFires(opp)
    ensures Assess(opp, p) ==
      Assessment(70, [SkillsPrefix + Join(Matched(opp, p), ", "), YearReason, InterestPrefix + LowerStr(p.interests)])
  {
    AssessExpanded(opp, p);
    var a := SkillsPrefix + Join(Matched(opp, p), ", ");
    var c := InterestPrefix + LowerStr(p.interests);
    var r := Assess(opp, p).reasons;
    assert r == [a] + [YearReason] + [c] + [];
    ThreeSingletons(a, YearReason, c);
  }

  lemma ThreeSingletons<T>(a: T, b: T, c: T)
    ensures [a] + [b] + [c] + [] == [a, b, c]
  {
  }

  /** Which rules fire for the worked example, and the texts they produce. */
  lemma StanfordRules(daysUntil: string -> int)
    requires !(0 <= daysUntil(StanfordApprenticeship.deadline) <= UrgencyWindow)
    ensures var opp := Normalize(StanfordApprenticeship, daysUntil);
      && SkillsFire(opp, AiStudent) && YearFires(opp, AiStudent)
      && InterestFires(opp, AiStudent) && !UrgencyFires(opp)
      && Join(Matched(opp, AiStudent), ", ") == "ai, research"
      && LowerStr(AiStudent.interests) == "ai"
  {
    StanfordSkills(daysUntil);
    AiResearchJoined();
    StanfordInterest(daysUntil);
    StanfordYear(daysUntil);
  }

  lemma StanfordYear(daysUntil: string -> int)
    ensures YearFires(Normalize(StanfordApprenticeship, daysUntil), AiStudent)
  {
    YearFiresIffInRange(StanfordApprenticeship, daysUntil, AiStudent);
  }

  lemma StanfordSkills(daysUntil: string -> int)
    ensures Matched(Normalize(StanfordApprenticeship, daysUntil), AiStudent) == ["ai", "research"]
  {
    MatchedOfNormalized(StanfordApprenticeship, daysUntil, AiStudent);
    StanfordLowerCase();
    StanfordKeep();
  }

  lemma MatchedOfNormalized(item: RawOpportunity, daysUntil: string -> int, p: Profile)
    ensures Matched(Normalize(item, daysUntil), p) == Keep(LowerAll(p.skills), LowerAll(item.tags))
  {
  }

  lemma AiResearchJoined()
    ensures Join(["ai", "research"], ", ") == "ai, research"
  {
    JoinTwo("ai", "research", ", ");
  }

  lemma StanfordLowerCase()
    ensures LowerAll(AiStudent.skills) == ["ai", "research"]
    ensures LowerAll(StanfordApprenticeship.tags) == StanfordApprenticeship.tags
  {
    LowerAllOfLowerCase(AiStudent.skills);
    LowerAllOfLowerCase(StanfordApprenticeship.tags);
  }

  lemma StanfordKeep()
    ensures Keep(["ai", "research"], StanfordApprenticeship.tags) == ["ai", "research"]
  {
    var tags := StanfordApprenticeship.tags;
    KeepStep(["ai", "research"], tags);
    KeepStep(["research"], tags);
    assert ["ai", "research"][1..] == ["research"];
    assert ["research"][1..] == [];
  }

  lemma StanfordInterest(daysUntil: string -> int)
    ensures InterestFires(Normalize(StanfordApprenticeship, daysUntil), AiStudent)
    ensures LowerStr(AiStudent.interests) == "ai"
  {
    StanfordOrganizationSaysAi();
    assert LowerStr(AiStudent.interests) == "ai";
    InterestInOrganization(StanfordApprenticeship, daysUntil, AiStudent, 9);
  }

  /** "ai" occurs at index 9 of "stanford ai lab". */
  lemma StanfordOrganizationSaysAi()
    ensures OccursAt("ai", LowerStr(StanfordApprenticeship.organization), 9)
  {
    var org := LowerStr(StanfordApprenticeship.organization);
    assert org[9] == 'a' && org[10] == 'i';
    PairOccurs(org, 9);
    assert [org[9], org[10]] == "ai";
  }

  lemma PairOccurs(s: string, i: nat)
    requires i + 1 < |s|
    ensures OccursAt([s[i], s[i + 1]], s, i)
  {
  }

  /** An interest found in the organization's name is found in the
      composite description, which starts with that name. */
  lemma InterestInOrganization(item: RawOpportunity, daysUntil: string -> int, p: Profile, i: int)
    requires p.interests != []
    requires OccursAt(LowerStr(p.interests), LowerStr(item.organization), i)
    ensures InterestFires(Normalize(item, daysUntil), p)
  {
    var needle := LowerStr(p.interests);
    var org := LowerStr(item.organization);
    var d := LowerStr(Normalize(item, daysUntil).description);
    assert d[i..i + |needle|] == org[i..i + |needle|];
    assert OccursAt(needle, d, i);
  }

  lemma LowerAllOfLowerCase(ss: seq<string>)
    requires forall i :: 0 <= i < |ss| ==> IsLowerCase(ss[i])
    ensures LowerAll(ss) == ss
  {
    forall i | 0 <= i < |ss| ensures LowerAll(ss)[i] == ss[i] {
      LowerStrOfLowerCase(ss[i]);
    }
  }

  lemma JoinTwo(a: string, b: string, sep: string)
    ensures Join([a, b], sep) == a + sep + b
  {
    assert [a, b][1..] == [b];
  }

  lemma KeepStep(us: seq<string>, req: seq<string>)
    requires us != []
    ensures Keep(us, req) == (if us[0] in req then [us[0]] else []) + Keep(us[1..], req)
  {
  }

  /** A record requiring "ai" and nothing else about it firing. */
  function AiOnly(deadlineDays: int): Opportunity {
    Opportunity(0, "t", "Research", ["ai"], [], deadlineDays, "x")
  }

  /** Skills match ignoring case, and the reason shows the lower-cased
      profile skill: "AI" in the profile matches "ai" in the catalog and the
      reason reads "Skills match: ai". */
  lemma CaseInsensitiveSkill()
    ensures Assess(AiOnly(30), Profile(["AI"], "", None)) ==
      Assessment(40, [SkillsPrefix + "ai"])
  {
    var opp, p := AiOnly(30), Profile(["AI"], "", None);
    assert LowerStr("AI") == "ai";
    assert LowerAll(["AI"]) == ["ai"];
    LowerAllOfLowerCase(["ai"]);
    assert Matched(opp, p) == ["ai"] by {
      KeepStep(["ai"], ["ai"]);
      assert ["ai"][1..] == [];
    }
    assert !IsSubstring("x", "");
    AssessExpanded(opp, p);
  }

  /** The urgency window is inclusive at both ends: 14 days left fires, 15
      days left and one day past do not, whatever the profile. */
  lemma UrgencyBoundary()
    ensures Assess(AiOnly(14), EmptyProfile) == Assessment(15, [UrgencyReason])
    ensures Assess(AiOnly(0), EmptyProfile) == Assessment(15, [UrgencyReason])
    ensures Assess(AiOnly(15), EmptyProfile) == Assessment(0, [])
    ensures Assess(AiOnly(-1), EmptyProfile) == Assessment(0, [])
  {
    EmptyProfileAssessment(AiOnly(14));
    EmptyProfileAssessment(AiOnly(0));
    EmptyProfileAssessment(AiOnly(15));
    EmptyProfileAssessment(AiOnly(-1));
  }

  /** The skill choices offered for the shipped catalog include "ai" and
      "python". */
  lemma SkillOptionsOfRawData()
    ensures "ai" in SkillOptions(RawData)
    ensures "python" in SkillOptions(RawData)
  {
    assert "ai" in RawData[0].tags;
    assert "python" in RawData[9].tags;
  }
}
