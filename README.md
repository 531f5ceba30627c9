# Opportunity recommender: a verified model

This project models the rule-based recommender in `app.py` of the
"AI-Assisted Internship & Opportunity Navigator". The recommender is a
three-stage pipeline, and a small fourth derivation sits beside it:

- **Catalog normalisation** (`process_data`) turns each raw catalog record
  into the record the recommender scores. It:
  - copies the id, title and tags;
  - capitalises the type;
  - expands the year range into a list of years;
  - prefixes the description with the organisation's name;
  - stores the signed number of days left before the deadline.
- **Scoring** (`calculate_relevance_score`) applies four additive rules in a
  fixed order. Each rule that fires adds points and one reason text:
  - skills overlap: +40;
  - academic year eligible: +15;
  - interest found in the description: +15;
  - deadline within 14 days: +15.
- **Ranking** (`get_ranked_recommendations`) scores every opportunity in
  catalog order, drops those scoring 0, and sorts the rest stably by score,
  highest first.
- **Skill options** (`SKILL_OPTIONS`) lists every catalog tag once, in
  ascending string order.

Modules:

- `Text` (`text.dfy`) holds the Python string operations the code relies
  on: `lower`, `capitalize`, `", ".join`, the substring test `in`, and
  string ordering.
- `Catalog` (`catalog.dfy`) holds the raw and normalised records and
  `process_data`.
- `Options` (`skill_options.dfy`) holds `SKILL_OPTIONS`.
- `Scoring` (`scoring.dfy`) holds the profile, the four rules, and
  `calculate_relevance_score`.
- `Ranking` (`ranking.dfy`) holds the candidate list, the stable
  descending sort, and `get_ranked_recommendations`.
- `Fixture` (`fixture.dfy`) holds `RAW_DATA` record for record, with worked
  scenarios about it.

The three imperative functions are `method`s with loops or step-by-step
updates. Each is proved equal to a reference function:

- `ProcessData` to `Normalize`, per record;
- `CalculateRelevanceScore` to `Assess`;
- `GetRankedRecommendations` to `SortByScoreDesc(Candidates(..))`.

The properties the application promises are proved as lemmas about those
reference functions.

Two behaviours of the code are worth stating outright:

- The skill reason lists the *lower-cased* profile skills, and the
  interest reason names the *lower-cased* interest (`app.py:95-110`).
- An empty profile is not always shown an empty list, so the page's
  "Set your profile" message (`app.py:168-169`) does not always appear for
  it. The urgency rule ignores the profile, so the empty profile sees every
  opportunity closing within 14 days, each with score 15, which may be none
  (`app.py:112-114`).

## Model

| member | source | states |
|---|---|---|
| Catalog.ProcessData | app.py:51-69 | One output record per input record, in input order; record `i` is the normalised form of raw record `i`. |
| Catalog.NormalizeFields | app.py:59-67 | The id, title and tags are copied unchanged. The type is capitalised: first character upper-cased, the rest lower-cased. The years are exactly `year_min..year_max`, and there are `year_max - year_min + 1` of them when the range is not empty. The deadline days are the value computed for the deadline text. The description is the organisation, then `": "`, then the raw description. |
| Catalog.YearRange | app.py:64 | `range(lo, hi + 1)` as a list: length `hi - lo + 1` or 0, element `i` is `lo + i`, and it holds exactly the integers from `lo` to `hi`. |
| Text.LowerStr | app.py:95-99 | `lower()` keeps the length, lower-cases each character in place, and leaves no capital letter. |
| Text.Capitalize | app.py:62 | `capitalize()` keeps the length, upper-cases the first character and lower-cases every other one. |
| Text.LessTransitive | app.py:87 | The string order that `sorted` uses is transitive. |
| Text.LessTotal | app.py:87 | Any two distinct strings are ordered one way or the other. |
| Text.JoinLength | app.py:102 | `", ".join(parts)` is as long as all the parts together plus one separator between each two neighbours. |
| Text.JoinContainsParts | app.py:102 | Every part, each matched skill in the reason, appears in the joined text. |
| Options.SkillOptions | app.py:87 | The skill options are strictly ascending, and a string is among them exactly when some catalog record carries it as a tag. |
| Options.SkillOptionsDistinct | app.py:87 | No tag appears twice among the skill options. |
| Scoring.LowerAll | app.py:95 | `[s.lower() for s in skills]`: same length, and element `i` is the lower-cased skill `i`. |
| Scoring.Keep | app.py:99 | `[s for s in us if s in req]` holds exactly the elements of `us` that are in `req`, each as many times as in `us`. |
| Scoring.KeepIsSubsequence | app.py:99 | The kept skills keep the profile's order. |
| Scoring.CalculateRelevanceScore | app.py:91-116 | The score and reasons built rule by rule equal the reference assessment `Assess`. |
| Scoring.AssessExpanded | app.py:91-116 | The score is 40 for skills plus 15 for each of year, interest and urgency, counting only the rules that fire. The reasons are those of the firing rules, in the order skills, year, interest, urgency. There is one reason per firing rule. |
| Scoring.ScoreValues | app.py:91-116 | The score is one of 0, 15, 30, 40, 45, 55, 70 or 85, so it lies between 0 and 85. It equals 40a + 15(n − a), where n is the number of reasons and a is 1 when the skill rule fired. |
| Scoring.ScorePositiveIffReasons | app.py:91-116 | The score is positive exactly when some reason is given, and exactly when at least one of the four rules fires. |
| Scoring.SkillsFireIff | app.py:95-102 | The skill rule fires exactly when some profile skill and some required skill are equal once both are lower-cased. |
| Scoring.MatchedAreLowerProfileSkills | app.py:95-102 | Every listed match is a lower-cased profile skill that the opportunity requires (after lower-casing), and the matches keep the profile's order. |
| Scoring.YearFiresIffInRange | app.py:104-106 | On a normalised record, the year rule fires exactly when the profile has a year between `year_min` and `year_max` inclusive; a missing year never fires it. |
| Scoring.EmptyProfileAssessment | app.py:91-116 | The empty profile scores 15, with the single reason "Closing soon", on an opportunity closing within 14 days, and 0 with no reason on any other. |
| Ranking.CandidatesMembers | app.py:119-123 | The collected candidates are exactly the catalog's opportunities scoring above 0, each paired with its own assessment. |
| Ranking.ScoreClass | app.py:124 | The entries of a given score are exactly the list's members with that score. |
| Ranking.InsertByScore | app.py:124 | Inserting one entry adds exactly that entry: same elements plus the new one, length one more. |
| Ranking.InsertKeepsOrder | app.py:124 | Inserting into a list ordered by score keeps it ordered. |
| Ranking.InsertIntoClass | app.py:124 | Inserting into an ordered list puts the new entry last among those of its score and leaves every other score's entries as they were. |
| Ranking.SortByScoreDesc | app.py:124 | The sort is a permutation of its input. |
| Ranking.SortByScoreDescSpec | app.py:124 | The sort orders scores from highest to lowest, and within each score it keeps the input order (stability). |
| Ranking.RankingUnique | app.py:124 | A list ordered by score, with each score's input order kept, is fully determined. Any stable descending sort therefore gives the same result. |
| Ranking.SortOfSorted | app.py:124 | Sorting a list that is already ordered by score changes nothing. |
| Ranking.GetRankedRecommendations | app.py:118-124 | The result contains exactly the opportunities scoring above 0, each with its own score and reasons. Scores never increase along the list. Equal scores keep catalog order. The result is a fixed function of the profile and the catalog. |
| Ranking.EmptyProfileRanking | app.py:112-124 | The empty profile is shown exactly the opportunities closing within 14 days, in catalog order. When none is closing soon it is shown nothing. |
| Fixture.StanfordScenario | app.py:44 | Catalog record 12, the Stanford apprenticeship, scores 70 for a third-year student with skills ai and research and interest "AI" whenever its deadline is more than 14 days away or already passed. The reasons are "Skills match: ai, research", "Eligible for your academic year" and "Matches interest in ai". |
| Fixture.CaseInsensitiveSkill | app.py:95-102 | A profile skill "AI" matches a required "ai", and the reason lists "ai". |
| Fixture.UrgencyBoundary | app.py:112-114 | With an empty profile, 14 and 0 days left score 15 with "Closing soon"; 15 days left and one day past score 0. |
| Fixture.SkillOptionsOfRawData | app.py:32-48 | The skill options of the shipped catalog include "ai" and "python". |

## Left out

- The Streamlit page, its widgets and the per-session profile and chat history (`app.py:25-29`, `73-84`, and the page code after `app.py:126`). They are presentation and session storage with no logic beyond replacing the whole profile.
- `call_mistral` and `handle_chat_query` (`app.py:9-22`, `127-135`). These are a blocking HTTP call to a local language-model server plus prompt text. Their output never affects any score or rank.
- Reading the clock and parsing dates (`app.py:53`, `56-57`). The number of days until a deadline is the parameter `daysUntil` of `Normalize` and `ProcessData`, applied to the record's deadline text.
- `INTEREST_OPTIONS` (`app.py:88`): a fixed list shown in the page, used by nothing in the model.
- Text.Lower: maps only the ASCII letters A to Z. Python's `lower()` and `capitalize()` also map non-ASCII letters, and `capitalize()` can map one character to several. Every string in the shipped catalog is ASCII.
- Ranking.SortByScoreDesc: a stable insertion sort, not CPython's Timsort. `Ranking.RankingUnique` shows that every stable descending sort gives the same result, so only the result is modelled, not the algorithm's steps or cost.
- Fixture: no lemma states the full ranking of the whole shipped catalog for a profile. The scores depend on the day the application is run, so the fixture lemmas fix one record (`StanfordScenario`) and leave its deadline days as a parameter.
