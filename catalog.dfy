/** Catalog normalisation: `process_data` turns each raw opportunity record
    into the normalised record the recommender scores. */
module Catalog {
  import opened Text

  /** One entry of the raw catalog. `deadline` is the "%Y-%m-%d" text. */
  datatype RawOpportunity = RawOpportunity(
    id: int,
    title: string,
    organization: string,
    description: string,
    kind: string,
    yearMin: int,
    yearMax: int,
    tags: seq<string>,
    deadline: string)

  /** One normalised opportunity. `deadlineDays` is signed: negative once the
      deadline has passed. */
  datatype Opportunity = Opportunity(
    id: int,
    title: string,
    kind: string,
    requiredSkills: seq<string>,
    eligibleYears: seq<int>,
    deadlineDays: int,
    description: string)

  /** `list(range(lo, hi + 1))`: the ascending integers from `lo` to `hi`
      inclusive, empty when `lo > hi`. */
  function YearRange(lo: int, hi: int): (r: seq<int>)
    ensures |r| == if lo <= hi then hi - lo + 1 else 0
    ensures forall i :: 0 <= i < |r| ==> r[i] == lo + i
    ensures forall y :: y in r <==> lo <= y <= hi
    decreases hi - lo
  {
    if lo > hi then [] else [lo] + YearRange(lo + 1, hi)
  }

  /** The composite description `f"{organization}: {description}"`. */
  function Describe(organization: string, description: string): string {
    organization + ": " + description
  }

  /** The normalised form of one record. `daysUntil` stands for parsing the
      deadline text and taking `(deadline - now).days` at evaluation time. */
  function Normalize(item: RawOpportunity, daysUntil: string -> int): Opportunity {
    Opportunity(
      item.id,
      item.title,
      Capitalize(item.kind),
      item.tags,
      YearRange(item.yearMin, item.yearMax),
      daysUntil(item.deadline),
      Describe(item.organization, item.description))
  }

  /** What each normalised field is in terms of the raw record. */
  lemma NormalizeFields(item: RawOpportunity, daysUntil: string -> int)
    ensures var o := Normalize(item, daysUntil);
      && o.id == item.id
      && o.title == item.title
      && o.requiredSkills == item.tags
      && o.deadlineDays == daysUntil(item.deadline)
      && |o.kind| == |item.kind|
      && (item.kind != [] ==> o.kind[0] == Upper(item.kind[0]))
      && (forall i :: 1 <= i < |o.kind| ==> o.kind[i] == Lower(item.kind[i]))
      && (forall y :: y in o.eligibleYears <==> item.yearMin <= y <= item.yearMax)
      && (item.yearMin <= item.yearMax ==> |o.eligibleYears| == item.yearMax - item.yearMin + 1)
      && |o.description| == |item.organization| + 2 + |item.description|
      && o.description[..|item.organization|] == item.organization
      && o.description[|item.organization|..|item.organization| + 2] == ": "
      && o.description[|item.organization| + 2..] == item.description
  {
  }

  /** `process_data`: one normalised record per raw record, in input order. */
  method ProcessData(raw: seq<RawOpportunity>, daysUntil: string -> int)
    returns (processed: seq<Opportunity>)
    ensures |processed| == |raw|
    ensures forall i :: 0 <= i < |raw| ==> processed[i] == Normalize(raw[i], daysUntil)
  {
    processed := [];
    for k := 0 to |raw|
      invariant |processed| == k
      invariant forall i :: 0 <= i < k ==> processed[i] == Normalize(raw[i], daysUntil)
    {
      var item := raw[k];
      var deadlineDays := daysUntil(item.deadline);
      processed := processed + [Opportunity(
        item.id,
        item.title,
        Capitalize(item.kind),
        item.tags,
        YearRange(item.yearMin, item.yearMax),
        deadlineDays,
        item.organization + ": " + item.description)];
    }
  }
}
