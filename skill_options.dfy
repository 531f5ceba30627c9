/** `SKILL_OPTIONS`: every tag that occurs anywhere in the raw catalog, once
    each, in ascending string order. */
module Options {
  import opened Text
  import opened Catalog

  /** Each string is strictly below the next one. */
  predicate StrictlyIncreasing(s: seq<string>) {
    forall i :: 0 <= i < |s| - 1 ==> Less(s[i], s[i + 1])
  }

  /** Every tag of every record, record by record. */
  function AllTags(raw: seq<RawOpportunity>): (r: seq<string>)
    ensures forall t :: t in r <==> exists o :: o in raw && t in o.tags
  {
    if raw == [] then [] else raw[0].tags + AllTags(raw[1..])
  }

  /** Adds `t` to a strictly increasing list at its place, unless present. */
  function InsertUnique(t: string, s: seq<string>): (r: seq<string>)
    requires StrictlyIncreasing(s)
    ensures StrictlyIncreasing(r)
    ensures forall u :: u in r <==> u == t || u in s
    ensures r != [] && (r[0] == t || (s != [] && r[0] == s[0]))
  {
    if s == [] then [t]
    else if t == s[0] then s
    else if Less(t, s[0]) then [t] + s
    else
      LessTotal(t, s[0]);
      var r := [s[0]] + InsertUnique(t, s[1..]);
      assert |s| > 1 ==> Less(s[0], s[1]);
      r
  }

  /** The distinct strings of `ts`, in ascending order. */
  function SortedUnique(ts: seq<string>): (r: seq<string>)
    ensures StrictlyIncreasing(r)
    ensures forall u :: u in r <==> u in ts
  {
    if ts == [] then [] else InsertUnique(ts[0], SortedUnique(ts[1..]))
  }

  /** `sorted(list(set(tag for opp in RAW_DATA for tag in opp["tags"])))`. */
  function SkillOptions(raw: seq<RawOpportunity>): (r: seq<string>)
    ensures StrictlyIncreasing(r)
    ensures forall t :: t in r <==> exists o :: o in raw && t in o.tags
  {
    SortedUnique(AllTags(raw))
  }

  /** A strictly increasing list is sorted pairwise, so it holds no duplicates. */
  lemma {:induction false} StrictlyIncreasingIsSorted(s: seq<string>, i: int, j: int)
    requires StrictlyIncreasing(s)
    requires 0 <= i < j < |s|
    ensures Less(s[i], s[j])
    ensures s[i] != s[j]
    decreases j - i
  {
    if j == i + 1 {
    } else {
      StrictlyIncreasingIsSorted(s, i + 1, j);
      LessTransitive(s[i], s[i + 1], s[j]);
    }
    if s[i] == s[j] {
      LessIrreflexive(s[i]);
    }
  }

  /** The skill options list each tag exactly once. */
  lemma SkillOptionsDistinct(raw: seq<RawOpportunity>, i: int, j: int)
    requires 0 <= i < j < |SkillOptions(raw)|
    ensures SkillOptions(raw)[i] != SkillOptions(raw)[j]
  {
    StrictlyIncreasingIsSorted(SkillOptions(raw), i, j);
  }
}
