/**
 * The shape of an agent's attribute dictionary, as the enrichment step writes it
 * and as the prompt builders read it.  Every key may be absent (`None`): the
 * readers then fall back to their defaults.  Category/weight mappings keep
 * insertion order, like the Python dicts they model.
 */
module Profiles {
  import opened Wrappers
  import OrderedMap

  /** A category -> weight mapping in insertion order. */
  type Weights = OrderedMap.Entries<real>

  datatype BasicInfo = BasicInfo(
    name: Option<string>,
    country: Option<string>,
    mediaType: Option<string>,
    ownership: Option<string>,
    politicalStance: Option<string>,
    language: Option<string>)

  /** The "taiwan_issue_analysis" section. */
  datatype IssueAnalysis = IssueAnalysis(
    totalQuestions: Option<int>,
    counterCount: Option<int>,
    alignedCount: Option<int>,
    neutralCount: Option<int>,
    counterRatio: Option<real>,
    alignedRatio: Option<real>,
    neutralRatio: Option<real>,
    stanceLabel: Option<string>,
    avgQuestionLength: Option<real>,
    issueEntropy: Option<real>,
    taiwanIssueRatio: Option<real>,
    avgAlignedScore: Option<real>,
    avgCounterScore: Option<real>,
    avgNeutralScore: Option<real>,
    issueDistribution: Option<Weights>)

  /** The "overall_performance" section. */
  datatype Performance = Performance(
    mediaTotalQuestions: Option<int>,
    mediaTaihaiQuestions: Option<int>,
    taiwanQuestionRatio: Option<real>,
    coverageIntensity: Option<real>,
    topicDiversity: Option<real>)

  /** The "generation_parameters" section. */
  datatype GenerationParameters = GenerationParameters(
    questionStyle: Option<string>,
    focusPriority: Option<Weights>,
    challengeLevel: Option<real>,
    consistencyLevel: Option<real>,
    neutralTendency: Option<real>,
    semanticIntensity: Option<real>,
    topicPreferences: Option<Weights>)

  /** "attitude_to_china" is either a score in [-1, 1] or already a description. */
  datatype Attitude = Score(score: real) | Described(text: string)

  /** "interests" is either a list of topics or free text. */
  datatype Interests = Listed(items: seq<string>) | Free(text: string)

  /**
   * The top-level keys of an attribute dictionary: the four sections of a media
   * profile and the flat fields of a user profile.
   */
  datatype Attributes = Attributes(
    basicInfo: Option<BasicInfo>,
    issueAnalysis: Option<IssueAnalysis>,
    overallPerformance: Option<Performance>,
    generationParameters: Option<GenerationParameters>,
    nationality: Option<string>,
    age: Option<string>,
    education: Option<string>,
    politicalLeaning: Option<string>,
    attitudeToChina: Option<Attitude>,
    platform: Option<string>,
    postingStyle: Option<string>,
    interests: Option<Interests>,
    profession: Option<string>,
    influenceFollowers: Option<int>)

  /** The empty dictionary `{}`. */
  const NoAttributes := Attributes(None, None, None, None, None, None, None, None, None, None, None, None, None, None)

  function Override<T>(base: Option<T>, top: Option<T>): Option<T> {
    if top.Some? then top else base
  }

  /** `{**profile, **overrides}`: a top-level key present in `overrides` replaces the
      profile's whole value under that key; sections are not merged key by key. */
  function Merge(profile: Attributes, overrides: Attributes): (r: Attributes)
    ensures overrides == NoAttributes ==> r == profile
    ensures profile == NoAttributes ==> r == overrides
  {
    Attributes(
      Override(profile.basicInfo, overrides.basicInfo),
      Override(profile.issueAnalysis, overrides.issueAnalysis),
      Override(profile.overallPerformance, overrides.overallPerformance),
      Override(profile.generationParameters, overrides.generationParameters),
      Override(profile.nationality, overrides.nationality),
      Override(profile.age, overrides.age),
      Override(profile.education, overrides.education),
      Override(profile.politicalLeaning, overrides.politicalLeaning),
      Override(profile.attitudeToChina, overrides.attitudeToChina),
      Override(profile.platform, overrides.platform),
      Override(profile.postingStyle, overrides.postingStyle),
      Override(profile.interests, overrides.interests),
      Override(profile.profession, overrides.profession),
      Override(profile.influenceFollowers, overrides.influenceFollowers))
  }

  /** `r` is what a key holds after the merge: the override's value when it has the
      key, the profile's otherwise. */
  predicate OverrideWins<T(==)>(r: Option<T>, base: Option<T>, top: Option<T>) {
    (top.Some? ==> r == top) && (top.None? ==> r == base)
  }

  /** On every top-level key the override wins, and a key the override lacks keeps
      the profile's value (or stays absent). */
  lemma MergePrecedence(profile: Attributes, overrides: Attributes)
    ensures var r := Merge(profile, overrides);
      && OverrideWins(r.basicInfo, profile.basicInfo, overrides.basicInfo)
      && OverrideWins(r.issueAnalysis, profile.issueAnalysis, overrides.issueAnalysis)
      && OverrideWins(r.overallPerformance, profile.overallPerformance, overrides.overallPerformance)
      && OverrideWins(r.generationParameters, profile.generationParameters, overrides.generationParameters)
      && OverrideWins(r.nationality, profile.nationality, overrides.nationality)
      && OverrideWins(r.age, profile.age, overrides.age)
      && OverrideWins(r.education, profile.education, overrides.education)
      && OverrideWins(r.politicalLeaning, profile.politicalLeaning, overrides.politicalLeaning)
      && OverrideWins(r.attitudeToChina, profile.attitudeToChina, overrides.attitudeToChina)
      && OverrideWins(r.platform, profile.platform, overrides.platform)
      && OverrideWins(r.postingStyle, profile.postingStyle, overrides.postingStyle)
      && OverrideWins(r.interests, profile.interests, overrides.interests)
      && OverrideWins(r.profession, profile.profession, overrides.profession)
      && OverrideWins(r.influenceFollowers, profile.influenceFollowers, overrides.influenceFollowers)
  {
  }

  /** Merging the same overrides twice changes nothing more, and two rounds of
      overrides compose into one. */
  lemma MergeLaws(p: Attributes, a: Attributes, b: Attributes)
    ensures Merge(Merge(p, a), a) == Merge(p, a)
    ensures Merge(Merge(p, a), b) == Merge(p, Merge(a, b))
  {
  }

  /** The display name a profile carries, "" when it has none
      (`profile.get("basic_info", {}).get("name", "")`). */
  function NameOf(p: Attributes): string {
    if p.basicInfo.Some? then p.basicInfo.value.name.GetOr("") else ""
  }

  /** `profile.get("taiwan_issue_analysis", {}).get("stance_label")`. */
  function StanceLabelOf(p: Attributes): Option<string> {
    if p.issueAnalysis.Some? then p.issueAnalysis.value.stanceLabel else None
  }

  /** The entries whose weight is strictly above `threshold`, in order. */
  function Above(ws: Weights, threshold: real): (r: Weights)
    ensures |r| <= |ws|
  {
    if ws == [] then []
    else (if ws[0].1 > threshold then [ws[0]] else []) + Above(ws[1..], threshold)
  }

  /** An entry survives the filter exactly when it is present and outweighs the threshold. */
  lemma {:induction false} AboveMembers(ws: Weights, threshold: real)
    ensures forall e :: e in Above(ws, threshold) <==> e in ws && e.1 > threshold
  {
    if ws != [] {
      AboveMembers(ws[1..], threshold);
      assert ws == [ws[0]] + ws[1..];
    }
  }

  lemma {:induction false} AboveAppend(ws: Weights, x: (string, real), threshold: real)
    ensures Above(ws + [x], threshold) == Above(ws, threshold) + (if x.1 > threshold then [x] else [])
  {
    if ws == [] {
      assert [x][1..] == [];
    } else {
      assert (ws + [x])[1..] == ws[1..] + [x];
      AboveAppend(ws[1..], x, threshold);
    }
  }
}
