/**
 * Prompt synthesis (prompts/templates.py).  A prompt is a large formatted text;
 * here each prompt is the record of the values and selections it inserts into
 * that text, and the helpers that choose those values are modelled one by one.
 */
module Templates {
  import opened Wrappers
  import opened Text
  import OrderedMap
  import opened Profiles
  import Classification
  import Enrichment

  // ---------------------------------------------------------------- temperature

  /** Neutral share (in percent) above 50 adds 0.1, above 30 adds 0.05. */
  function NeutralAdjustment(neutralRatio: real): real {
    if neutralRatio > 50.0 then 0.1 else if neutralRatio > 30.0 then 0.05 else 0.0
  }

  /** Consistency (in percent) above 80 takes 0.1 away, above 60 takes 0.05 away. */
  function ConsistencyAdjustment(consistencyLevel: real): real {
    if consistencyLevel > 80.0 then 0.1 else if consistencyLevel > 60.0 then 0.05 else 0.0
  }

  /** Challenge (in percent) above 70 adds 0.1, above 40 adds 0.05. */
  function ChallengeAdjustment(challengeLevel: real): real {
    if challengeLevel > 70.0 then 0.1 else if challengeLevel > 40.0 then 0.05 else 0.0
  }

  function Clamp(x: real, lo: real, hi: real): real {
    if x < lo then lo else if x > hi then hi else x
  }

  /** The base 0.7 moved by the three bracket adjustments, kept within [0.3, 0.9]. */
  function RecommendedTemperature(neutralRatio: real, consistencyLevel: real, challengeLevel: real): real {
    Clamp(0.7 + NeutralAdjustment(neutralRatio) - ConsistencyAdjustment(consistencyLevel)
              + ChallengeAdjustment(challengeLevel), 0.3, 0.9)
  }

  /** `calculate_recommended_temperature`: the adjustment is accumulated step by step. */
  method CalculateRecommendedTemperature(neutralRatio: real, consistencyLevel: real, challengeLevel: real)
    returns (temperature: real)
    ensures temperature == RecommendedTemperature(neutralRatio, consistencyLevel, challengeLevel)
    ensures 0.3 <= temperature <= 0.9
  {
    var baseTemp := 0.7;
    var tempAdjust: real;
    if neutralRatio > 50.0 {
      tempAdjust := 0.1;
    } else if neutralRatio > 30.0 {
      tempAdjust := 0.05;
    } else {
      tempAdjust := 0.0;
    }
    if consistencyLevel > 80.0 {
      tempAdjust := tempAdjust - 0.1;
    } else if consistencyLevel > 60.0 {
      tempAdjust := tempAdjust - 0.05;
    }
    if challengeLevel > 70.0 {
      tempAdjust := tempAdjust + 0.1;
    } else if challengeLevel > 40.0 {
      tempAdjust := tempAdjust + 0.05;
    }
    var recommended := baseTemp + tempAdjust;
    temperature := if recommended > 0.9 then 0.9 else recommended;
    temperature := if temperature < 0.3 then 0.3 else temperature;
  }

  /** The adjustments alone already keep the value within [0.6, 0.9], so the clamp
      never changes it. */
  lemma TemperatureRange(neutralRatio: real, consistencyLevel: real, challengeLevel: real)
    ensures 0.6 <= RecommendedTemperature(neutralRatio, consistencyLevel, challengeLevel) <= 0.9
    ensures RecommendedTemperature(neutralRatio, consistencyLevel, challengeLevel)
         == 0.7 + NeutralAdjustment(neutralRatio) - ConsistencyAdjustment(consistencyLevel)
                + ChallengeAdjustment(challengeLevel)
  {
  }

  /** More neutral or more challenging never lowers the temperature; more consistent
      never raises it. */
  lemma TemperatureMonotone(n1: real, n2: real, c1: real, c2: real, h1: real, h2: real)
    requires n1 <= n2 && c1 >= c2 && h1 <= h2
    ensures RecommendedTemperature(n1, c1, h1) <= RecommendedTemperature(n2, c2, h2)
  {
  }

  /** 33.3% neutral adds 0.05 and 66.7% consistency takes 0.05 away. */
  lemma TemperatureExample()
    ensures RecommendedTemperature(33.3, 66.7, 0.0) == 0.7
  {
  }

  // ---------------------------------------------------------------- bands

  /** `get_intensity_description`. */
  function IntensityDescription(intensity: real): (d: string)
    ensures d == "较强" <==> intensity > 0.7
    ensures d == "中等" <==> 0.5 < intensity <= 0.7
    ensures d == "较弱" <==> intensity <= 0.5
  {
    if intensity > 0.7 then "较强" else if intensity > 0.5 then "中等" else "较弱"
  }

  /** The five bands of a numeric attitude score. */
  function AttitudeBand(score: real): (d: string)
    ensures d == "非常友好/积极支持" <==> score > 0.6
    ensures d == "友好/支持" <==> 0.3 < score <= 0.6
    ensures d == "中立/客观" <==> -0.3 < score <= 0.3
    ensures d == "质疑/批评" <==> -0.6 < score <= -0.3
    ensures d == "强烈反对/批评" <==> score <= -0.6
  {
    if score > 0.6 then "非常友好/积极支持"
    else if score > 0.3 then "友好/支持"
    else if score > -0.3 then "中立/客观"
    else if score > -0.6 then "质疑/批评"
    else "强烈反对/批评"
  }

  /** The attitude line of `get_user_prompt`: a score is banded, a description passes
      through, and a missing attitude reads "中立". */
  function AttitudeDescription(attitude: Option<Attitude>): (d: string)
    ensures attitude.None? ==> d == "中立"
    ensures attitude.Some? && attitude.value.Described? ==> d == attitude.value.text
    ensures attitude.Some? && attitude.value.Score? ==> d == AttitudeBand(attitude.value.score)
  {
    match attitude
    case None => "中立"
    case Some(Described(text)) => text
    case Some(Score(score)) => AttitudeBand(score)
  }

  const PlatformStyles: map<string, string> := map[
    "Twitter" := "短小精悍，常使用标签(#)，观点鲜明",
    "微博" := "中文表达，可包含表情符号，话题性强",
    "Facebook" := "相对详细，可包含链接和图片描述",
    "YouTube" := "评论常与视频内容相关，可较长",
    "Reddit" := "社区化讨论，有特定板块规则",
    "知乎" := "较为理性，分析性强，可较长",
    "TikTok" := "简短直接，常使用流行语和表情",
    "微信" := "朋友圈风格，个人化表达",
    "论坛/BBS" := "讨论深入，可能有长篇回复"
  ]

  const DefaultPlatformStyle := "适应平台特点的表达方式"

  /** `get_platform_style`: the table entry, or the default for any other platform. */
  function PlatformStyle(platform: string): (r: string)
    ensures platform in PlatformStyles ==> r == PlatformStyles[platform]
    ensures r == DefaultPlatformStyle <==> platform !in PlatformStyles
  {
    if platform in PlatformStyles then PlatformStyles[platform] else DefaultPlatformStyle
  }

  // ---------------------------------------------------------------- style description

  const StyleMapping: map<string, string> := map[
    "客观中立型（带有共识导向）" := "客观、中立，寻求共识",
    "正式权威型" := "正式、权威，体现专业性",
    "直接追问型" := "直接、有力，善于追问",
    "分析探究型" := "分析深入，善于探究本质",
    "平衡报道型" := "平衡各方观点，全面客观"
  ]

  /** The mapped phrase for a known style; an unknown style is its own text. */
  function BaseStyle(questionStyle: string): (r: string)
    ensures questionStyle in StyleMapping ==> r == StyleMapping[questionStyle]
    ensures questionStyle !in StyleMapping ==> r == questionStyle
  {
    if questionStyle in StyleMapping then StyleMapping[questionStyle] else questionStyle
  }

  /** The challenge band, on a percentage: above 70, above 30, or low. */
  function ChallengeClause(challengeLevel: real): (r: string)
    ensures r == "（高挑战性，常提出尖锐问题）" <==> challengeLevel > 70.0
    ensures r == "（中等挑战性，适时追问）" <==> 30.0 < challengeLevel <= 70.0
    ensures r == "（低挑战性，以建设性提问为主）" <==> challengeLevel <= 30.0
  {
    if challengeLevel > 70.0 then "（高挑战性，常提出尖锐问题）"
    else if challengeLevel > 30.0 then "（中等挑战性，适时追问）"
    else "（低挑战性，以建设性提问为主）"
  }

  /** The stance clause: Aligned, Counter, or anything else. */
  function StanceClause(stanceLabel: string): (r: string)
    ensures r == "倾向于支持性、理解性提问" <==> stanceLabel == "Aligned"
    ensures r == "倾向于质疑性、批判性提问" <==> stanceLabel == "Counter"
    ensures r == "倾向于平衡性、中立性提问" <==> stanceLabel !in {"Aligned", "Counter"}
  {
    if stanceLabel == "Aligned" then "倾向于支持性、理解性提问"
    else if stanceLabel == "Counter" then "倾向于质疑性、批判性提问"
    else "倾向于平衡性、中立性提问"
  }

  /** `build_style_description`: base style, challenge band, then the stance clause. */
  function StyleDescription(questionStyle: string, stanceLabel: string, challengeLevel: real): (r: string)
    ensures StartsWith(r, BaseStyle(questionStyle))
    ensures questionStyle !in StyleMapping ==> StartsWith(r, questionStyle)
    ensures |StanceClause(stanceLabel)| <= |r| && r[|r| - |StanceClause(stanceLabel)|..] == StanceClause(stanceLabel)
    ensures var b := |BaseStyle(questionStyle)|;
      var c := |ChallengeClause(challengeLevel)|;
      && |r| == b + c + 1 + |StanceClause(stanceLabel)|
      && r[b..b + c] == ChallengeClause(challengeLevel)
      && r[b + c] == '，'
  {
    var base := BaseStyle(questionStyle);
    var stance := StanceClause(stanceLabel);
    var r := base + ChallengeClause(challengeLevel) + "，" + stance;
    JoinedLayout(base, ChallengeClause(challengeLevel), "，", stance);
    r
  }

  /** Where each piece of `x + y + sep + z` sits. */
  lemma JoinedLayout(x: string, y: string, sep: string, z: string)
    ensures var r := x + y + sep + z;
      && |r| == |x| + |y| + |sep| + |z|
      && r[..|x|] == x
      && r[|x|..|x| + |y|] == y
      && r[|x| + |y|..|x| + |y| + |sep|] == sep
      && r[|r| - |z|..] == z
  {
    var r := x + y + sep + z;
    assert r == (x + y) + (sep + z);
    assert r[..|x|] == x;
    assert r[|x|..|x| + |y|] == y;
    assert r[|x| + |y|..|x| + |y| + |sep|] == sep;
    assert r[|r| - |z|..] == z;
  }

  /** Of the five styles the enrichment step assigns, only the consensus style has a
      mapped phrase; the other four reach the prompt as their own text. */
  lemma EnrichedStylesPassThrough(stanceLabel: string, avgQuestionLength: real)
    ensures BaseStyle(Enrichment.QuestionStyle(stanceLabel, avgQuestionLength))
         == if stanceLabel == "Aligned" then "客观、中立，寻求共识"
            else Enrichment.QuestionStyle(stanceLabel, avgQuestionLength)
  {
    var style := Enrichment.QuestionStyle(stanceLabel, avgQuestionLength);
    if stanceLabel != "Aligned" {
      assert style != Enrichment.StyleConsensus;
      assert style !in StyleMapping;
    }
  }

  // ---------------------------------------------------------------- issue focus

  /** The substring tests that shorten an issue-distribution key, in test order. */
  const IssueMarkers: seq<Classification.KeywordGroup> := [
    Classification.KeywordGroup(["EI_1"], "外国政府涉台立法"),
    Classification.KeywordGroup(["EI_2"], "外国政要涉台表态或访问"),
    Classification.KeywordGroup(["EI_3"], "国际组织涉台表述"),
    Classification.KeywordGroup(["EI_5"], "外媒涉台报道争议"),
    Classification.KeywordGroup(["MS_1"], "外国军舰军机穿越台海"),
    Classification.KeywordGroup(["MS_2"], "对台军售或军事援助")
  ]

  /** The short name of the first marker the key contains, or the key itself. */
  function IssueLabel(key: string): (short: string)
    ensures (forall i | 0 <= i < |IssueMarkers| :: !Classification.Matches(IssueMarkers[i], key)) ==> short == key
    ensures forall i | 0 <= i < |IssueMarkers| ::
      Classification.Matches(IssueMarkers[i], key) &&
      (forall j | 0 <= j < i :: !Classification.Matches(IssueMarkers[j], key))
      ==> short == IssueMarkers[i].category
  {
    Classification.Classified(IssueMarkers, key, key)
  }

  /** A line of the issue-focus description: an issue share (in percent), or the
      priority line with the topics it lists. */
  datatype FocusLine = Share(issue: string, percent: real) | Priority(topics: seq<string>)

  /** "无明显特定议题偏好" when nothing is worth listing, the lines otherwise. */
  datatype FocusDescription = NoPreference | FocusLines(lines: seq<FocusLine>)

  /** The line for one distribution entry: its relabelled issue and its percentage. */
  function ShareLine(entry: (string, real)): FocusLine {
    Share(IssueLabel(entry.0), entry.1 * 100.0)
  }

  /** One share line per distribution entry above 0.1, in map order. */
  function ShareLines(distribution: Weights): (lines: seq<FocusLine>)
    ensures |lines| == |Above(distribution, 0.1)|
  {
    var kept := Above(distribution, 0.1);
    seq(|kept|, k requires 0 <= k < |kept| => ShareLine(kept[k]))
  }

  lemma ShareLinesAppend(distribution: Weights, entry: (string, real))
    ensures ShareLines(distribution + [entry])
         == ShareLines(distribution) + (if entry.1 > 0.1 then [ShareLine(entry)] else [])
  {
    AboveAppend(distribution, entry, 0.1);
    var before := Above(distribution, 0.1);
    var after := Above(distribution + [entry], 0.1);
    var lines := ShareLines(distribution + [entry]);
    var expected := ShareLines(distribution) + (if entry.1 > 0.1 then [ShareLine(entry)] else []);
    assert |lines| == |expected|;
    forall k | 0 <= k < |lines| ensures lines[k] == expected[k] {
      if k < |before| {
        assert after[k] == before[k];
      }
    }
  }

  function IssueFocus(distribution: Weights, priority: Weights): FocusDescription {
    var lines := ShareLines(distribution)
      + (if priority == [] then [] else [Priority(Take(OrderedMap.Keys(priority), 3))]);
    if lines == [] then NoPreference else FocusLines(lines)
  }

  /** `build_issue_focus_description`: the share loop, then the priority loop. */
  method BuildIssueFocusDescription(distribution: Weights, priority: Weights) returns (d: FocusDescription)
    ensures d == IssueFocus(distribution, priority)
  {
    var descriptions: seq<FocusLine> := [];
    for i := 0 to |distribution|
      invariant descriptions == ShareLines(distribution[..i])
    {
      assert distribution[..i + 1] == distribution[..i] + [distribution[i]];
      ShareLinesAppend(distribution[..i], distribution[i]);
      var (key, ratio) := distribution[i];
      if ratio > 0.1 {
        descriptions := descriptions + [ShareLine((key, ratio))];
      }
    }
    assert distribution[..|distribution|] == distribution;
    if priority != [] {
      var items: seq<string> := [];
      for i := 0 to |priority|
        invariant items == OrderedMap.Keys(priority[..i])
      {
        items := items + [priority[i].0];
      }
      assert priority[..|priority|] == priority;
      descriptions := descriptions + [Priority(Take(items, 3))];
    }
    if descriptions == [] {
      d := NoPreference;
    } else {
      d := FocusLines(descriptions);
    }
  }

  /** The default text appears exactly when no ratio exceeds 0.1 and there is no
      priority; otherwise the share lines come first, one per entry above 0.1 with
      its relabelled key, and the priority line (when there is a priority) lists at
      most its first three keys. */
  lemma IssueFocusSpec(distribution: Weights, priority: Weights)
    ensures IssueFocus(distribution, priority) == NoPreference
        <==> (forall e | e in distribution :: e.1 <= 0.1) && priority == []
    ensures IssueFocus(distribution, priority).FocusLines? ==>
      var lines := IssueFocus(distribution, priority).lines;
      var kept := Above(distribution, 0.1);
      && |lines| == |kept| + (if priority == [] then 0 else 1)
      && (forall k | 0 <= k < |kept| :: lines[k] == Share(IssueLabel(kept[k].0), kept[k].1 * 100.0))
      && (priority != [] ==>
            lines[|lines| - 1] == Priority(Take(OrderedMap.Keys(priority), 3))
            && |lines[|lines| - 1].topics| <= 3)
  {
    AboveMembers(distribution, 0.1);
    var kept := Above(distribution, 0.1);
    if kept != [] {
      assert kept[0] in kept;
    }
  }

  // ---------------------------------------------------------------- media prompt

  /** The values and selections `get_media_prompt` writes into its text.  Ratios
      appear as percentages. */
  datatype MediaPrompt = MediaPrompt(
    topic: string,
    mediaName: string,
    country: string,
    mediaType: string,
    ownership: string,
    politicalStance: string,
    language: string,
    stanceLabel: string,
    alignedPercent: real,
    counterPercent: real,
    neutralPercent: real,
    avgQuestionLength: real,
    totalQuestions: int,
    avgAlignedScore: real,
    avgCounterScore: real,
    issueEntropy: real,
    taiwanIssuePercent: real,
    issueFocus: FocusDescription,
    mediaTotalQuestions: int,
    mediaTaihaiQuestions: int,
    taiwanQuestionPercent: real,
    coveragePercent: real,
    background: string,
    semanticIntensity: real,
    intensity: string,
    challengePercent: real,
    neutralTendencyPercent: real,
    styleDescription: string,
    minLength: real,
    maxLength: real,
    focus: string,
    questionStyle: string,
    preferredTopic: string)

  const NoBasicInfo := BasicInfo(None, None, None, None, None, None)
  const NoIssueAnalysis := IssueAnalysis(None, None, None, None, None, None, None, None, None, None, None, None, None, None, None)
  const NoPerformance := Performance(None, None, None, None, None)
  const NoParameters := GenerationParameters(None, None, None, None, None, None, None)

  /** The first key of a mapping, or `fallback` when it is empty. */
  function FirstKeyOr(ws: Weights, fallback: string): string {
    if ws == [] then fallback else ws[0].0
  }

  function FocusPriorityOf(attributes: Attributes): Weights {
    attributes.generationParameters.GetOr(NoParameters).focusPriority.GetOr([])
  }

  function AvgQuestionLengthOf(attributes: Attributes): real {
    attributes.issueAnalysis.GetOr(NoIssueAnalysis).avgQuestionLength.GetOr(100.0)
  }

  /** `get_media_prompt`: every missing section or field takes its default. */
  function GetMediaPrompt(topic: string, attributes: Attributes, context: string): (p: MediaPrompt)
    ensures p.topic == topic
    ensures context != "" ==> p.background == context
    ensures context == "" ==> p.background == "常规新闻发布会"
    ensures p.avgQuestionLength == AvgQuestionLengthOf(attributes)
    ensures p.minLength == 0.7 * p.avgQuestionLength && p.maxLength == 1.3 * p.avgQuestionLength
    ensures FocusPriorityOf(attributes) != [] ==> p.focus == FocusPriorityOf(attributes)[0].0
    ensures FocusPriorityOf(attributes) == [] ==> p.focus == "议题核心"
  {
    var info := attributes.basicInfo.GetOr(NoBasicInfo);
    var analysis := attributes.issueAnalysis.GetOr(NoIssueAnalysis);
    var performance := attributes.overallPerformance.GetOr(NoPerformance);
    var parameters := attributes.generationParameters.GetOr(NoParameters);
    var stanceLabel := analysis.stanceLabel.GetOr("未知");
    var avgQuestionLength := analysis.avgQuestionLength.GetOr(100.0);
    var questionStyle := parameters.questionStyle.GetOr("客观中立");
    var focusPriority := parameters.focusPriority.GetOr([]);
    var challengeLevel := parameters.challengeLevel.GetOr(0.0) * 100.0;
    var semanticIntensity := parameters.semanticIntensity.GetOr(0.5);
    MediaPrompt(
      topic,
      info.name.GetOr("该媒体"),
      info.country.GetOr("未知"),
      info.mediaType.GetOr("媒体"),
      info.ownership.GetOr("未知"),
      info.politicalStance.GetOr("未知"),
      info.language.GetOr("中文"),
      stanceLabel,
      analysis.alignedRatio.GetOr(0.0) * 100.0,
      analysis.counterRatio.GetOr(0.0) * 100.0,
      analysis.neutralRatio.GetOr(0.0) * 100.0,
      avgQuestionLength,
      analysis.totalQuestions.GetOr(0),
      analysis.avgAlignedScore.GetOr(0.5),
      analysis.avgCounterScore.GetOr(0.5),
      analysis.issueEntropy.GetOr(0.0),
      analysis.taiwanIssueRatio.GetOr(0.0) * 100.0,
      IssueFocus(analysis.issueDistribution.GetOr([]), focusPriority),
      performance.mediaTotalQuestions.GetOr(0),
      performance.mediaTaihaiQuestions.GetOr(0),
      performance.taiwanQuestionRatio.GetOr(0.0) * 100.0,
      performance.coverageIntensity.GetOr(0.0) * 100.0,
      if context != "" then context else "常规新闻发布会",
      semanticIntensity,
      IntensityDescription(semanticIntensity),
      challengeLevel,
      parameters.neutralTendency.GetOr(0.0) * 100.0,
      StyleDescription(questionStyle, stanceLabel, challengeLevel),
      avgQuestionLength * 0.7,
      avgQuestionLength * 1.3,
      FirstKeyOr(focusPriority, "议题核心"),
      questionStyle,
      FirstKeyOr(parameters.topicPreferences.GetOr([]), "核心议题"))
  }

  /** With no attributes at all, every value is its default: a 70-130 character
      window around the default length of 100, and no issue preference. */
  lemma MediaPromptDefaults(topic: string)
    ensures var p := GetMediaPrompt(topic, NoAttributes, "");
      && p.mediaName == "该媒体" && p.country == "未知" && p.mediaType == "媒体"
      && p.ownership == "未知" && p.politicalStance == "未知" && p.language == "中文"
      && p.stanceLabel == "未知" && p.totalQuestions == 0
      && p.avgAlignedScore == 0.5 && p.avgCounterScore == 0.5
      && p.issueFocus == NoPreference
      && p.background == "常规新闻发布会"
      && p.intensity == "较弱"
      && p.minLength == 70.0 && p.maxLength == 130.0
      && p.focus == "议题核心" && p.questionStyle == "客观中立" && p.preferredTopic == "核心议题"
  {
    assert IssueFocus([], []) == NoPreference by {
      assert ShareLines([]) == [];
    }
  }

  /** An override replaces a whole section: overriding only the name drops the
      profile's country, type, ownership, stance and language back to defaults. */
  lemma OverrideReplacesSection(profile: Attributes, name: string, topic: string, context: string)
    ensures var overrides := NoAttributes.(basicInfo := Some(NoBasicInfo.(name := Some(name))));
      var p := GetMediaPrompt(topic, Merge(profile, overrides), context);
      && p.mediaName == name && p.country == "未知" && p.mediaType == "媒体"
      && p.ownership == "未知" && p.politicalStance == "未知" && p.language == "中文"
  {
  }

  /** A profile built by the enrichment step always supplies the focus and the
      preferred topic, so neither fallback ever shows; its name and stance label are
      the row's. */
  lemma MediaPromptOfEnrichedProfile(row: Enrichment.Row, topic: string, context: string)
    ensures var p := GetMediaPrompt(topic, Enrichment.ProfileOf(row), context);
      && p.mediaName == row.mediaName
      && p.stanceLabel == Enrichment.StanceLabel(row)
      && p.focus == Enrichment.FocusPriority(row)[0].0
      && p.focus in Enrichment.FocusNames
      && p.preferredTopic == Enrichment.TopicPreferences(row)[0].0
      && p.preferredTopic in Enrichment.PreferenceNames
  {
    var profile := Enrichment.ProfileOf(row);
    var fp := Enrichment.FocusPriority(row);
    var tp := Enrichment.TopicPreferences(row);
    assert profile.basicInfo.value.name == Some(row.mediaName);
    assert profile.issueAnalysis.value.stanceLabel == Some(Enrichment.StanceLabel(row));
    assert profile.generationParameters.value.focusPriority == Some(fp);
    assert profile.generationParameters.value.topicPreferences == Some(tp);
    Enrichment.FocusPrioritySpec(row);
    Enrichment.TopicPreferencesSpec(row);
    Enrichment.KeysAreNamed(row);
    assert fp[0].0 in Enrichment.FocusNames;
    assert tp[0].0 in Enrichment.PreferenceNames;
  }

  // ---------------------------------------------------------------- user prompt

  /** The values and selections `get_user_prompt` writes into its text; the optional
      interest and follower lines are present only when their value is truthy. */
  datatype UserPrompt = UserPrompt(
    topic: string,
    nationality: string,
    age: string,
    education: string,
    profession: string,
    politicalLeaning: string,
    attitude: string,
    platform: string,
    postingStyle: string,
    interestsLine: Option<string>,
    followersLine: Option<int>,
    seen: string,
    platformStyle: string)

  /** The interest line: a non-empty list joined by ", ", non-empty text as is. */
  function InterestsLine(interests: Option<Interests>): (line: Option<string>)
    ensures line.None? <==> interests.None? || interests.value == Listed([]) || interests.value == Free("")
  {
    match interests
    case None => None
    case Some(Listed(items)) => if items == [] then None else Some(JoinWith(items, ", "))
    case Some(Free(text)) => if text == "" then None else Some(text)
  }

  /** `get_user_prompt`. */
  function GetUserPrompt(topic: string, attributes: Attributes, context: string): (p: UserPrompt)
    ensures p.topic == topic
    ensures context != "" ==> p.seen == context
    ensures context == "" ==> p.seen == "关于" + topic + "的新闻报道"
    ensures p.attitude == AttitudeDescription(attributes.attitudeToChina)
    ensures p.platformStyle == PlatformStyle(p.platform)
    ensures p.followersLine.Some? <==> attributes.influenceFollowers.Some? && attributes.influenceFollowers.value != 0
  {
    var platform := attributes.platform.GetOr("社交媒体");
    var followers := attributes.influenceFollowers.GetOr(0);
    UserPrompt(
      topic,
      attributes.nationality.GetOr("未知"),
      attributes.age.GetOr("未知"),
      attributes.education.GetOr("未知"),
      attributes.profession.GetOr("未知"),
      attributes.politicalLeaning.GetOr("中立"),
      AttitudeDescription(attributes.attitudeToChina),
      platform,
      attributes.postingStyle.GetOr("一般评论"),
      InterestsLine(attributes.interests),
      if followers != 0 then Some(followers) else None,
      if context != "" then context else "关于" + topic + "的新闻报道",
      PlatformStyle(platform))
  }

  /** With no attributes every value is its default, and the default platform is
      not in the style table. */
  lemma UserPromptDefaults(topic: string)
    ensures GetUserPrompt(topic, NoAttributes, "")
         == UserPrompt(topic, "未知", "未知", "未知", "未知", "中立", "中立", "社交媒体", "一般评论",
                       None, None, "关于" + topic + "的新闻报道", DefaultPlatformStyle)
  {
    assert "社交媒体" !in PlatformStyles;
  }

  // ---------------------------------------------------------------- simple prompt

  datatype SimplePrompt = SimplePrompt(
    topic: string,
    mediaName: string,
    country: string,
    stanceDescription: string,
    tone: string)

  /** `get_media_prompt_simple`: Aligned and Counter have their own stance and tone;
      every other label reads as balanced. */
  function GetMediaPromptSimple(topic: string, mediaName: string, country: string := "中国",
                                stance: string := "Aligned"): (p: SimplePrompt)
    ensures p.topic == topic && p.mediaName == mediaName && p.country == country
    ensures p.stanceDescription == "理解和支持的立场" <==> stance == "Aligned"
    ensures p.stanceDescription == "质疑和挑战的立场" <==> stance == "Counter"
    ensures p.stanceDescription == "平衡客观的立场" <==> stance !in {"Aligned", "Counter"}
    ensures p.tone == "建设性、合作性" <==> stance == "Aligned"
    ensures p.tone == "批判性、追问性" <==> stance == "Counter"
    ensures p.tone == "中立、探究性" <==> stance !in {"Aligned", "Counter"}
  {
    if stance == "Aligned" then SimplePrompt(topic, mediaName, country, "理解和支持的立场", "建设性、合作性")
    else if stance == "Counter" then SimplePrompt(topic, mediaName, country, "质疑和挑战的立场", "批判性、追问性")
    else SimplePrompt(topic, mediaName, country, "平衡客观的立场", "中立、探究性")
  }

  lemma SimplePromptDefaults(topic: string, mediaName: string)
    ensures GetMediaPromptSimple(topic, mediaName)
         == SimplePrompt(topic, mediaName, "中国", "理解和支持的立场", "建设性、合作性")
  {
  }
}
