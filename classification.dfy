/**
 * Classification rules of agents_data/convert_media_data.py: exact-match tables
 * for country and ownership, and keyword groups scanned in a fixed priority
 * order for media type and language.  All of them are total.
 */
module Classification {
  import opened Text

  const CountryTable: map<string, string> := map[
    "《中国日报》" := "中国",
    "《人民日报》" := "中国",
    "《北京青年报》" := "中国",
    "《南华早报》" := "中国香港",
    "《澎湃新闻》" := "中国",
    "《澳大利亚人报》" := "澳大利亚",
    "《环球时报》" := "中国",
    "《纽约时报》" := "美国",
    "中国国际电视台（CGTN）" := "中国",
    "中央广播电视总台" := "中国",
    "中新社" := "中国",
    "俄新社" := "俄罗斯",
    "俄通塔斯社" := "俄罗斯",
    "印度报业托拉斯社" := "印度",
    "国际广播电台" := "中国",
    "彭博社" := "美国",
    "总台华语环球节目中心" := "中国",
    "总台央视" := "中国",
    "新华社" := "中国",
    "日本东京电视台" := "日本",
    "日本共同社" := "日本",
    "日本广播协会（NHK）" := "日本",
    "法新社" := "法国",
    "深圳卫视" := "中国",
    "湖北广播电视台" := "中国",
    "澳亚卫视" := "中国澳门",
    "澳大利亚人报" := "澳大利亚",
    "环球邮报" := "加拿大",
    "路透社" := "英国",
    "香港中评社" := "中国香港",
    "香港电台" := "中国香港"
  ]

  const OwnershipTable: map<string, string> := map[
    "《中国日报》" := "国有",
    "新华社" := "国有",
    "中央广播电视总台" := "国有",
    "《人民日报》" := "国有",
    "彭博社" := "私营",
    "路透社" := "私营",
    "法新社" := "私营",
    "《纽约时报》" := "私营",
    "《北京青年报》" := "国有",
    "《南华早报》" := "私营",
    "《澎湃新闻》" := "国有",
    "《澳大利亚人报》" := "私营",
    "《环球时报》" := "国有",
    "中国国际电视台（CGTN）" := "国有",
    "中新社" := "国有",
    "俄新社" := "国有",
    "俄通塔斯社" := "国有",
    "印度报业托拉斯社" := "国有",
    "国际广播电台" := "国有",
    "总台华语环球节目中心" := "国有",
    "总台央视" := "国有",
    "日本东京电视台" := "私营",
    "日本共同社" := "国有",
    "日本广播协会（NHK）" := "国有",
    "深圳卫视" := "国有",
    "湖北广播电视台" := "国有",
    "澳亚卫视" := "私营",
    "澳大利亚人报" := "私营",
    "环球邮报" := "私营",
    "香港中评社" := "私营",
    "香港电台" := "公营"
  ]

  const UnknownCountry := "未知"
  const UnknownOwnership := "未知所有权"

  /** `determine_country`: the table entry for the exact name, else the sentinel;
      the sentinel is returned exactly for names the table does not list. */
  function Country(name: string): (r: string)
    ensures name in CountryTable ==> r == CountryTable[name]
    ensures r == UnknownCountry <==> name !in CountryTable
  {
    if name in CountryTable then CountryTable[name] else UnknownCountry
  }

  /** `determine_ownership`, with the same shape. */
  function Ownership(name: string): (r: string)
    ensures name in OwnershipTable ==> r == OwnershipTable[name]
    ensures r == UnknownOwnership <==> name !in OwnershipTable
  {
    if name in OwnershipTable then OwnershipTable[name] else UnknownOwnership
  }

  /** A list of keywords and the category a name gets when one of them occurs in it. */
  datatype KeywordGroup = KeywordGroup(keywords: seq<string>, category: string)

  predicate Matches(g: KeywordGroup, name: string) {
    exists k | k in g.keywords :: Contains(name, k)
  }

  const MediaTypeGroups: seq<KeywordGroup> := [
    KeywordGroup(["央视", "卫视", "NHK", "CNN", "BBC", "电视", "广播"], "电视台/广播电视媒体"),
    KeywordGroup(["新华", "路透", "共同", "美联", "法新", "俄新", "塔斯", "中新社"], "通讯社"),
    KeywordGroup(["人民日报", "纽约", "时报", "日报", "晚报", "早报", "环球时报", "中国日报"], "报社/纸质媒体"),
    KeywordGroup(["网", "澎湃", "界面", "腾讯", "新浪"], "网络新媒体")
  ]
  const UnknownMediaType := "未知媒体类型"

  const LanguageGroups: seq<KeywordGroup> := [
    KeywordGroup(["中国", "央视", "新华", "人民", "中评", "华语", "澎湃", "南华早报"], "中文"),
    KeywordGroup(["CNN", "BBC", "纽约", "彭博", "路透", "澳大利亚人报", "环球邮报"], "英文"),
    KeywordGroup(["日本", "NHK", "共同", "东京"], "日文"),
    KeywordGroup(["俄新", "塔斯"], "俄文"),
    KeywordGroup(["法新"], "法文")
  ]
  const UnknownLanguage := "未知语言"

  /** Position of the first group that matches `name`, `|groups|` when none does. */
  function FirstMatchingGroup(groups: seq<KeywordGroup>, name: string): (i: nat)
    ensures i <= |groups|
    ensures i < |groups| ==> Matches(groups[i], name)
    ensures forall j | 0 <= j < i :: !Matches(groups[j], name)
  {
    if groups == [] then 0
    else if Matches(groups[0], name) then 0
    else 1 + FirstMatchingGroup(groups[1..], name)
  }

  /** The category of the first matching group, else `fallback`. */
  function Classified(groups: seq<KeywordGroup>, name: string, fallback: string): string {
    var i := FirstMatchingGroup(groups, name);
    if i < |groups| then groups[i].category else fallback
  }

  /** The keyword scan: groups in order, keywords in order, first hit returns. */
  method Classify(groups: seq<KeywordGroup>, name: string, fallback: string) returns (r: string)
    ensures r == Classified(groups, name, fallback)
  {
    var g := 0;
    while g < |groups|
      invariant 0 <= g <= |groups|
      invariant forall j | 0 <= j < g :: !Matches(groups[j], name)
    {
      var keywords := groups[g].keywords;
      var k := 0;
      while k < |keywords|
        invariant 0 <= k <= |keywords|
        invariant forall j | 0 <= j < k :: !Contains(name, keywords[j])
      {
        if Contains(name, keywords[k]) {
          assert Matches(groups[g], name);
          return groups[g].category;
        }
        k := k + 1;
      }
      g := g + 1;
    }
    return fallback;
  }

  /** The result of a keyword scan is the category of group `i` exactly when group `i`
      matches and no earlier group does, provided categories are distinct. */
  lemma ClassifiedIsFirstMatch(groups: seq<KeywordGroup>, name: string, fallback: string, i: nat)
    requires i < |groups|
    requires forall a, b | 0 <= a < b < |groups| :: groups[a].category != groups[b].category
    requires forall a | 0 <= a < |groups| :: groups[a].category != fallback
    ensures Classified(groups, name, fallback) == groups[i].category
        <==> Matches(groups[i], name) && forall j | 0 <= j < i :: !Matches(groups[j], name)
    ensures Classified(groups, name, fallback) == fallback
        <==> forall j | 0 <= j < |groups| :: !Matches(groups[j], name)
  {
  }

  /** `determine_media_type`: TV, then news agency, then newspaper, then online media. */
  method MediaType(name: string) returns (r: string)
    ensures r == Classified(MediaTypeGroups, name, UnknownMediaType)
  {
    r := Classify(MediaTypeGroups, name, UnknownMediaType);
  }

  /** `determine_language`: Chinese, English, Japanese, Russian, French in that order. */
  method Language(name: string) returns (r: string)
    ensures r == Classified(LanguageGroups, name, UnknownLanguage)
  {
    r := Classify(LanguageGroups, name, UnknownLanguage);
  }

  /** A name with both a TV keyword and a newspaper keyword is a TV outlet. */
  lemma MediaTypePriority(name: string)
    requires Matches(MediaTypeGroups[0], name)
    ensures Classified(MediaTypeGroups, name, UnknownMediaType) == "电视台/广播电视媒体"
  {
  }

  /** "《南华早报》" is Chinese-language through the keyword "南华早报", and
      "日本广播协会（NHK）" is a TV outlet through "广播". */
  lemma ExampleClassifications()
    ensures Classified(LanguageGroups, "《南华早报》", UnknownLanguage) == "中文"
    ensures Classified(MediaTypeGroups, "日本广播协会（NHK）", UnknownMediaType) == "电视台/广播电视媒体"
  {
    assert OccursAt("《南华早报》", "南华早报", 1);
    assert Contains("《南华早报》", "南华早报") && "南华早报" in LanguageGroups[0].keywords;
    assert OccursAt("日本广播协会（NHK）", "广播", 2);
    assert Contains("日本广播协会（NHK）", "广播") && "广播" in MediaTypeGroups[0].keywords;
  }
}
