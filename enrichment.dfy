/**
 * Profile enrichment (agents_data/convert_media_data.py): one CSV row becomes one
 * media profile, and the rows are folded into an insertion-ordered dictionary
 * keyed by an id derived from the media name.
 */
module Enrichment {
  import opened Wrappers
  import opened Text
  import OrderedMap
  import opened Profiles
  import Classification

  /** One row of the media indicator table, its cells already parsed.
      `stanceLabel` is None when the cell is empty (pandas reads it as NaN). */
  datatype Row = Row(
    mediaName: string,
    stanceLabel: Option<string>,
    totalQuestions: int,
    counterCount: int,
    alignedCount: int,
    neutralCount: int,
    counterRatio: real,
    alignedRatio: real,
    neutralRatio: real,
    avgQuestionLength: real,
    issueEntropy: real,
    taiwanIssueRatio: real,
    avgAlignedScore: real,
    avgCounterScore: real,
    avgNeutralScore: real,
    ei1: real,
    ei2: real,
    ei3: real,
    ei5: real,
    ms1: real,
    ms2: real,
    mediaTotalQuestions: int,
    mediaTaihaiQuestions: int,
    taiwanQuestionRatio: real)

  // ---------------------------------------------------------------- ids

  /** The quoting brackets the id drops. */
  const IdDropped: set<char> := {'《', '》', '（', '）'}

  /** `name.lower().replace(' ', '_')` with the four brackets removed. */
  function MediaId(name: string): (id: string)
    ensures NoAsciiUpper(id)
    ensures ' ' !in id
    ensures forall c | c in IdDropped :: c !in id
  {
    var lowered := Lower(name);
    var joined := ReplaceChar(lowered, ' ', '_');
    var id := Without(joined, IdDropped);
    forall i | 0 <= i < |id| ensures !IsAsciiUpper(id[i]) {
      assert id[i] in joined;
      var j :| 0 <= j < |joined| && joined[j] == id[i];
      assert joined[j] == '_' || joined[j] == lowered[j];
    }
    id
  }

  /** Deriving the id of an id gives the id back. */
  lemma MediaIdIdempotent(name: string)
    ensures MediaId(MediaId(name)) == MediaId(name)
  {
    var id := MediaId(name);
    LowerIdentity(id);
    ReplaceIdentity(id, ' ', '_');
    WithoutIdentity(id, IdDropped);
  }

  /** The id is derived character by character, so it keeps the name's order... */
  lemma MediaIdAppend(a: string, b: string)
    ensures MediaId(a + b) == MediaId(a) + MediaId(b)
  {
    LowerAppend(a, b);
    ReplaceAppend(Lower(a), Lower(b), ' ', '_');
    WithoutAppend(ReplaceChar(Lower(a), ' ', '_'), ReplaceChar(Lower(b), ' ', '_'), IdDropped);
  }

  /** ...and each character becomes `_` (a space), nothing (a bracket) or its lower case. */
  lemma MediaIdChar(c: char)
    ensures MediaId([c]) == if c == ' ' then "_" else if c in IdDropped then [] else [LowerChar(c)]
  {
    assert Lower([c]) == [LowerChar(c)];
    var replaced := ReplaceChar([LowerChar(c)], ' ', '_');
    assert replaced == [if LowerChar(c) == ' ' then '_' else LowerChar(c)];
    WithoutChar(replaced[0], IdDropped);
    assert [replaced[0]] == replaced;
  }

  // ---------------------------------------------------------------- stance

  /** `determine_stance_label`: Counter wins over Aligned when both ratios exceed 0.6. */
  function StanceFromRatios(counterRatio: real, alignedRatio: real): (stance: string)
    ensures stance == "Counter" <==> counterRatio > 0.6
    ensures stance == "Aligned" <==> counterRatio <= 0.6 && alignedRatio > 0.6
    ensures stance == "Mixed" <==> counterRatio <= 0.6 && alignedRatio <= 0.6
  {
    if counterRatio > 0.6 then "Counter"
    else if alignedRatio > 0.6 then "Aligned"
    else "Mixed"
  }

  /** The row's own stance when the cell is filled, the ratio fallback otherwise. */
  function StanceLabel(row: Row): (stance: string)
    ensures row.stanceLabel.Some? ==> stance == row.stanceLabel.value
    ensures row.stanceLabel.None? ==> stance == StanceFromRatios(row.counterRatio, row.alignedRatio)
  {
    if row.stanceLabel.Some? then row.stanceLabel.value
    else StanceFromRatios(row.counterRatio, row.alignedRatio)
  }

  /** `map_stance_label_to_political`: the three labels, anything else unknown. */
  function PoliticalStance(stance: string): (r: string)
    ensures r == "对立立场" <==> stance == "Counter"
    ensures r == "一致立场" <==> stance == "Aligned"
    ensures r == "中立/混合立场" <==> stance == "Mixed"
    ensures r == "未知立场" <==> stance !in {"Counter", "Aligned", "Mixed"}
  {
    if stance == "Counter" then "对立立场"
    else if stance == "Aligned" then "一致立场"
    else if stance == "Mixed" then "中立/混合立场"
    else "未知立场"
  }

  // ---------------------------------------------------------------- numbers

  /** `round(x, 4)`, taken as rounding half up to four decimals. */
  function Round4(x: real): (r: real)
    ensures x - 0.00005 < r <= x + 0.00005
  {
    ((x * 10000.0 + 0.5).Floor as real) / 10000.0
  }

  lemma Round4Monotone(x: real, y: real)
    requires x <= y
    ensures Round4(x) <= Round4(y)
  {
    assert (x * 10000.0 + 0.5).Floor <= (y * 10000.0 + 0.5).Floor;
  }

  /** `calculate_coverage_intensity`: exactly 0.0 when there are no questions,
      the share of Taiwan-Strait questions up to rounding otherwise. */
  function CoverageIntensity(taihaiQuestions: int, totalQuestions: int): (r: real)
    ensures totalQuestions == 0 ==> r == 0.0
    ensures totalQuestions != 0 ==>
      var share := taihaiQuestions as real / totalQuestions as real;
      share - 0.00005 < r <= share + 0.00005
  {
    if totalQuestions == 0 then 0.0
    else Round4(taihaiQuestions as real / totalQuestions as real)
  }

  /** `calculate_topic_diversity`: the entropy, boosted by 1.2 for "Mixed" only. */
  function TopicDiversity(issueEntropy: real, stance: string): (r: real)
    ensures stance == "Mixed" ==> issueEntropy * 1.2 - 0.00005 < r <= issueEntropy * 1.2 + 0.00005
    ensures stance != "Mixed" ==> issueEntropy - 0.00005 < r <= issueEntropy + 0.00005
  {
    if stance == "Mixed" then Round4(issueEntropy * 1.2) else Round4(issueEntropy)
  }

  lemma TopicDiversityExample()
    ensures TopicDiversity(0.5, "Mixed") == 0.6
    ensures TopicDiversity(0.5, "Aligned") == 0.5
  {
    assert (0.6 * 10000.0 + 0.5).Floor == 6000;
    assert (0.5 * 10000.0 + 0.5).Floor == 5000;
  }

  // ---------------------------------------------------------------- question style

  const StyleLongChallenging := "尖锐冗长型（带有质疑导向）"
  const StyleShortAdversarial := "简洁犀利型（带有对立导向）"
  const StyleConsensus := "客观中立型（带有共识导向）"
  const StyleExploratory := "全面详细型（带有探究导向）"
  const StyleBalanced := "简洁中立型（带有平衡导向）"

  /** `determine_question_style`: Counter splits at length 50, Aligned ignores the
      length, every other stance splits at 40. */
  function QuestionStyle(stance: string, avgQuestionLength: real): (style: string)
    ensures style == StyleLongChallenging <==> stance == "Counter" && avgQuestionLength > 50.0
    ensures style == StyleShortAdversarial <==> stance == "Counter" && avgQuestionLength <= 50.0
    ensures style == StyleConsensus <==> stance == "Aligned"
    ensures style == StyleExploratory <==> stance !in {"Counter", "Aligned"} && avgQuestionLength > 40.0
    ensures style == StyleBalanced <==> stance !in {"Counter", "Aligned"} && avgQuestionLength <= 40.0
  {
    if stance == "Counter" then
      (if avgQuestionLength > 50.0 then StyleLongChallenging else StyleShortAdversarial)
    else if stance == "Aligned" then StyleConsensus
    else if avgQuestionLength > 40.0 then StyleExploratory
    else StyleBalanced
  }

  // ---------------------------------------------------------------- topic preferences

  /** The four columns `extract_topic_preferences` examines; EI_3 and EI_5 are not among them. */
  function PreferenceColumns(row: Row): Weights {
    [("立法议题", row.ei1), ("政要表态", row.ei2), ("军事行动", row.ms1), ("军售援助", row.ms2)]
  }

  const DefaultPreferences: Weights := [("外交议题", 0.5), ("一般性询问", 0.5)]

  function TopicPreferences(row: Row): Weights {
    var kept := Above(PreferenceColumns(row), 0.1);
    if kept == [] then DefaultPreferences else kept
  }

  /** The filter over the four columns, written out. */
  lemma PreferencesUnfolded(row: Row)
    ensures Above(PreferenceColumns(row), 0.1)
         == (if row.ei1 > 0.1 then [("立法议题", row.ei1)] else [])
          + (if row.ei2 > 0.1 then [("政要表态", row.ei2)] else [])
          + (if row.ms1 > 0.1 then [("军事行动", row.ms1)] else [])
          + (if row.ms2 > 0.1 then [("军售援助", row.ms2)] else [])
  {
    var cols := PreferenceColumns(row);
    assert Above(cols[4..], 0.1) == [];
    assert Above(cols[3..], 0.1) == (if row.ms2 > 0.1 then [cols[3]] else []) by {
      assert cols[3..][1..] == cols[4..];
    }
    assert Above(cols[2..], 0.1) == (if row.ms1 > 0.1 then [cols[2]] else []) + Above(cols[3..], 0.1) by {
      assert cols[2..][1..] == cols[3..];
    }
    assert Above(cols[1..], 0.1) == (if row.ei2 > 0.1 then [cols[1]] else []) + Above(cols[2..], 0.1) by {
      assert cols[1..][1..] == cols[2..];
    }
  }

  /** `extract_topic_preferences`: one conditional insertion per column, then the default. */
  method ExtractTopicPreferences(row: Row) returns (topics: Weights)
    ensures topics == TopicPreferences(row)
  {
    topics := [];
    if row.ei1 > 0.1 {
      topics := topics + [("立法议题", row.ei1)];
    }
    if row.ei2 > 0.1 {
      topics := topics + [("政要表态", row.ei2)];
    }
    if row.ms1 > 0.1 {
      topics := topics + [("军事行动", row.ms1)];
    }
    if row.ms2 > 0.1 {
      topics := topics + [("军售援助", row.ms2)];
    }
    PreferencesUnfolded(row);
    if topics == [] {
      topics := DefaultPreferences;
    }
  }

  /** The preferences are never empty; a category is present exactly when its column
      exceeds 0.1, and then with that column's weight; the default pair appears
      exactly when no column qualifies. */
  lemma TopicPreferencesSpec(row: Row)
    ensures TopicPreferences(row) != []
    ensures ("立法议题", row.ei1) in TopicPreferences(row) <==> row.ei1 > 0.1
    ensures ("政要表态", row.ei2) in TopicPreferences(row) <==> row.ei2 > 0.1
    ensures ("军事行动", row.ms1) in TopicPreferences(row) <==> row.ms1 > 0.1
    ensures ("军售援助", row.ms2) in TopicPreferences(row) <==> row.ms2 > 0.1
    ensures forall e | e in TopicPreferences(row) && e !in DefaultPreferences :: e in PreferenceColumns(row)
    ensures TopicPreferences(row) == DefaultPreferences
        <==> row.ei1 <= 0.1 && row.ei2 <= 0.1 && row.ms1 <= 0.1 && row.ms2 <= 0.1
  {
    var cols := PreferenceColumns(row);
    AboveMembers(cols, 0.1);
    var kept := Above(cols, 0.1);
    if kept != [] {
      assert kept[0] in kept;
      assert kept[0].0 != "外交议题";
    }
  }

  // ---------------------------------------------------------------- focus priority

  /** The four (topic, weight) candidates of `determine_focus_priority`, in list order. */
  function FocusColumns(row: Row): Weights {
    [("外国政府涉台立法", row.ei1), ("外国政要涉台表态/访问", row.ei2),
     ("外国军舰军机穿越台海", row.ms1), ("对台军售/军事援助", row.ms2)]
  }

  const DefaultFocus: Weights := [("一般性台海议题", 0.5)]

  predicate SortedDescending(ws: Weights) {
    forall i, j | 0 <= i < j < |ws| :: ws[i].1 >= ws[j].1
  }

  /** The entries carrying weight `v`, in order. */
  function WithWeight(ws: Weights, v: real): Weights {
    if ws == [] then []
    else (if ws[0].1 == v then [ws[0]] else []) + WithWeight(ws[1..], v)
  }

  /** Places `x` before the first entry that does not outweigh it. */
  function Insert(x: (string, real), sorted: Weights): Weights {
    if sorted == [] || sorted[0].1 <= x.1 then [x] + sorted
    else [sorted[0]] + Insert(x, sorted[1..])
  }

  /** `list.sort(key=weight, reverse=True)`: a stable sort, heaviest first. */
  function SortDescending(ws: Weights): Weights {
    if ws == [] then [] else Insert(ws[0], SortDescending(ws[1..]))
  }

  lemma {:induction false} InsertPermutes(x: (string, real), sorted: Weights)
    ensures multiset(Insert(x, sorted)) == multiset(sorted) + multiset{x}
  {
    if sorted != [] && sorted[0].1 > x.1 {
      InsertPermutes(x, sorted[1..]);
      assert sorted == [sorted[0]] + sorted[1..];
    }
  }

  lemma {:induction false} InsertStable(x: (string, real), sorted: Weights, v: real)
    ensures WithWeight(Insert(x, sorted), v) == (if x.1 == v then [x] else []) + WithWeight(sorted, v)
  {
    var r := Insert(x, sorted);
    if sorted != [] && sorted[0].1 > x.1 {
      var rest := Insert(x, sorted[1..]);
      InsertStable(x, sorted[1..], v);
      assert r[0] == sorted[0] && r[1..] == rest;
      assert WithWeight(r, v) == (if sorted[0].1 == v then [sorted[0]] else []) + WithWeight(rest, v);
      assert WithWeight(sorted, v) == (if sorted[0].1 == v then [sorted[0]] else []) + WithWeight(sorted[1..], v);
      if x.1 == v {
        assert sorted[0].1 != v;
      }
    } else {
      assert r[0] == x && r[1..] == sorted;
    }
  }

  /** Inserting below a bound keeps every weight below it. */
  lemma {:induction false} InsertBounded(x: (string, real), s: Weights, w: real)
    requires x.1 <= w
    requires forall k | 0 <= k < |s| :: s[k].1 <= w
    ensures forall k | 0 <= k < |Insert(x, s)| :: Insert(x, s)[k].1 <= w
  {
    if s != [] && s[0].1 > x.1 {
      InsertBounded(x, s[1..], w);
      var rest := Insert(x, s[1..]);
      assert Insert(x, s) == [s[0]] + rest;
      forall k | 1 <= k < |Insert(x, s)| ensures Insert(x, s)[k].1 <= w {
        assert Insert(x, s)[k] == rest[k - 1];
      }
    } else {
      forall k | 1 <= k < |Insert(x, s)| ensures Insert(x, s)[k].1 <= w {
        assert Insert(x, s)[k] == s[k - 1];
      }
    }
  }

  lemma {:induction false} InsertSorted(x: (string, real), sorted: Weights)
    requires SortedDescending(sorted)
    ensures SortedDescending(Insert(x, sorted))
  {
    var r := Insert(x, sorted);
    if sorted != [] && sorted[0].1 > x.1 {
      var head := sorted[0];
      var tail := sorted[1..];
      assert SortedDescending(tail) by {
        forall i, j | 0 <= i < j < |tail| ensures tail[i].1 >= tail[j].1 {
          assert tail[i] == sorted[i + 1] && tail[j] == sorted[j + 1];
        }
      }
      InsertSorted(x, tail);
      forall k | 0 <= k < |tail| ensures tail[k].1 <= head.1 {
        assert tail[k] == sorted[k + 1];
      }
      InsertBounded(x, tail, head.1);
      var rest := Insert(x, tail);
      assert r == [head] + rest;
      forall i, j | 0 <= i < j < |r| ensures r[i].1 >= r[j].1 {
        assert r[j] == rest[j - 1];
        if i > 0 { assert r[i] == rest[i - 1]; }
      }
    } else {
      assert r == [x] + sorted;
      forall i, j | 0 <= i < j < |r| ensures r[i].1 >= r[j].1 {
        assert r[j] == sorted[j - 1];
        if i > 0 { assert r[i] == sorted[i - 1]; }
        else if j > 1 { assert sorted[0].1 >= sorted[j - 1].1; }
      }
    }
  }

  /** The sort yields a permutation ordered heaviest first in which entries of equal
      weight keep their original relative order. */
  lemma {:induction false} SortDescendingSpec(ws: Weights)
    ensures SortedDescending(SortDescending(ws))
    ensures multiset(SortDescending(ws)) == multiset(ws)
    ensures forall v :: WithWeight(SortDescending(ws), v) == WithWeight(ws, v)
  {
    if ws != [] {
      SortDescendingSpec(ws[1..]);
      InsertSorted(ws[0], SortDescending(ws[1..]));
      InsertPermutes(ws[0], SortDescending(ws[1..]));
      forall v ensures WithWeight(SortDescending(ws), v) == WithWeight(ws, v) {
        InsertStable(ws[0], SortDescending(ws[1..]), v);
      }
      assert ws == [ws[0]] + ws[1..];
    }
  }

  function RoundWeights(ws: Weights): (r: Weights)
    ensures |r| == |ws|
    ensures forall i | 0 <= i < |ws| :: r[i] == (ws[i].0, Round4(ws[i].1))
  {
    seq(|ws|, i requires 0 <= i < |ws| => (ws[i].0, Round4(ws[i].1)))
  }

  /** The positive candidates ranked heaviest first. */
  function RankedFocus(row: Row): Weights {
    SortDescending(Above(FocusColumns(row), 0.0))
  }

  function FocusPriority(row: Row): Weights {
    var top := Take(RankedFocus(row), 2);
    if top == [] then DefaultFocus else RoundWeights(top)
  }

  /** `determine_focus_priority`: collect the positive candidates, sort them, keep
      the first two with rounded weights, else the default. */
  method DetermineFocusPriority(row: Row) returns (focus: Weights)
    ensures focus == FocusPriority(row)
  {
    var topics := FocusColumns(row);
    var scores: Weights := [];
    for i := 0 to |topics|
      invariant scores == Above(topics[..i], 0.0)
    {
      AboveAppend(topics[..i], topics[i], 0.0);
      assert topics[..i + 1] == topics[..i] + [topics[i]];
      if topics[i].1 > 0.0 {
        scores := scores + [topics[i]];
      }
    }
    assert topics[..|topics|] == topics;
    scores := SortDescending(scores);
    var top := Take(scores, 2);
    focus := [];
    for i := 0 to |top|
      invariant focus == RoundWeights(top[..i])
    {
      focus := focus + [(top[i].0, Round4(top[i].1))];
    }
    assert top[..|top|] == top;
    if focus == [] {
      focus := DefaultFocus;
    }
  }

  /** The ranking is heaviest first, and candidates of equal weight keep list order. */
  lemma RankedFocusOrder(row: Row)
    ensures SortedDescending(RankedFocus(row))
    ensures forall v :: WithWeight(RankedFocus(row), v) == WithWeight(Above(FocusColumns(row), 0.0), v)
  {
    SortDescendingSpec(Above(FocusColumns(row), 0.0));
  }

  /** The ranking holds exactly the positive candidates. */
  lemma RankedFocusMembers(row: Row)
    ensures forall e :: e in RankedFocus(row) <==> e in FocusColumns(row) && e.1 > 0.0
    ensures RankedFocus(row) == [] <==> row.ei1 <= 0.0 && row.ei2 <= 0.0 && row.ms1 <= 0.0 && row.ms2 <= 0.0
  {
    var cols := FocusColumns(row);
    var positive := Above(cols, 0.0);
    var ranked := RankedFocus(row);
    SortDescendingSpec(positive);
    AboveMembers(cols, 0.0);
    forall e ensures e in ranked <==> e in positive {
      assert e in ranked <==> e in multiset(ranked);
      assert e in positive <==> e in multiset(positive);
    }
    if row.ei1 > 0.0 { assert cols[0] in positive; }
    if row.ei2 > 0.0 { assert cols[1] in positive; }
    if row.ms1 > 0.0 { assert cols[2] in positive; }
    if row.ms2 > 0.0 { assert cols[3] in positive; }
    if ranked != [] { assert ranked[0] in ranked; }
  }

  /** One or two entries; the default exactly when no candidate is positive;
      otherwise every entry is a positive candidate with its rounded weight, and
      the entries run heaviest first. */
  lemma FocusPrioritySpec(row: Row)
    ensures 1 <= |FocusPriority(row)| <= 2
    ensures FocusPriority(row) == DefaultFocus
        <==> row.ei1 <= 0.0 && row.ei2 <= 0.0 && row.ms1 <= 0.0 && row.ms2 <= 0.0
    ensures FocusPriority(row) != DefaultFocus ==>
      forall k | 0 <= k < |FocusPriority(row)| ::
        exists c | c in FocusColumns(row) :: c.1 > 0.0 && FocusPriority(row)[k] == (c.0, Round4(c.1))
    ensures SortedDescending(FocusPriority(row))
  {
    var ranked := RankedFocus(row);
    RankedFocusOrder(row);
    RankedFocusMembers(row);
    var top := Take(ranked, 2);
    var fp := FocusPriority(row);
    if top != [] {
      assert top[0] in ranked;
      assert fp[0].0 != "一般性台海议题";
      forall k | 0 <= k < |fp|
        ensures exists c | c in FocusColumns(row) :: c.1 > 0.0 && fp[k] == (c.0, Round4(c.1))
      {
        assert top[k] in ranked;
      }
      forall i, j | 0 <= i < j < |fp| ensures fp[i].1 >= fp[j].1 {
        Round4Monotone(top[j].1, top[i].1);
      }
    }
  }

  /** The two kept entries are the two heaviest: with two or more positive candidates
      exactly two are kept, and every ranked candidate left out weighs, once rounded,
      no more than each kept entry. */
  lemma FocusPriorityTopTwo(row: Row)
    ensures |Above(FocusColumns(row), 0.0)| >= 2 ==> |FocusPriority(row)| == 2
    ensures forall i, k | 2 <= i < |RankedFocus(row)| && 0 <= k < |FocusPriority(row)| ::
      Round4(RankedFocus(row)[i].1) <= FocusPriority(row)[k].1
  {
    var ranked := RankedFocus(row);
    SortDescendingSpec(Above(FocusColumns(row), 0.0));
    assert |ranked| == |multiset(ranked)| == |Above(FocusColumns(row), 0.0)|;
    var fp := FocusPriority(row);
    forall i, k | 2 <= i < |ranked| && 0 <= k < |fp| ensures Round4(ranked[i].1) <= fp[k].1 {
      assert fp[k] == (ranked[k].0, Round4(ranked[k].1));
      Round4Monotone(ranked[i].1, ranked[k].1);
    }
  }

  const FocusNames: set<string> :=
    {"外国政府涉台立法", "外国政要涉台表态/访问", "外国军舰军机穿越台海", "对台军售/军事援助", "一般性台海议题"}

  const PreferenceNames: set<string> := {"立法议题", "政要表态", "军事行动", "军售援助", "外交议题", "一般性询问"}

  /** Every key either mapping can hold is a candidate topic or a default key. */
  lemma KeysAreNamed(row: Row)
    ensures forall k | 0 <= k < |FocusPriority(row)| :: FocusPriority(row)[k].0 in FocusNames
    ensures forall k | 0 <= k < |TopicPreferences(row)| :: TopicPreferences(row)[k].0 in PreferenceNames
  {
    FocusPrioritySpec(row);
    var fp := FocusPriority(row);
    if fp != DefaultFocus {
      forall k | 0 <= k < |fp| ensures fp[k].0 in FocusNames {
        var c :| c in FocusColumns(row) && c.1 > 0.0 && fp[k] == (c.0, Round4(c.1));
      }
    }
    var kept := Above(PreferenceColumns(row), 0.1);
    AboveMembers(PreferenceColumns(row), 0.1);
    forall k | 0 <= k < |kept| ensures kept[k].0 in PreferenceNames {
      assert kept[k] in kept;
    }
  }

  // ---------------------------------------------------------------- the profile

  /** The six issue-distribution columns, in table order. */
  function IssueDistribution(row: Row): Weights {
    [("EI_1_外国政府涉台立法", row.ei1), ("EI_2_外国政要涉台表态或访问", row.ei2),
     ("EI_3_国际组织涉台表述", row.ei3), ("EI_5_外媒涉台报道争议", row.ei5),
     ("MS_1_外国军舰军机穿越台海", row.ms1), ("MS_2_对台军售或军事援助", row.ms2)]
  }

  /** The profile one row becomes. */
  function ProfileOf(row: Row): (p: Attributes) {
    var name := row.mediaName;
    var stance := StanceLabel(row);
    Attributes(
      Some(BasicInfo(
        Some(name),
        Some(Classification.Country(name)),
        Some(Classification.Classified(Classification.MediaTypeGroups, name, Classification.UnknownMediaType)),
        Some(Classification.Ownership(name)),
        Some(PoliticalStance(stance)),
        Some(Classification.Classified(Classification.LanguageGroups, name, Classification.UnknownLanguage)))),
      Some(IssueAnalysis(
        Some(row.totalQuestions), Some(row.counterCount), Some(row.alignedCount), Some(row.neutralCount),
        Some(row.counterRatio), Some(row.alignedRatio), Some(row.neutralRatio),
        Some(stance), Some(row.avgQuestionLength), Some(row.issueEntropy), Some(row.taiwanIssueRatio),
        Some(row.avgAlignedScore), Some(row.avgCounterScore), Some(row.avgNeutralScore),
        Some(IssueDistribution(row)))),
      Some(Performance(
        Some(row.mediaTotalQuestions), Some(row.mediaTaihaiQuestions), Some(row.taiwanQuestionRatio),
        Some(CoverageIntensity(row.mediaTaihaiQuestions, row.mediaTotalQuestions)),
        Some(TopicDiversity(row.issueEntropy, stance)))),
      Some(GenerationParameters(
        Some(QuestionStyle(stance, row.avgQuestionLength)),
        Some(FocusPriority(row)),
        Some(row.counterRatio), Some(row.alignedRatio), Some(row.neutralRatio),
        Some(row.avgAlignedScore),
        Some(TopicPreferences(row)))),
      None, None, None, None, None, None, None, None, None, None)
  }

  /** The body of the row loop: classify, derive, and assemble one profile. */
  method BuildProfile(row: Row) returns (p: Attributes)
    ensures p == ProfileOf(row)
  {
    var name := row.mediaName;
    var stance := StanceLabel(row);
    var mediaType := Classification.MediaType(name);
    var language := Classification.Language(name);
    var focus := DetermineFocusPriority(row);
    var preferences := ExtractTopicPreferences(row);
    p := Attributes(
      Some(BasicInfo(Some(name), Some(Classification.Country(name)), Some(mediaType),
                     Some(Classification.Ownership(name)), Some(PoliticalStance(stance)), Some(language))),
      Some(IssueAnalysis(
        Some(row.totalQuestions), Some(row.counterCount), Some(row.alignedCount), Some(row.neutralCount),
        Some(row.counterRatio), Some(row.alignedRatio), Some(row.neutralRatio),
        Some(stance), Some(row.avgQuestionLength), Some(row.issueEntropy), Some(row.taiwanIssueRatio),
        Some(row.avgAlignedScore), Some(row.avgCounterScore), Some(row.avgNeutralScore),
        Some(IssueDistribution(row)))),
      Some(Performance(
        Some(row.mediaTotalQuestions), Some(row.mediaTaihaiQuestions), Some(row.taiwanQuestionRatio),
        Some(CoverageIntensity(row.mediaTaihaiQuestions, row.mediaTotalQuestions)),
        Some(TopicDiversity(row.issueEntropy, stance)))),
      Some(GenerationParameters(
        Some(QuestionStyle(stance, row.avgQuestionLength)), Some(focus),
        Some(row.counterRatio), Some(row.alignedRatio), Some(row.neutralRatio),
        Some(row.avgAlignedScore), Some(preferences))),
      None, None, None, None, None, None, None, None, None, None);
  }

  // ---------------------------------------------------------------- the fold

  /** The (id, profile) assignment each row makes, in row order. */
  function Assignments(rows: seq<Row>): (ps: seq<(string, Attributes)>)
    ensures |ps| == |rows|
  {
    seq(|rows|, i requires 0 <= i < |rows| => (MediaId(rows[i].mediaName), ProfileOf(rows[i])))
  }

  /** `media_profiles[media_id] = ...` for every row in order. */
  function ProfileMap(rows: seq<Row>): OrderedMap.Entries<Attributes> {
    OrderedMap.FromPairs(Assignments(rows))
  }

  /** One more row is one more assignment. */
  lemma ProfileMapSnoc(rows: seq<Row>, row: Row)
    ensures ProfileMap(rows + [row]) == OrderedMap.Put(ProfileMap(rows), MediaId(row.mediaName), ProfileOf(row))
  {
    var ps := Assignments(rows + [row]);
    assert ps[..|rows|] == Assignments(rows);
  }

  /** The loop step: the first `i + 1` rows are the first `i` and one more. */
  lemma ProfileMapStep(rows: seq<Row>, i: nat)
    requires i < |rows|
    ensures ProfileMap(rows[..i + 1])
         == OrderedMap.Put(ProfileMap(rows[..i]), MediaId(rows[i].mediaName), ProfileOf(rows[i]))
  {
    assert rows[..i + 1] == rows[..i] + [rows[i]];
    ProfileMapSnoc(rows[..i], rows[i]);
  }

  /** The row loop of `convert_csv_to_json`. */
  method ConvertRows(rows: seq<Row>) returns (profiles: OrderedMap.Entries<Attributes>)
    ensures profiles == ProfileMap(rows)
  {
    profiles := [];
    for i := 0 to |rows|
      invariant profiles == ProfileMap(rows[..i])
    {
      ProfileMapStep(rows, i);
      var id := MediaId(rows[i].mediaName);
      var profile := BuildProfile(rows[i]);
      profiles := OrderedMap.Put(profiles, id, profile);
    }
    assert rows[..|rows|] == rows;
  }

  function Ids(rows: seq<Row>): set<string> {
    set r | r in rows :: MediaId(r.mediaName)
  }

  /** The ids are unique and are exactly the rows' ids, so there are as many
      profiles as distinct ids. */
  lemma ProfileMapKeys(rows: seq<Row>)
    ensures OrderedMap.UniqueKeys(ProfileMap(rows))
    ensures OrderedMap.KeySet(ProfileMap(rows)) == Ids(rows)
    ensures |ProfileMap(rows)| == |Ids(rows)|
  {
    var ps := Assignments(rows);
    OrderedMap.FromPairsKeys(ps);
    assert OrderedMap.PairKeys(ps) == Ids(rows) by {
      forall x | x in Ids(rows) ensures x in OrderedMap.PairKeys(ps) {
        var i :| 0 <= i < |rows| && MediaId(rows[i].mediaName) == x;
        assert ps[i].0 == x;
      }
    }
  }

  /** A row whose id no later row shares is the profile stored under that id:
      a later row with the same id overwrites an earlier one. */
  lemma ProfileMapLastWins(rows: seq<Row>, j: nat)
    requires j < |rows|
    requires forall j' | j < j' < |rows| :: MediaId(rows[j'].mediaName) != MediaId(rows[j].mediaName)
    ensures OrderedMap.Get(ProfileMap(rows), MediaId(rows[j].mediaName)) == Some(ProfileOf(rows[j]))
  {
    var ps := Assignments(rows);
    assert forall j' | j < j' < |ps| :: ps[j'].0 != ps[j].0;
    OrderedMap.FromPairsLast(ps, j);
  }
}
