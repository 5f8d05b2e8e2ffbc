# Press-conference agents: a verified model

This project models the core of a press-conference simulator. Simulated news media and
social-media users are "agents" who ask questions about a topic. The model has three parts:

- **Profile enrichment** (`agents_data/convert_media_data.py`). Each row of a media
  statistics table becomes a media profile. The id is derived from the media name. The
  stance label, political stance, country, ownership, media type and language are
  classified. The question style, focus priority and topic preferences are derived from
  the issue ratios. Later rows with the same id replace earlier ones.
- **Prompt helpers** (`prompts/templates.py`):
  - the media prompt, the user prompt and the simple media prompt;
  - the issue-focus description and the style description;
  - the recommended temperature, the intensity description and the platform style.

  A prompt is modelled as the record of every value it writes into its text, not as the
  text itself.
- **API orchestration** (`api_server.py`):
  - looking up a medium by id or fuzzy name;
  - turning a backend reply into text;
  - single generation, a streamed generation and a batch of generations;
  - the press-conference simulation, with its default line-up, its report and its event
    stream.

  The media and user directories are a class over insertion-ordered dictionaries. The
  language-model backend is an oracle: each call is given its reply as a parameter
  (`replies: nat -> BackendReply` for a loop of calls).

Modules, in dependency order:

| file | module | role |
|---|---|---|
| wrappers.dfy | Wrappers | `Option` and `Result` |
| text.dfy | Text | Python string operations: `lower`, `replace`, `strip`, `split`, `in`, slicing |
| ordered_map.dfy | OrderedMap | a Python `dict` as a sequence of key/value pairs in insertion order |
| profiles.dfy | Profiles | the profile sections, the `{**profile, **overrides}` merge, threshold filtering |
| classification.dfy | Classification | the lookup tables and keyword classifiers |
| enrichment.dfy | Enrichment | row to profile, and the conversion loop |
| templates.dfy | Templates | the prompt helpers |
| directory.dfy | Directory | the agent directory: lookup and default line-up |
| orchestrator.dfy | Orchestrator | backend text, generation, stream, batch, conference |

## Model

| member | source | states |
|---|---|---|
| Text.LowerChar | api_server.py:124 | a capital becomes the small letter at the same alphabet position, every other character is unchanged, and the result is never a capital |
| Text.LowerCharCaseOnly | api_server.py:124 | two characters lower to the same character exactly when they are equal or one is the other's capital, so distinct names such as "BBC" and "ABC" stay distinct |
| Text.Lower | api_server.py:124 | `lower()` keeps the length and lowers each character in place |
| Text.ReplaceChar | agents_data/convert_media_data.py:91 | `replace(a, b)` for one character keeps the length and swaps exactly the occurrences of `a` |
| Text.Without | api_server.py:124 | removing a set of characters keeps every other character and leaves none of the dropped ones |
| Text.LowerIdentity | api_server.py:124 | lowering a string with no ASCII capital changes nothing |
| Text.ReplaceIdentity | agents_data/convert_media_data.py:91 | replacing a character the string lacks changes nothing |
| Text.WithoutIdentity | api_server.py:124 | dropping characters the string lacks changes nothing |
| Text.LowerAppend | api_server.py:124 | lowering distributes over concatenation |
| Text.ReplaceAppend | agents_data/convert_media_data.py:91 | replacing one character by another distributes over concatenation |
| Text.WithoutAppend | api_server.py:124 | dropping characters distributes over concatenation, so the kept characters stay in order |
| Text.WithoutChar | api_server.py:124 | one character is kept exactly when it is not dropped |
| Text.EmptyIsContained | api_server.py:133 | the empty string occurs in every string (so an empty cleaned query matches every entry) |
| Text.TrimStart | api_server.py:398 | leading-whitespace removal never lengthens the string |
| Text.TrimEnd | api_server.py:398 | trailing-whitespace removal never lengthens the string |
| Text.TrimStartSpec | api_server.py:398 | the result is a suffix of the input, it does not start with whitespace, and everything removed is whitespace |
| Text.TrimEndSpec | api_server.py:398 | the result is a prefix of the input, it does not end with whitespace, and everything removed is whitespace |
| Text.Strip | api_server.py:398 | `strip()` never lengthens the string |
| Text.StripSpec | api_server.py:398 | `strip()` returns a slice of the input whose ends are not whitespace, and everything cut away is whitespace |
| Text.Split | api_server.py:188 | `split('\n')` yields at least one part, and no part contains the separator |
| Text.JoinSplit | api_server.py:188 | joining the parts of a split with the separator gives back the original string |
| Text.LastChars | api_server.py:195 | `s[-n:]` has length min(n, len) and is the tail of `s` |
| Text.Take | api_server.py:571 | `s[:n]` has length min(n, len) and is a prefix of `s` |
| OrderedMap.Keys | prompts/templates.py:330-331 | the keys of a dict, in insertion order, one per entry |
| OrderedMap.IndexOf | api_server.py:120 | the position of the first entry with the key, or the length when there is none |
| OrderedMap.Get | api_server.py:305-307 | a lookup succeeds exactly when the key is present, and returns a value stored under it |
| OrderedMap.IndexOfSameKeys | agents_data/convert_media_data.py:99 | a key's position depends only on the keys, not on the values |
| OrderedMap.PutSpec | agents_data/convert_media_data.py:99 | `d[k] = v` makes `k` map to `v` and leaves every other key's value alone; a new key goes last, an existing key keeps its place, and keys stay unique |
| OrderedMap.PutKeys | agents_data/convert_media_data.py:99 | an assignment keeps the keys, or appends the new key |
| OrderedMap.PutGetSame | agents_data/convert_media_data.py:99 | the assigned key reads the new value |
| OrderedMap.PutGetOther | agents_data/convert_media_data.py:99 | every other key reads as before |
| OrderedMap.PutKeySet | agents_data/convert_media_data.py:99 | the key set gains the assigned key |
| OrderedMap.PutUnique | agents_data/convert_media_data.py:99 | an assignment keeps keys unique |
| OrderedMap.GetUnique | api_server.py:337-340 | with unique keys, looking up an entry's key gives that entry's value |
| OrderedMap.UniqueKeysCount | agents_data/convert_media_data.py:99-157 | a dict with unique keys has as many entries as distinct keys |
| OrderedMap.PairKeysSnoc | agents_data/convert_media_data.py:99 | the keys of a sequence of assignments grow by the last key assigned |
| OrderedMap.FromPairsKeys | agents_data/convert_media_data.py:89-158 | replaying assignments gives a dict with unique keys, exactly the assigned keys, one entry per distinct key |
| OrderedMap.FromPairsLast | agents_data/convert_media_data.py:99 | after replaying assignments, a key holds the value of its last assignment |
| Profiles.Merge | api_server.py:326 | `{**profile, **overrides}`: no override gives back the profile, an empty profile gives the overrides |
| Profiles.MergePrecedence | api_server.py:326 | in `{**profile, **overrides}` each section the overrides give wins, and each section they omit comes from the profile |
| Profiles.MergeLaws | api_server.py:326 | merging the same overrides twice changes nothing, and merging overrides one after another equals merging them combined |
| Profiles.Above | prompts/templates.py:307-308 | keeping the entries above a threshold never adds entries |
| Profiles.AboveMembers | prompts/templates.py:307-308 | an entry is kept exactly when it is in the input and its weight exceeds the threshold |
| Profiles.AboveAppend | prompts/templates.py:307-308 | the filter works entry by entry, in order |
| Classification.Country | agents_data/convert_media_data.py:168-170 | a mapped name gets its table entry, and "未知" is returned exactly for an unmapped name |
| Classification.Ownership | agents_data/convert_media_data.py:224-226 | a mapped name gets its table entry, and "未知所有权" is returned exactly for an unmapped name |
| Classification.FirstMatchingGroup | agents_data/convert_media_data.py:208-219 | the index of the first keyword group whose keyword occurs in the name, with no earlier group matching |
| Classification.Classify | agents_data/convert_media_data.py:208-222 | the nested keyword loops return the category of the first matching group, or the fallback |
| Classification.ClassifiedIsFirstMatch | agents_data/convert_media_data.py:238-262 | for distinct categories, a category is returned exactly when its group is the first match, and the fallback exactly when no group matches |
| Classification.MediaType | agents_data/convert_media_data.py:199-222 | `determine_media_type` classifies by TV, news agency, newspaper and online keywords, in that order |
| Classification.Language | agents_data/convert_media_data.py:238-262 | `determine_language` classifies by Chinese, English, Japanese, Russian and French keywords, in that order |
| Classification.MediaTypePriority | agents_data/convert_media_data.py:208-210 | a name with a TV keyword is a broadcaster, whatever other keywords it contains |
| Classification.ExampleClassifications | agents_data/convert_media_data.py:238-262 | 《南华早报》 is classed as Chinese, and a name containing NHK as a broadcaster |
| Enrichment.MediaId | agents_data/convert_media_data.py:91 | a media id has no ASCII capital, no space and none of 《》（） |
| Enrichment.MediaIdIdempotent | agents_data/convert_media_data.py:91 | deriving an id from an id changes nothing |
| Enrichment.MediaIdAppend | agents_data/convert_media_data.py:91 | the id of a concatenation is the concatenation of the ids |
| Enrichment.MediaIdChar | agents_data/convert_media_data.py:91 | one character becomes "_" if it is a space, nothing if it is one of 《》（）, and its lower case otherwise |
| Enrichment.StanceFromRatios | agents_data/convert_media_data.py:172-179 | Counter exactly when the counter ratio exceeds 0.6; otherwise Aligned exactly when the aligned ratio does; Mixed otherwise |
| Enrichment.StanceLabel | agents_data/convert_media_data.py:93-96 | the row's own label when present, else the label derived from the ratios |
| Enrichment.PoliticalStance | agents_data/convert_media_data.py:228-236 | each of the three labels maps to its own description, and any other label maps to "未知立场" |
| Enrichment.Round4 | agents_data/convert_media_data.py:268 | rounding to 4 decimals moves a value by at most half a unit in the fourth decimal |
| Enrichment.Round4Monotone | agents_data/convert_media_data.py:268 | rounding preserves order |
| Enrichment.CoverageIntensity | agents_data/convert_media_data.py:264-268 | 0.0 when there are no questions, else the rounded share of Taiwan-related questions |
| Enrichment.TopicDiversity | agents_data/convert_media_data.py:270-276 | the entropy, weighted by 1.2 for a Mixed stance, rounded to 4 decimals |
| Enrichment.TopicDiversityExample | agents_data/convert_media_data.py:270-276 | entropy 0.5 gives 0.6 for Mixed and 0.5 for Aligned |
| Enrichment.QuestionStyle | agents_data/convert_media_data.py:278-291 | each of the five styles is returned exactly under its stance and length condition (both directions) |
| Enrichment.PreferencesUnfolded | agents_data/convert_media_data.py:181-197 | the preference columns above 0.1, in column order |
| Enrichment.ExtractTopicPreferences | agents_data/convert_media_data.py:181-197 | the column tests build the preference dict described by `TopicPreferences` |
| Enrichment.TopicPreferencesSpec | agents_data/convert_media_data.py:181-197 | never empty; each column appears exactly when it exceeds 0.1; the default pair appears exactly when none does |
| Enrichment.InsertPermutes | agents_data/convert_media_data.py:312 | an insertion step of the sort keeps the multiset of entries |
| Enrichment.InsertStable | agents_data/convert_media_data.py:312 | an insertion step keeps the relative order of entries with equal weight (the sort is stable) |
| Enrichment.InsertSorted | agents_data/convert_media_data.py:312 | an insertion step keeps the entries in descending order |
| Enrichment.SortDescendingSpec | agents_data/convert_media_data.py:312 | the descending sort is ordered, a permutation, and stable among equal weights |
| Enrichment.InsertBounded | agents_data/convert_media_data.py:312 | inserting an entry under a weight bound keeps every weight under it |
| Enrichment.RoundWeights | agents_data/convert_media_data.py:313-314 | each kept focus keeps its name and has its score rounded |
| Enrichment.DetermineFocusPriority | agents_data/convert_media_data.py:293-320 | the collect, sort and take-two loops build the focus described by `FocusPriority` |
| Enrichment.RankedFocusOrder | agents_data/convert_media_data.py:305-312 | the ranked focus is descending and, among equal scores, keeps column order |
| Enrichment.RankedFocusMembers | agents_data/convert_media_data.py:305-309 | exactly the columns with a positive score are ranked, and none is ranked exactly when all are non-positive |
| Enrichment.FocusPrioritySpec | agents_data/convert_media_data.py:293-320 | one or two entries, sorted descending; the default exactly when no score is positive; otherwise each entry is a positive column with its score rounded |
| Enrichment.FocusPriorityTopTwo | agents_data/convert_media_data.py:305-315 | the kept entries are the two heaviest: two positive scores or more give exactly two entries, and no ranked candidate left out outweighs a kept one |
| Enrichment.KeysAreNamed | agents_data/convert_media_data.py:293-320 | every focus key and every preference key comes from the fixed name lists |
| Enrichment.BuildProfile | agents_data/convert_media_data.py:99-157 | one row's profile, built section by section as described by `ProfileOf` |
| Enrichment.Assignments | agents_data/convert_media_data.py:89-158 | one id assignment per row, in row order |
| Enrichment.ProfileMapSnoc | agents_data/convert_media_data.py:89-158 | processing one more row assigns its profile under its id |
| Enrichment.ProfileMapStep | agents_data/convert_media_data.py:89-158 | the dict after the first `i + 1` rows is the dict after `i` rows with row `i` assigned |
| Enrichment.ConvertRows | agents_data/convert_media_data.py:89-158 | the conversion loop builds the dict of the rows' profiles |
| Enrichment.ProfileMapKeys | agents_data/convert_media_data.py:89-158 | the result has unique keys, exactly the rows' ids, one entry per distinct id |
| Enrichment.ProfileMapLastWins | agents_data/convert_media_data.py:99 | an id holds the profile of the last row with that id |
| Templates.CalculateRecommendedTemperature | prompts/templates.py:375-405 | the adjustments and the clamp give a temperature within [0.3, 0.9] |
| Templates.TemperatureRange | prompts/templates.py:375-405 | the result always lies in [0.6, 0.9], so the clamp never applies |
| Templates.TemperatureMonotone | prompts/templates.py:375-405 | more neutrality or challenge never lowers the temperature, and more consistency never raises it |
| Templates.TemperatureExample | prompts/templates.py:508-512 | 33.3% neutral, 66.7% consistent and 0% challenge give 0.7 |
| Templates.IntensityDescription | prompts/templates.py:408-416 | 较强 exactly above 0.7, 中等 exactly in (0.5, 0.7], 较弱 exactly at or below 0.5 |
| Templates.AttitudeBand | prompts/templates.py:177-188 | a numeric attitude falls into exactly one of five bands |
| Templates.AttitudeDescription | prompts/templates.py:172-188 | a missing attitude is 中立, a text attitude is kept, a numeric one is banded |
| Templates.PlatformStyle | prompts/templates.py:418-432 | a known platform gets its style, and the default style is returned exactly for an unknown one |
| Templates.BaseStyle | prompts/templates.py:346-354 | a mapped style gets its phrase, and any other style is kept as it is |
| Templates.ChallengeClause | prompts/templates.py:357-362 | each clause is returned exactly in its challenge range (above 70, (30, 70], at most 30) |
| Templates.StanceClause | prompts/templates.py:365-370 | Aligned and Counter each get their own clause, and every other label gets the balanced one |
| Templates.StyleDescription | prompts/templates.py:342-372 | the description is the base style, then the challenge band's clause right after it, then "，", then the stance clause at the end; an unmapped style passes through as its own text |
| Templates.JoinedLayout | prompts/templates.py:372 | in `x + y + sep + z` each piece sits at its own offsets, so the f-string's pieces can be read back out of the description |
| Templates.EnrichedStylesPassThrough | prompts/templates.py:346-354 | of the styles the enrichment step produces, only the Aligned one is mapped; the others pass through as their own text |
| Templates.IssueLabel | prompts/templates.py:310-323 | the short name of the first marker the key contains, or the key itself |
| Templates.ShareLines | prompts/templates.py:307-325 | one share line per distribution entry above 0.1 |
| Templates.ShareLinesAppend | prompts/templates.py:307-325 | the share loop works entry by entry, in order |
| Templates.BuildIssueFocusDescription | prompts/templates.py:300-339 | the two loops build the description given by `IssueFocus` |
| Templates.IssueFocusSpec | prompts/templates.py:300-339 | "no preference" exactly when no ratio exceeds 0.1 and there is no priority; otherwise one relabelled share line per kept entry, in order, then a priority line listing at most its first three keys |
| Templates.GetMediaPrompt | prompts/templates.py:8-149 | the prompt carries the topic; the context, or 常规新闻发布会 when it is empty; a 0.7x to 1.3x length window; and the first focus key, or 议题核心 |
| Templates.MediaPromptDefaults | prompts/templates.py:22-67 | with no attributes every value takes its documented default (a window of 70-130 characters, no issue preference) |
| Templates.OverrideReplacesSection | api_server.py:326 | overriding only the name replaces the whole basic-info section, so the other basic facts fall back to their defaults |
| Templates.MediaPromptOfEnrichedProfile | prompts/templates.py:131-132 | an enriched profile's prompt uses its own name, stance label, top focus and first preference, never a fallback |
| Templates.InterestsLine | prompts/templates.py:212 | the interests line is left out exactly when the interests are missing or empty |
| Templates.GetUserPrompt | prompts/templates.py:154-252 | the prompt carries the topic; the context, or 关于<topic>的新闻报道; the banded attitude; the platform's style; and a followers line only for a non-zero count |
| Templates.UserPromptDefaults | prompts/templates.py:168-176 | with no attributes every value takes its documented default |
| Templates.GetMediaPromptSimple | prompts/templates.py:257-298 | Aligned and Counter each get their own stance description and tone, and any other label the balanced pair |
| Templates.SimplePromptDefaults | prompts/templates.py:257-258 | the defaults are country 中国 and stance Aligned |
| Directory.CleanSpec | api_server.py:124 | a cleaned query has no capital letters, no 《, 》 or space, and keeps every other character |
| Directory.CleanAppend | api_server.py:124 | cleaning distributes over concatenation |
| Directory.CleanChar | api_server.py:124 | one character is dropped when it is 《, 》 or a space, and lowered otherwise |
| Directory.FirstHit | api_server.py:126-138 | the first entry that fuzzily matches, with no earlier entry matching |
| Directory.FindSpec | api_server.py:117-140 | an exact id wins; otherwise the result is the first fuzzy hit, and nothing is found exactly when no entry hits |
| Directory.NamelessEntryMatchesAnyQuery | api_server.py:127-134 | a profile without a name matches every query, because the empty cleaned name is contained in any query |
| Directory.EmptyQueryReturnsFirst | api_server.py:133 | an empty identifier finds the first profile |
| Directory.IdsClassified | api_server.py:564-569 | every collected id is an entry with the right stance, and the two lists share out all entries |
| Directory.DefaultLineUpSpec | api_server.py:559-571 | at most seven ids, all directory keys: the leading ones are Aligned ids and the rest are other ids |
| Directory.IdsPrefix | api_server.py:564-569 | the lists built from the first entries are prefixes of the lists of the whole directory |
| Directory.IdAtRank | api_server.py:564-569 | each entry's id sits in its list at the count of entries of its kind before it |
| Directory.RankIncreases | api_server.py:564-569 | an entry earlier in the directory comes earlier in its list |
| Directory.AlignedSource | api_server.py:564-569 | every place in the Aligned list is held by the Aligned entry of that rank |
| Directory.OtherSource | api_server.py:564-569 | every place in the other list is held by the other entry of that rank |
| Directory.AlignedCount | api_server.py:564-569 | the Aligned list has one id per Aligned entry and the other list one per remaining entry |
| Directory.LineUpSize | api_server.py:571 | the line-up has min(5, Aligned entries) + min(2, other entries) ids |
| Directory.LineUpOrder | api_server.py:559-571 | every Aligned entry with fewer than five Aligned entries before it is invited at its rank, and every other entry with fewer than two others before it is invited right after the Aligned ones, at its rank |
| Directory.LeadingRanks | api_server.py:564-569 | when the Aligned entries are exactly the first `p`, ranks count positions |
| Directory.FullLineUp | api_server.py:559-571 | eight Aligned media followed by three others give exactly the first five Aligned ids and then the first two others |
| Directory.AgentDirectory.constructor | api_server.py:114 | the directory holds the loaded media and user dicts |
| Directory.AgentDirectory.FindMedia | api_server.py:117-140 | the exact-key test and then the fuzzy loop return `Find`'s answer; in a directory with unique keys an exact id gives the profile of the one entry holding it |
| Directory.AgentDirectory.FindUser | api_server.py:337-340 | the user lookup succeeds exactly when the id is a key, with its profile; in a directory with unique keys that is the profile of the one entry holding the id |
| Directory.AgentDirectory.DefaultSelection | api_server.py:559-571 | the selection loop builds the default line-up |
| Directory.FirstHitIs | api_server.py:126-138 | the first hit is characterised by its two conditions |
| Directory.IndexOfIs | api_server.py:120 | a key's position is characterised by its two conditions |
| Orchestrator.LastAnswerIndex | api_server.py:189-192 | the last line that looks like an answer, with no later line qualifying |
| Orchestrator.Stripped | api_server.py:190 | each line is stripped, one for one |
| Orchestrator.ExtractTextSpec | api_server.py:179-197 | non-empty content is returned; otherwise a non-empty reasoning gives its last answer-like stripped line, or its last 200 characters when there is none; otherwise "" |
| Orchestrator.ExtractFinalAnswer | api_server.py:179-197 | the extraction branches give `ExtractText` |
| Orchestrator.AnswerFromReasoning | api_server.py:187-195 | the reverse line scan gives the reasoning's answer |
| Orchestrator.Deltas | api_server.py:213-217 | only non-empty delta contents are yielded |
| Orchestrator.ConcatAppend | api_server.py:378 | joining a split sequence of parts joins each half |
| Orchestrator.StreamTextsSpec | api_server.py:210-220 | every yielded piece is non-empty, and together they are the deltas' text followed by the 错误 notice when the stream breaks |
| Orchestrator.DeltasText | api_server.py:213-217 | the yielded deltas join to all the chunks' text |
| Orchestrator.CollectStream | api_server.py:210-220 | the stream loop yields `StreamTexts` |
| Orchestrator.ResolvePromptSpec | api_server.py:322-350 | a media agent resolves exactly when the lookup finds a non-empty profile, and its prompt is built from that profile merged with the request's attributes; a user agent resolves exactly when its id is a key, and its prompt is built from the stored profile merged with the request's attributes; a missing agent is the 404 and any other type is the 400 |
| Orchestrator.GenerateSpec | api_server.py:315-407 | success exactly when the agent resolves and the backend answers; it echoes the agent, strips the text, and applies the defaults 0.7, 300 and false |
| Orchestrator.GenerateAsWrittenLosesText | api_server.py:373-384 | for a resolvable agent and an answering backend, the code as written fails without streaming and gives empty content with it, while the corrected one returns the answer |
| Orchestrator.ResolveAgentPrompt | api_server.py:320-350 | the agent branches give `ResolvePrompt` |
| Orchestrator.ReadReply | api_server.py:179-202 | reading a reply that did not raise gives its text |
| Orchestrator.GenerateContent | api_server.py:315-416 | the handler gives the corrected `Generate` |
| Orchestrator.ContentEvents | api_server.py:477-479 | one content event per piece, each non-empty |
| Orchestrator.ContentTextAppend | api_server.py:477-479 | the content of a joined event sequence is the joined content |
| Orchestrator.ContentEventsText | api_server.py:477-479 | the content events carry the pieces' text, in order |
| Orchestrator.StreamEventsSpec | api_server.py:419-503 | success exactly when the agent resolves and the backend answers, and otherwise a 500; a stream opens with start, ends with end, carries only non-empty content events and never an error event, and its content is the reply's text |
| Orchestrator.EventsOfSpec | api_server.py:471-486 | a stream opens with start and closes with end, with only content in between, and its content is the joined pieces |
| Orchestrator.StreamAsWrittenIsEmpty | api_server.py:471-486 | as written, every successful stream is just start and end, while the corrected stream carries the reply's text |
| Orchestrator.GenerateEvents | api_server.py:471-486 | the event loop gives `EventsOf` |
| Orchestrator.Outcomes | api_server.py:512-534 | one outcome per request |
| Orchestrator.TallyAccounts | api_server.py:512-538 | results and errors add up to the requests, and each outcome is recorded where it belongs |
| Orchestrator.TallyPrefix | api_server.py:512-534 | the tally of a prefix is a prefix of the tally |
| Orchestrator.BatchAccounts | api_server.py:506-545 | success and error counts add up to the number of requests, and each request's own outcome is recorded, whatever the others did |
| Orchestrator.BatchPrefix | api_server.py:512-534 | later requests only append, so order is kept and no request disturbs an earlier one |
| Orchestrator.BatchGenerate | api_server.py:506-545 | the batch loop gives `Batch` |
| Orchestrator.QuestionsSpec | api_server.py:622-653 | one entry per known invited id, in invitation order, each naming that id; entry `j` is the generation of the `j`-th known id when it succeeds, and otherwise a placeholder with that id, its error and empty content |
| Orchestrator.KnownPositionsSpec | api_server.py:624-625 | the positions of the known ids run in increasing order, cover every invited id the directory knows, and hold the known ids in order |
| Orchestrator.AgentEventsSpec | api_server.py:581-609 | a known medium's block opens with media_start at its index, then has either the question and media_end or the error; an unknown id yields nothing |
| Orchestrator.AgentEventsOpeners | api_server.py:581-585 | a block holds one media_start, for its own id, exactly when the id is known |
| Orchestrator.NoOpeners | api_server.py:585 | a sequence without media_start events opens nothing |
| Orchestrator.AllAgentEventsSpec | api_server.py:578-609 | exactly the known ids open blocks, in invitation order, and no conference-level event appears inside |
| Orchestrator.OpenersAppend | api_server.py:585 | the openers of joined events are the joined openers |
| Orchestrator.ConferenceEventsSpec | api_server.py:575-611 | the conference stream announces the count of all invited ids, is bracketed by start and the closing message, and opens one block per known id, in order |
| Orchestrator.ConferenceSpec | api_server.py:548-657 | an error exactly for an empty topic; the report counts one entry per known id, in order, and its entries are the non-stream questions of the line-up; the stream is the conference event sequence of the line-up; the outcome streams exactly when asked |
| Orchestrator.AskAll | api_server.py:622-653 | the non-stream loop gives `Questions` |
| Orchestrator.StreamConference | api_server.py:575-611 | the stream loop gives `ConferenceEvents` |
| Orchestrator.SimulatePressConference | api_server.py:548-657 | the handler gives `Conference` |

## Left out

- The HTTP layer (FastAPI routes, request validation, CORS and JSON responses) is not modelled. `HTTPException` is modelled as a structured `Failure` (status, detail, wrapping prefix) rather than its rendered string.
- The language-model SDK call is not modelled. Its reply is a parameter: a completion with content and reasoning, a stream of chunks (possibly interrupted), an unparseable response, or a raised error. The model name, the thinking switch and `STREAM_ENABLED` are configuration and are not modelled.
- The message lists sent to the backend are not modelled. This covers the prompt sent as both system and user message, and the fixed system line of the stream endpoint. The returned `prompt_length` is represented by the prompt record itself; `tokens_used` is not modelled.
- Prompt text is not rendered. The prompts are records of the values they interpolate, and number formatting (`:.2f`, `:.1f`) is not modelled.
- Logging, `asyncio.sleep`, file and CSV/JSON I/O, `load_agent_data`, `get_all_media`, `/health`, `/stats`, `/model-info`, `/` and the module's test functions are left out. They are I/O or presentation.
- Profiles are typed records with optional sections. A value of an unexpected JSON type (for example a string where a number is read) and an `attributes` of `None` are not modelled. A profile that is an empty dict is `NoAttributes`.
- Enrichment.Round4: rounds half up on exact reals. Python's `round` rounds half to even on binary floats, so ties and float error are not modelled.
- Text.Lower: lowers ASCII letters only. Python's `lower()` also folds non-ASCII capitals, and the source's media names are Chinese.
- Text.Strip: its ensures states only the length bound. The slice and whitespace facts are in `Text.StripSpec`, kept apart so the heavily used function stays cheap to reason about.
- Text.TrimStart: its ensures states only the length bound; the facts are in `Text.TrimStartSpec`.
- Text.TrimEnd: its ensures states only the length bound; the facts are in `Text.TrimEndSpec`.
- Orchestrator.ReadReply: a streamed reply read by `generate_with_zhipuai` is taken to carry the text of its chunks. The SDK object's own `model_dump` behaviour is not visible here.
- Orchestrator.GenerateContent: the handler's catch-all that turns non-HTTP exceptions into "服务器错误" (api_server.py:414-416) is not modelled. The malformed-reply error (api_server.py:384) and the backend's wrapped failure (api_server.py:203-205) are `HTTPException`s, which api_server.py:412-413 re-raises unchanged, and both are modelled. What reaches the catch-all is `{**profile, **None}` for an `attributes` of `None`, and a wrongly typed attribute value that breaks prompt building; typed profiles exclude both.
- Orchestrator.Conference: the catch-all that re-raises the 400 for an empty topic as a 500 is modelled as written. The wrapped detail string is not rendered.
- Null message content from the backend is treated as the empty string.
- Enrichment.ConvertRows: a `Row` holds already parsed cells. In the source an empty count cell is NaN, `int()` of NaN raises, and so does `.lower()` on an empty name cell; either aborts the whole conversion. An empty ratio cell becomes NaN through `float()` and flows into the comparisons; NaN is not modelled.

## Findings

| source | as written | input that shows it | evidently intended | confidence | as-written member | corrected member |
|---|---|---|---|---|---|---|
| api_server.py:373-384 | `generate_with_zhipuai` returns a plain string, but `generate_content` reads `response.choices` from it when not streaming and raises "AI API返回格式异常". When streaming, it iterates the string's characters, none of which has `choices`, so the content is "" | any resolvable agent with `stream` false or missing, and a backend that answers "Hello from the model" | the generation carries the returned text, stripped | high, not executed | Orchestrator.GenerateAsWrittenLosesText | Orchestrator.GenerateSpec |
| api_server.py:471-486 | `stream_generate_content` passes the returned string to `stream_response_generator`, which yields nothing for it, so every successful stream is `start` followed by `end` with no content | any resolvable agent and any backend reply that does not raise | the content events carry the reply's text | high, not executed | Orchestrator.StreamAsWrittenIsEmpty | Orchestrator.StreamEventsSpec |

The batch and the conference call `generate_content` without streaming. As written, every batch item and conference question whose agent resolves and whose backend call does not raise therefore fails with the malformed-reply error. An item whose agent is unknown fails with its 404 first, and a raising backend fails with the wrapped "AI API调用失败" error first. The model of both uses the corrected generation.
