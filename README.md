# weibo-hot-analysis, modelled in Dafny

weibo-hot-analysis is made of three Python scripts. Each takes the Weibo hot-search list, makes up a product idea for every topic and writes an HTML report.

- **weibo_hot_analyzer.py** holds the rule engine.
  - A keyword classifier gives each topic a category.
  - Per-category templates fill in the idea: product name, core features, pain points, target users, innovation points and market potential.
  - A rubric of six random sub-scores gives the interest, utility and total scores.
  - Two timeline builders write a paragraph and a cause / development / impact triple from the search titles or the topic.
  - The report is sorted by total, counted into three score buckets and saved under the next free sequence number of the day.
- **weibo_analyzer_v2.py** asks a Zhipu model for the same analysis. It strips a Markdown code fence from the reply and recomputes the totals. On any failure it falls back to a rule engine of its own. Its report repeats the v1 sort, buckets and file numbering.
- **weibo_analyzer_sdk.py** asks a Claude model. It builds a numbered context from the search titles and falls back to the v1 rule engine. A module-level dispatch decides whether the model is asked at all.

The Dafny model has one module per concern:

| module | what it holds |
|---|---|
| `Wrappers` | `Option` |
| `Text` | the string operations the scripts use: `startswith`, `in`, slicing, `strip`, `split`, `join`, `re.findall` for digits, `str(int)` and back |
| `Scoring` | the rubric |
| `Idea` | the search hit and analysis records, and the template shapes |
| `Classifier` | the classifier |
| `Synthesizer` | the v1 templates and `mock_ai_analysis` |
| `Timeline` | both timeline builders |
| `Report` | sort, buckets, file number and the card data of the v1 report |
| `LlmReply` | fence stripping, acceptance of a parsed reply and recomputation of the totals, shared by both model-backed analyzers |
| `ZhipuAnalyzer` | weibo_analyzer_v2.py |
| `ClaudeSdk` | weibo_analyzer_sdk.py |

Most members are pure functions. They are written as `method`s with loop invariants where the source builds its result step by step: the `key_info` loops, `parts`, the file-number loop, the context `+=` loop, the card loop and the five reassignments of `result_text`. Each such method is proved equal to the function that specifies it.

Everything the scripts get from outside is an input of the model:

- the network, the LLM call and `json.loads`;
- the environment variables, the clock and the directory listing;
- the PRNG.

In detail:

- The reply is `Reply = CallFailed | Replied(text)`.
- The JSON parser is a function parameter `string -> Option<ParsedReply>`. `None` stands for a `JSONDecodeError`, and a missing key is an `Option` field.
- The six raw PRNG outputs are a `Draws` value. `random.randint(lo, hi)` maps a raw output into `lo..hi`, and a lemma shows every value of the range can be drawn.
- The date is an all-digits string, and the directory is the list of its file names.

Two consequences of the code:

- The sub-score ranges give an interest score in [45, 80] and a total in [55, 100] (15 + 15 + 10 + 5 = 45), so a mock topic can land in the "average" bucket (`Scoring.DerivedBounds`).
- The fallback has type 综合资讯 but theme 热点追踪, so `type == theme` holds only when a keyword matched (`Classifier.TypeIsTheme`).

## Model

| member | source | states |
|---|---|---|
| Classifier.AnalyzeTopicKeywords | weibo_hot_analyzer.py:177-211 | the type is the name of the category the two passes settle on; the theme is the same name, except for the fallback 综合资讯, whose theme is 热点追踪 |
| Classifier.ClassifyExact | weibo_hot_analyzer.py:197-202 | a topic that equals a keyword of theme k, and of no earlier theme, is classified under k, whatever keywords of earlier themes occur inside it |
| Classifier.ClassifyFirstHit | weibo_hot_analyzer.py:204-209 | with no exact match, the first theme in table order that has a keyword occurring in the topic wins |
| Classifier.FirstExactFinds | weibo_hot_analyzer.py:198-202 | the exact pass returns the first theme, in table order, that the topic equals a keyword of |
| Classifier.FirstExactNone | weibo_hot_analyzer.py:198-202 | the exact pass finds nothing if and only if the topic equals no keyword of the remaining themes |
| Classifier.FirstHitFinds | weibo_hot_analyzer.py:205-209 | the substring pass returns the first theme, in table order, with a keyword inside the topic |
| Classifier.ClassifyGeneral | weibo_hot_analyzer.py:193-211 | the topic is classified 综合资讯 if and only if no keyword of any theme occurs in it |
| Classifier.FirstHitNone | weibo_hot_analyzer.py:205-209 | the substring pass finds nothing exactly when no remaining theme has a keyword inside the topic |
| Classifier.TypeIsTheme | weibo_hot_analyzer.py:193-211 | type and theme are equal if and only if some keyword matched |
| Classifier.LaunchEventIsAutomotive | weibo_hot_analyzer.py:186-188 | "发布会" is classified 汽车 by the exact pass, although the earlier 科技数码 keyword "发布" occurs in it |
| Classifier.KeywordsNotLowercase | weibo_hot_analyzer.py:182-189 | no keyword of the table begins with a lower-case ASCII letter |
| Classifier.LowercaseIsGeneral | weibo_hot_analyzer.py:179-209 | matching is case-sensitive: a topic of lower-case ASCII letters matches no keyword and is classified 综合资讯 (the lower-cased copy is never read) |
| Classifier.UppercaseAiIsTech | weibo_hot_analyzer.py:185 | "AI" is classified 科技数码 and "ai" is classified 综合资讯 |
| Scoring.RandInt | weibo_hot_analyzer.py:433-442 | each draw lies in its inclusive range |
| Scoring.RandIntOnto | weibo_hot_analyzer.py:433-442 | every value of the range is reachable by some raw output |
| Scoring.CalculateScores | weibo_hot_analyzer.py:427-456 | the six sub-scores lie in their ranges; interest is the sum of the first four, utility the sum of the last two and total their sum; interest is in [45,80], utility in [10,20] and total in [55,100] |
| Scoring.DerivedBounds | weibo_hot_analyzer.py:434-445 | any in-range, consistent score set has interest in [45,80], utility in [10,20] and total in [55,100] |
| Scoring.CalculateScoresOnto | weibo_hot_analyzer.py:427-456 | conversely, every in-range consistent score set is what some six draws produce |
| Idea.Mention | weibo_hot_analyzer.py:232-236 | a template line `pre + "'" + topic + "'" + post` starts with pre, ends with post and contains the quoted topic at index |pre| |
| Idea.MentionInjective | weibo_hot_analyzer.py:232-236 | two template lines from the same template are equal only if they were filled with the same topic |
| Idea.SplitFeature | weibo_hot_analyzer.py:588-593 | the split at the first " - " succeeds if and only if the feature contains " - "; title + " - " + rest rebuilds the feature, and the title holds no earlier " - " |
| Idea.FeatureSplits | weibo_hot_analyzer.py:588-593 | round trip: a feature line whose title has no space splits back into exactly its title and description |
| Synthesizer.ProductName | weibo_hot_analyzer.py:213-226 | the name is 「the first six characters of the topic」 (eight for 综合资讯) followed by the category's kind, and has exactly that length |
| Synthesizer.ProductNameDistinct | weibo_hot_analyzer.py:215-226 | two different categories never give one topic the same product name |
| Synthesizer.ProductNameQuotesShortTopic | weibo_hot_analyzer.py:215-226 | a topic of at most six characters appears whole between the brackets |
| Synthesizer.CoreFeatures | weibo_hot_analyzer.py:228-295 | five core features, the first of which names the quoted topic (every templated entry interpolated) |
| Synthesizer.CoreFeaturesAsWritten | weibo_hot_analyzer.py:228-295 | the features as written agree with the interpolated ones everywhere except the two entries at lines 243 and 291 |
| Synthesizer.UnformattedEntertainmentFeature | weibo_hot_analyzer.py:243 | as written, the fifth 娱乐影视 feature of every topic is the line of the topic "{topic}", and differs from the intended line for any other topic |
| Synthesizer.UnformattedGeneralFeature | weibo_hot_analyzer.py:291 | likewise the second 综合资讯 feature |
| Synthesizer.CoreFeaturesNameTopic | weibo_hot_analyzer.py:243 | corrected, those two entries contain the quoted topic |
| Synthesizer.FeatureTitlesUnspaced | weibo_hot_analyzer.py:230-288 | no feature title of any category contains a space |
| Synthesizer.CoreFeaturesSplit | weibo_hot_analyzer.py:590-592 | each core feature splits in the report into exactly its title and its description |
| Synthesizer.PainPoints | weibo_hot_analyzer.py:297-364 | five pain points, the first naming the quoted topic |
| Synthesizer.TargetUsers | weibo_hot_analyzer.py:366-379 | the target-user sentence names the quoted topic in every category and in the fallback |
| Synthesizer.InnovationPoints | weibo_hot_analyzer.py:381-389 | five innovation points, the first naming the quoted topic |
| Synthesizer.MarketPotentialOf | weibo_hot_analyzer.py:391-398 | the market size names the quoted topic and the competitive advantage names the bare topic |
| Synthesizer.MockAiAnalysis | weibo_hot_analyzer.py:155-175 | every field comes from its generator for the category the classifier chose: the name, core features, pain points and target users of that category, the event timeline built from the topic and its search results, the innovation points and market potential of the topic, and the scores of the six draws; hence a bracketed name, five features, pain points and innovation points naming the quoted topic, a timeline opening with it, and in-range consistent scores with total in [55,100] |
| Timeline.CleanTitle | weibo_hot_analyzer.py:471 | the cleaned title is a prefix of the title with no `_`, `-` or `|`, and is cut exactly at the first of them |
| Timeline.EarlySeparatorDropped | weibo_hot_analyzer.py:471-472 | a title with a separator among its first eleven characters never survives the event filter |
| Timeline.EventKeysConcat | weibo_hot_analyzer.py:467-473 | the surviving titles of a concatenation are the survivors of each part, in order (a filter-and-map) |
| Timeline.EventKeysOne | weibo_hot_analyzer.py:468-473 | one search hit contributes its stripped, cleaned title if and only if the title passes the event filter |
| Timeline.KeepEventTitle | weibo_hot_analyzer.py:469-473 | one loop step appends the stripped, cleaned title exactly when the title is non-empty and 10 < len < 80 once cleaned |
| Timeline.CollectEventKeys | weibo_hot_analyzer.py:466-473 | the `key_info` loop collects exactly the stripped, cleaned titles of the first five hits that are non-empty and 10 < len < 80 once cleaned |
| Timeline.BuildParts | weibo_hot_analyzer.py:483-502 | the four appended sentences are those of the context-mode specification |
| Timeline.ContextText | weibo_hot_analyzer.py:504 | the joined context paragraph begins with the quoted topic |
| Timeline.ContextTimeline | weibo_hot_analyzer.py:507-511 | after the length control the paragraph still begins with the quoted topic and is at most 100 characters, or at most the topic's length plus 42 |
| Timeline.KeywordSentence | weibo_hot_analyzer.py:520-546 | every keyword-mode sentence after the quoted topic is at most 42 characters |
| Timeline.KeywordTimeline | weibo_hot_analyzer.py:520-546 | keyword mode begins with the quoted topic |
| Timeline.EventTimeline | weibo_hot_analyzer.py:458-546 | every event timeline begins with the quoted topic |
| Timeline.EventTimelineFewTitles | weibo_hot_analyzer.py:476 | with fewer than two surviving titles the search results count for nothing: the result is that of keyword mode |
| Timeline.EventTimelineFirstFive | weibo_hot_analyzer.py:467 | results after the fifth do not change the timeline |
| Timeline.LaunchEventBeforeCarGroup | weibo_hot_analyzer.py:526-541 | a topic containing "发布会" hits the launch group, which is checked before the car group that also lists it |
| Timeline.LaunchExample | weibo_hot_analyzer.py:520-527 | "新品发布会" gets the launch sentence |
| Timeline.GenerateEventTimeline | weibo_hot_analyzer.py:458-546 | the step-by-step builder returns exactly the specified event timeline |
| Timeline.Capped | weibo_hot_analyzer.py:1078-1082 | a clause cut with `[:100]` is at most 100 characters, is a prefix of the clause, and is the clause itself when that is short enough |
| Timeline.KeepStageTitle | weibo_hot_analyzer.py:1065-1070 | one loop step appends the cleaned, stripped title exactly when the title is over 10 long and 8 < len < 60 once cleaned |
| Timeline.CollectStageKeys | weibo_hot_analyzer.py:1063-1070 | the loop collects exactly the specified titles of the first five hits |
| Timeline.ContextStageUncut | weibo_hot_analyzer.py:1073-1082 | in context mode no clause is cut: each names its title's first 40 or 30 characters in full |
| Timeline.FirstBrand | weibo_hot_analyzer.py:1091 | `re.search` gives `None` exactly when no brand occurs at any position, and otherwise a brand that occurs in the topic |
| Timeline.FirstBrandLeftmost | weibo_hot_analyzer.py:1091 | `re.search` returns the leftmost match: when q is the first position where any brand occurs, the result is the brand the alternation takes at q |
| Timeline.BrandAt | weibo_hot_analyzer.py:1091 | at one position the alternation gives a brand occurring there, and nothing only when no brand does |
| Timeline.BrandAtFirst | weibo_hot_analyzer.py:1091 | at one position the alternation takes the first brand, in pattern order, that occurs there |
| Timeline.PriceStage | weibo_hot_analyzer.py:1088-1107 | the pricing group's three clauses are at most 100 characters |
| Timeline.StarStage | weibo_hot_analyzer.py:1110-1126 | the entertainment group's clauses are at most 100 characters |
| Timeline.GameStage | weibo_hot_analyzer.py:1129-1144 | the game group's clauses are at most 100 characters |
| Timeline.TechStage | weibo_hot_analyzer.py:1147-1161 | the technology group's clauses are at most 100 characters |
| Timeline.IncidentStage | weibo_hot_analyzer.py:1164-1176 | the incident group's clauses are at most 100 characters |
| Timeline.DefaultStage | weibo_hot_analyzer.py:1195-1208 | the catch-all's clauses are at most 100 characters |
| Timeline.StageByKeyword | weibo_hot_analyzer.py:1088-1208 | every keyword branch, the car and festival groups included, returns clauses of at most 100 characters |
| Timeline.ThreeStageTimeline | weibo_hot_analyzer.py:1057-1208 | every cause, develop and impact returned, on every branch, is at most 100 characters |
| Timeline.ThreeStageFewTitles | weibo_hot_analyzer.py:1073 | with fewer than two surviving titles the triple comes from the topic alone |
| Timeline.ThreeStageFromTitles | weibo_hot_analyzer.py:1073-1074 | with two or more, the cause is the first title's first 40 characters followed by "成为关注焦点", whatever the topic |
| Timeline.PriceGapNamesBoth | weibo_hot_analyzer.py:1096 | the price-gap clause contains both numbers, each followed by "元" |
| Timeline.PriceStageGap | weibo_hot_analyzer.py:1094-1097 | with "羽绒服" and two numbers, `develop` is the price-gap sentence built from the first two numbers, uncut |
| Timeline.PricingNamesNumbers | weibo_hot_analyzer.py:1088-1097 | a topic with "羽绒服" and two numbers puts the first and second number, each followed by "元", into `develop` |
| Timeline.ExampleNumbers | weibo_hot_analyzer.py:1090 | `re.findall(r'\d+\.?\d*', "胖东来羽绒服599元进价199元")` is ["599", "199"] |
| Timeline.ExampleEntity | weibo_hot_analyzer.py:1091-1092 | the brand found in that topic is 胖东来 |
| Timeline.PricingExample | weibo_hot_analyzer.py:1088-1107 | for "胖东来羽绒服599元进价199元" the whole triple is determined, and `develop` contains "599元" and "199元" |
| Timeline.GenerateThreeStageTimeline | weibo_hot_analyzer.py:1057-1082 | the step-by-step builder returns exactly the specified triple |
| Text.StripExact | weibo_hot_analyzer.py:473 | `str.strip()` removes the leading and the trailing whitespace and nothing else: the string is its leading whitespace, then the result, then whitespace, and the result neither begins nor ends with whitespace |
| Text.BeforeFirst | weibo_hot_analyzer.py:471 | `s.split(c)[0]` is a prefix of s without c, cut exactly at the first c |
| Text.FindNumbersExact | weibo_hot_analyzer.py:1090 | `re.findall(r'\d+\.?\d*')` finds nothing if and only if the text holds no digit; every element is the whole maximal match at a digit that does not continue an earlier digit run |
| Text.NatToStringRoundTrip | weibo_hot_analyzer.py:584 | `int(str(n)) == n` |
| Report.InsertSorted | weibo_hot_analyzer.py:604-608 | inserting into a descending sequence keeps it descending |
| Report.InsertPermutes | weibo_hot_analyzer.py:604-608 | inserting adds exactly the one row to the multiset of rows |
| Report.SortByTotalCorrect | weibo_hot_analyzer.py:604-608 | the report order is sorted by total, descending, is a permutation of the input, and is stable: for every total, the rows with that total keep their input order |
| Report.BucketOf | weibo_hot_analyzer.py:611-613 | excellent if and only if total >= 80, good if and only if 60 <= total < 80, average if and only if total < 60 |
| Report.BucketsPartition | weibo_hot_analyzer.py:611-613 | excellent + good + average equals the number of topics |
| Report.CountSorted | weibo_hot_analyzer.py:611-613 | counting over the sorted topics gives the counts of the input |
| Report.SortedReportFacts | weibo_hot_analyzer.py:604-613 | the sorted topics are descending, as many as the input, with the input's bucket counts, which sum to the topic count |
| Report.SearchFrom | weibo_hot_analyzer.py:582 | `re.search` returns a match at some position, and gives nothing only when no position matches |
| Report.Max | weibo_hot_analyzer.py:585 | `max` is an element at least as large as every element |
| Report.NextNumber | weibo_hot_analyzer.py:570-586 | the next number is 1 when no existing name parses, is greater than every parsed suffix, and is otherwise one past one of them |
| Report.NextFileNumber | weibo_hot_analyzer.py:570-586 | the loop over the file names computes exactly that number |
| Report.FileNameParses | weibo_hot_analyzer.py:582 | round trip: a report's own file name matches the glob and the pattern, and parses back to its number |
| Report.NextFileNameFresh | weibo_hot_analyzer.py:1055 | the new report's name is not among the day's existing file names |
| Report.CardTimelineAsWritten | weibo_hot_analyzer.py:957 | as written, the card timeline is always the keyword triple of the topic |
| Report.CardTimelineIgnoresResults | weibo_hot_analyzer.py:957 | a row with at least two usable titles still gets the keyword triple as written, whereas the corrected card opens with its first title |
| Report.CardTimeline | weibo_hot_analyzer.py:957 | corrected: the card's triple is built from the row's search results, every clause at most 100 characters |
| Report.CardOf | weibo_hot_analyzer.py:944-1041 | the card shows the row's topic, rank and total; heat is shown if and only if the hot score is positive; its timeline is the corrected one |
| Report.BuildCards | weibo_hot_analyzer.py:944-1042 | one card per sorted row, in order |
| Report.GenerateHtmlReport | weibo_hot_analyzer.py:595-1055 | file name with the next number, distinct from every existing name; one card per topic in descending order of total; bucket counts equal to those of the input and summing to the topic count |
| LlmReply.FenceTests | weibo_analyzer_v2.py:266-271 | the character-wise fence tests are exactly `startswith("```")`, `startswith("```json")` and `endswith("```")` |
| LlmReply.StripCodeFence | weibo_analyzer_v2.py:266-272 | the five reassignments of `result_text` yield the text between the fences, stripped |
| LlmReply.FenceRoundTrip | weibo_analyzer_v2.py:266-272 | a payload P not starting with "```", wrapped as "```json" + P + "```", comes back as strip(P); weibo_analyzer_sdk.py:172-178 is the same code |
| LlmReply.PlainFenceRoundTrip | weibo_analyzer_v2.py:268-271 | the same for a bare "```" fence, for P not starting with "json" |
| LlmReply.PlainOnlyStripped | weibo_analyzer_v2.py:266-272 | text with no leading and no trailing "```" is only whitespace-stripped |
| LlmReply.Recomputed | weibo_analyzer_v2.py:277-282 | after the overwrite, interest is the sum of the first four supplied sub-scores, utility of the last two, total their sum; the sub-scores are kept as supplied |
| LlmReply.Accept | weibo_analyzer_v2.py:276-286 | a parsed reply is accepted if and only if it has `name`, `scores` and the six sub-scores; then the scores are the recomputed ones, and the name, core features, pain points, target users, innovation points and market potential are the reply's |
| LlmReply.AcceptIgnoresSuppliedTotals | weibo_analyzer_v2.py:280-282 | whatever totals the reply supplied, the accepted analysis is the same |
| LlmReply.AcceptKeepsOutOfRange | weibo_analyzer_v2.py:277-282 | nothing clamps the sub-scores: an out-of-range innovation score survives acceptance |
| LlmReply.Interpret | weibo_analyzer_v2.py:257-286 | the `try` block succeeds if and only if the call returned text, the parser accepts the unfenced text and the parse is complete; then the totals are consistent |
| LlmReply.ReadReply | weibo_analyzer_sdk.py:160-192 | the step-by-step `try` block returns exactly that outcome |
| ZhipuAnalyzer.FormatSearchResults | weibo_analyzer_v2.py:304-308 | the placeholder if and only if there are no results; otherwise the first three results as `- title` lines joined by newlines, starting with the first result's line |
| ZhipuAnalyzer.FormatIgnoresRest | weibo_analyzer_v2.py:308 | results after the third never reach the prompt |
| ZhipuAnalyzer.FormatLines | weibo_analyzer_v2.py:308 | exactly min(3, n) lines, the k-th being "- " + the k-th title |
| ZhipuAnalyzer.RuleName | weibo_analyzer_v2.py:315 | the name is 「the first eight characters」智能助手 |
| ZhipuAnalyzer.RuleScores | weibo_analyzer_v2.py:344-354 | the sub-scores lie in their ranges and total, interest and utility are all 0 |
| ZhipuAnalyzer.RuleScoresOnto | weibo_analyzer_v2.py:345-350 | every in-range choice of sub-scores is one the engine can draw |
| ZhipuAnalyzer.RuleBasedAnalysis | weibo_analyzer_v2.py:310-356 | the rule engine's name, exactly five core features, pain points and innovation points, the first of each naming the quoted topic, no event timeline, in-range sub-scores and a total of 0 |
| ZhipuAnalyzer.RuleBasedIsAverage | weibo_analyzer_v2.py:352-354 | such a topic lands in the "average" bucket, and its stored totals disagree with its sub-scores |
| ZhipuAnalyzer.AnalyzeProductIdea | weibo_analyzer_v2.py:204-293 | the model's accepted reply, or the rule engine's analysis after any failure |
| ZhipuAnalyzer.FailedCallFallsBack | weibo_analyzer_v2.py:291-293 | a failed call yields the rule engine's analysis, with total 0 |
| ZhipuAnalyzer.AnalysisTotals | weibo_analyzer_v2.py:276-293 | either the totals are the sums of the sub-scores (accepted reply) or the total is 0 with in-range sub-scores (fallback) |
| ZhipuAnalyzer.V2CardOf | weibo_analyzer_v2.py:582-606 | the card shows the row's topic, its total and its first five core features |
| ZhipuAnalyzer.InlineFileNumber | weibo_analyzer_v2.py:450-459 | the inline file-number code computes the same number as `get_next_file_number` |
| ZhipuAnalyzer.BuildCards | weibo_analyzer_v2.py:582-623 | one card per sorted row, in order |
| ZhipuAnalyzer.GenerateHtmlReport | weibo_analyzer_v2.py:428-461 | file name with the next number, not among the existing names; bucket counts of the input summing to the topic count; cards in descending order of total |
| ClaudeSdk.ContextHeader | weibo_analyzer_sdk.py:204-211 | the context names the topic |
| ClaudeSdk.NumberedLine | weibo_analyzer_sdk.py:216 | a listed line starts with its number and ". " |
| ClaudeSdk.BuildContext | weibo_analyzer_sdk.py:202-220 | the `+=` loop returns exactly the specified context |
| ClaudeSdk.NumberedLinesList | weibo_analyzer_sdk.py:215-216 | the k-th listed result appears numbered k + 1 |
| ClaudeSdk.ContextListsResults | weibo_analyzer_sdk.py:213-216 | with results, each of the first five appears in the context numbered by its position |
| ClaudeSdk.ContextWithoutResults | weibo_analyzer_sdk.py:217-218 | with no results the context is the header followed by the fixed note, and still names the topic |
| ClaudeSdk.ContextIgnoresRest | weibo_analyzer_sdk.py:215 | results after the fifth never reach the context |
| ClaudeSdk.EscapeRoundTrip | weibo_analyzer_sdk.py:95-139 | inside an f-string, text with every brace doubled reads back as the text itself |
| ClaudeSdk.PromptTailRejected | weibo_analyzer_sdk.py:138-139 | as written, the template's closing braces are not valid f-string text |
| ClaudeSdk.PromptTailAccepted | weibo_analyzer_sdk.py:138-139 | corrected to "}}", both objects of the skeleton are closed and the text reads back as "}\n}" |
| ClaudeSdk.FallbackAnalysis | weibo_analyzer_sdk.py:222-227 | the fallback is `mock_ai_analysis` of weibo_hot_analyzer.py, so it has that analysis's shape and score ranges |
| ClaudeSdk.AnalyzeWithClaude | weibo_analyzer_sdk.py:89-200 | the accepted reply, or the fallback after any failure |
| ClaudeSdk.ClaudeTotalsConsistent | weibo_analyzer_sdk.py:183-200 | on both paths the totals are the sums of the sub-scores; after a failure the sub-scores are also in range |
| ClaudeSdk.AnalyzeProductIdea | weibo_analyzer_sdk.py:356-370 | the model is asked only when `use_claude_sdk` and the package are both there and the constructor succeeds; otherwise the result is `mock_ai_analysis` |
| ClaudeSdk.DispatchPrecedence | weibo_analyzer_sdk.py:356-370 | a failing reply gives the same result as a disabled SDK; any other result comes from an enabled, constructed client with an accepted reply; totals are always consistent |

## Left out

- Network and scraping are not modelled. This covers `fetch_weibo_hot` with its retries and `time.sleep`, `web_search_topic` with BeautifulSoup, and the backup hot lists: network I/O through libraries outside the model.
- The Anthropic client, its `messages.create` call and `json.loads` are foreign calls. They are inputs: a `Reply` value and a parser parameter.
- `os.environ` and `load_config` are inputs. They appear as the `Setup` value and the API key option.
- `hash(topic)`, `random.seed` and `random.randint` are left out. The hash is salted per process, so the model takes the six raw generator outputs as `Draws`. It claims nothing about reproducibility across runs.
- `Scoring.RandInt` models `randint(lo, hi)` as `lo + raw % (hi - lo + 1)`. It states only the range, and `Scoring.RandIntOnto` states that every value can be drawn. Nothing about the distribution is modelled.
- The HTML and CSS text, the timestamp, `Path.glob`, `mkdir`, the file writes, `webbrowser.open`, every `print`, `main` in all three scripts and `print_summary` are I/O.
  - The glob is the list of file names in the directory, filtered by `Report.GlobMatches`.
  - The card data stands for the card markup.
- `main` of weibo_analyzer_v2.py is not modelled: it is orchestration, and it uses an undefined `analyzer` when the AI setup fails.
- The dynamic import `import_html_generator` and the unused `ThreadPoolExecutor` import are loader plumbing.
- Code that is never called, or whose result is never used:
  - v1 `analyze_product_idea` builds a context that it discards;
  - `generate_core_features`, `generate_market_pain_points`, `generate_target_users`, `generate_innovation_points` and `generate_market_potential` are never called;
  - v2 `_build_context` (weibo_analyzer_v2.py:295-302): its result is unused. It reads `r['title']` outside the `try`, which only matters for malformed search hits.
- Reply values other than strings, lists and integers are not modelled.
  - Non-integer scores: `+` on strings would concatenate, and on floats `round(..., 1)` would matter.
  - Missing keys other than `name` and `scores`, and non-string names.
  - A parsed reply's other fields are taken as present. The source keeps whatever the reply contains.
- `LlmReply.Accept` builds a new record. The source mutates the parsed `scores` dict in place (weibo_analyzer_v2.py:280-282, weibo_analyzer_sdk.py:186-188). The model keeps the outcome of the overwrite, not the aliasing.
- `\d`, `str.strip` and `len` are narrower. `\d` is modelled as the ASCII digits, although Python's `\d` also matches other Unicode digits. `str.strip` uses a fixed whitespace set. `len` counts Unicode scalar values.
- The Claude module as written does not compile: see Findings. The model describes the corrected template.
- `Report.CardOf`, `Report.BuildCards`, `Report.GenerateHtmlReport`: the cards use the corrected timeline, built from the row's search results. `Report.CardTimelineAsWritten` is the program as written, which always gets the keyword triple (Findings, weibo_hot_analyzer.py:957).
- `mock_ai_analysis` in the model uses the corrected core features, as the Findings table explains. `Synthesizer.CoreFeaturesAsWritten` is the as-written version.
- The prompt texts themselves, apart from the braces of the SDK template, are string constants with no behaviour and are not modelled.

## Findings

| source | as written | input that shows it | evidently intended | confidence | as-written member | corrected member |
|---|---|---|---|---|---|---|
| weibo_hot_analyzer.py:243 | the fifth 娱乐影视 feature is a plain string, not an f-string, so it shows `'{topic}'` literally | any 娱乐影视 topic other than the text "{topic}", e.g. "电影" | the topic interpolated, as in the first entry of the list | high, not executed | Synthesizer.UnformattedEntertainmentFeature | Synthesizer.CoreFeaturesNameTopic |
| weibo_hot_analyzer.py:291 | the second fallback feature is a plain string, so it shows `'{topic}'` literally | any topic that matches no keyword, e.g. "ai" | the topic interpolated | high, not executed | Synthesizer.UnformattedGeneralFeature | Synthesizer.CoreFeaturesNameTopic |
| weibo_hot_analyzer.py:957 | the card timeline reads `analysis.get('search_results', [])`, but the search results are stored beside the analysis in the row (line 1249), so the timeline never uses them | a row with two search titles that survive the filters (over 10 long, 8 < len < 60 once cleaned): its card still shows the keyword triple (`Report.CardTimelineIgnoresResults`) | `topic_data['search_results']` | high, not executed | Report.CardTimelineAsWritten | Report.CardTimeline |
| weibo_analyzer_sdk.py:139 | the f-string prompt closes the JSON skeleton's outer object with a single `}`, which an f-string rejects, so the module does not compile | the JSON skeleton inside the template ends with "}}\n}" (lines 138-139) | `}}`, as the inner objects are written | high, not executed | ClaudeSdk.PromptTailRejected | ClaudeSdk.PromptTailAccepted |
