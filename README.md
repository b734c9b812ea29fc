# Marquelytix sentiment dashboard: a verified model

Marquelytix collects customer comments about a business from review sites and
social networks. It labels each comment POSITIVE, NEUTRAL or NEGATIVE with a
score, and shows the results on a set of dashboard pages. This project models,
in Dafny, the parts of the system that compute something:

- the server's in-memory store (`MemStorage`): users, comments, authors, the
  per-user configuration, the filtered and ordered comment query, the daily
  snapshots and the fixed suggestion table;
- the server's sentiment classifier: the keyword rule of demo mode, the reading
  of the remote model's answer and the fallback rule when the call fails; the
  influence drawn for a new comment; the `/api/analyze` input check and the
  configuration defaults;
- the client's shared helpers and tables (time ranges, sources, sentiment
  colours, influence levels, number and relative-time formatting) and its
  request builders;
- the computations of the dashboard pages: analysis, hot hours, topic
  analysis, summary, sources, the filter panel, influencers, influencer
  analysis, comparison, emotion analysis, the brand assistant, and the PDF
  and Excel report estimates.

Each page's computation is a module. Pure computations are functions with
lemmas. Code that changes things step by step is written as methods with
loops, proved against functions that state their results:

- the store is a class whose methods update its maps;
- the word-cloud, heat-map, topic-tally, emotion-aggregation and report
  counters are methods;
- the brand assistant's chat is a class.

Shared modules hold the JavaScript building blocks the pages rely on:

- `Optional`: values that may be missing, with the `||` fallback of strings
  and numbers;
- `Text`: `toLowerCase`, `includes` and `trim`, on ASCII;
- `Seqs`: `filter`, counting, sums and means, `slice` and toggles;
- `Ranking`: a stable descending sort and the first maximum of a `reduce`;
- `Tallies`: counting keys into an object, then `Object.entries`;
- `OrderedMaps`: a JavaScript `Map` with its insertion order;
- `Domain`: the records.

Randomness, the clock and the remote classifier become parameters of the
functions that use them. Times are integers in milliseconds, and days are
counted in UTC.

## Model

| member | source | states |
|---|---|---|
| Storage.MemStorage.constructor | storage.ts:66-71 | a new store holds no users, comments, authors or configurations |
| Storage.MemStorage.GetUserByEmail | storage.ts:128-130 | finds the first stored user, in insertion order, with that e-mail, and finds none exactly when no stored user has it |
| Storage.MemStorage.CreateUser | storage.ts:132-142 | stores the input plus the fresh id and creation time under that id; the other collections are unchanged |
| Storage.MemStorage.GetComments | storage.ts:144-206 | returns a permutation of exactly the stored comments that pass every supplied filter, ordered by influence for "top" and by creation time otherwise, both non-increasing |
| Storage.ApplyFilters | storage.ts:158-192 | after the nine filters in source order, what is left passes each of them and nothing that passes them all was dropped |
| Storage.FilterFields | storage.ts:158-176 | the first six filters: owner, sources, sentiments, minimum influence with a missing influence as 0, and excluded countries and languages with a missing value as "" |
| Storage.FilterOwnership | storage.ts:159-167 | the owner, source and sentiment filters, each applied only when supplied: what is left passes each of the three and nothing that passes them was dropped |
| Storage.FilterText | storage.ts:177-183 | with a truthy query, a comment stays exactly when its lower-cased text or its author's lower-cased name contains the lower-cased query |
| Storage.FilterDates | storage.ts:184-191 | each supplied date bound keeps exactly the dated comments on its side of the bound, the bound included |
| Storage.NarrowedSelected | storage.ts:158-192 | a list narrowed by all nine filters holds exactly the matching comments, each as often as in the store |
| Storage.NewCommentSelected | storage.ts:214-222 | after a comment is added under a new id, a query returns the earlier matches followed by the new comment exactly when it matches |
| Storage.MemStorage.CreateComment | storage.ts:208-223 | stores the input with its owner, label, score, influence, fresh id and creation time under that id; the other collections are unchanged |
| Storage.MemStorage.GetAuthors | storage.ts:225-227 | lists exactly the stored authors |
| Storage.MemStorage.CreateAuthor | storage.ts:229-235 | stores the input plus the fresh id under that id; the other collections are unchanged |
| Storage.RangeDays | storage.ts:244 | "1d" gives 1 day, "7d" 7 days, anything else 30 |
| Storage.MemStorage.GetSnapshots | storage.ts:237-279 | one snapshot per day of the range, oldest first, ending today; each is built from the user's comments created that day |
| Storage.DailyBuckets | storage.ts:246-276 | the loop from days - 1 down to 0 builds the same series whatever the order of the user's comments |
| Storage.AppendDay | storage.ts:247-275 | one pass of the loop appends the bucket of the next day |
| Storage.SeriesAt | storage.ts:246-249 | entry j of the series belongs to the day `today - (days - 1 - j)` |
| Storage.CreatedOn | storage.ts:251-256 | keeps exactly the comments created on that day, with their multiplicities; undated comments never match |
| Storage.SameDayBucket | storage.ts:251-263 | the bucket built from the day filter equals the day's bucket of any reordering of the comments |
| Storage.BucketPermutation | storage.ts:258-263 | a bucket depends only on which comments fell on the day, not on their order |
| Storage.BucketLabels | storage.ts:261-263 | when every label is known, the three label counts of a bucket add up to its mentions |
| Storage.BucketBounds | storage.ts:258-260 | reach is never negative, and the mean score stays within any bounds of the scores that include 0 (an empty day scores 0) |
| Storage.MergeConfig | storage.ts:285-293 | each setting is the update's value if truthy, else the stored one if truthy, else the default (no token, "true", 0.4); the stored id is kept, or the fresh one is used |
| Storage.FalsyUpdateKeeps | storage.ts:290-292 | an update whose every value is falsy leaves a complete stored configuration unchanged |
| Storage.MergeIdempotent | storage.ts:285-293 | applying the same update twice gives the same configuration as applying it once |
| Storage.MemStorage.GetConfig | storage.ts:281-283 | finds the first stored configuration of that user, in insertion order, and finds none exactly when the user has none |
| Storage.MemStorage.UpdateConfig | storage.ts:285-298 | stores the merged configuration under its id; the other collections are unchanged |
| Storage.UpdateThenGet | storage.ts:281-297 | after an update, reading the user's configuration returns the merged record |
| Storage.UpdateExistingThenGet | storage.ts:286-288 | an update of an existing record keeps its id, so the record is replaced in place |
| Storage.GetSuggestions | storage.ts:300-344 | a falsy category lists the whole table; a truthy one lists exactly the rows of that category |
| Storage.SuggestionsOtherCategory | storage.ts:340-342 | a non-empty category that is not one of the three labels has no suggestions |
| Routes.Token | routes.ts:11 | a truthy token is available iff the environment has one or the stored configuration does |
| Routes.RemoteOnlyWithToken | routes.ts:10-14 | the remote classifier is used iff neither the environment nor the configuration asks for demo mode and a token is available |
| Routes.KeywordCount | routes.ts:21-22 | never counts more than the number of listed words |
| Routes.KeywordsCountOnce | routes.ts:21-22 | for a list without repeats, the count is the number of distinct words found |
| Routes.KeywordListsDistinct | routes.ts:18-19 | the positive and negative word lists have no repeats and share no word |
| Routes.Decide | routes.ts:24-30 | POSITIVE iff more positive words, NEGATIVE iff more negative words, NEUTRAL on a tie; scores in [0.7, 1), [0, 0.4) and [0.4, 0.6) |
| Routes.KeywordRule | routes.ts:16-30 | the demo rule always gives one of the three labels with a score in [0, 1) |
| Routes.KeywordRuleNeutralWithoutKeywords | routes.ts:16-30 | text with no listed word is NEUTRAL, and the rule ignores letter case |
| Routes.Interpret | routes.ts:52-67 | a malformed answer, or one without both a POSITIVE and a NEGATIVE entry, gives NEUTRAL 0.5, and only those do |
| Routes.InterpretComparesFirstEntries | routes.ts:54-62 | the first POSITIVE and first NEGATIVE entries decide: POSITIVE with its score iff its score is strictly higher, else NEGATIVE with the negative score |
| Routes.FailureRule | routes.ts:71-77 | after a failed call: "good" or "great" gives POSITIVE 0.8, else "bad" or "terrible" gives NEGATIVE 0.2, else NEUTRAL 0.5 |
| Routes.FailureRulePrefersPositive | routes.ts:72-75 | a text with both "great" and "terrible" is POSITIVE |
| Routes.AnalyzeSentiment | routes.ts:9-79 | always one of the three labels; demo mode or a missing token gives the keyword rule's verdict (score in [0, 1)), a failed call the failure rule's (score 0.8, 0.2 or 0.5), and an answered call the interpretation of the answer |
| Routes.AnalyzeScoreInUnitRange | routes.ts:9-79 | when the remote scores lie in [0, 1], so does the returned score |
| Domain.LabelPartition | routes.ts:138-148 | for comments labelled by the classifier, the three label counts add up to the number of comments |
| Routes.Influence | routes.ts:141 | the influence of a new comment lies in [2, 9], so the cap at 10 never applies |
| Routes.Analyze | routes.ts:94-100 | a missing, empty or non-string text is refused with "Text is required", and only such a text is refused; otherwise the verdict carries a known label |
| Routes.ConfigResponse | routes.ts:225-226 | without a stored configuration the defaults ("true", 0.4) are returned, otherwise the stored record |
| Routes.DefaultsMatchFirstSave | routes.ts:226 | the defaults shown before any save equal those a first empty save stores |
| Types.SourceValues | types.ts:55-67 | the source values in table order |
| Types.TablesWellFormed | types.ts:42-73 | eleven sources with distinct values; the three sentiment options in the order positive, neutral, negative; four time ranges of 1, 7, 30 and 0 days |
| Types.TimeRangesMatchServer | types.ts:42-47 | the server's range length agrees with the fixed ranges' day counts; "custom" falls to the 30-day default |
| Types.SentimentColor | types.ts:75-79 | green classes iff POSITIVE, red iff NEGATIVE, yellow for any other label |
| Types.SentimentColorIgnoresScore | types.ts:75 | the optional score argument never changes the colour |
| Types.InfluenceLevel | types.ts:85-89 | "High" iff influence >= 8, "Medium" iff in [5, 8), "Low" iff below 5 |
| Types.InfluenceLevelMonotone | types.ts:85-89 | a higher influence never gets a lower level |
| Types.FormatNumberAsWritten | types.ts:91-99 | "M" iff >= 1,000,000, "K" iff in [1000, 1,000,000), plain below; the "K" value can reach 1000.0 |
| Types.FormatNumberShowsThousandK | types.ts:95-96 | 999,999 is shown as "1000.0K" |
| Types.FormatNumber | types.ts:91-99 | the suffix is chosen after rounding, so a "K" value stays below 1000.0 and 999,950 shows as "1.0M" |
| Types.FormatNumberAgrees | types.ts:91-99 | the corrected and the written forms agree outside [999,950, 1,000,000) |
| Types.GetRelativeTime | types.ts:101-119 | minutes under an hour, hours under a day, days under a week, the calendar date otherwise, each with floored counts |
| Types.RelativeTimeThresholds | types.ts:105-117 | the same buckets on the elapsed milliseconds (3,600,000, 86,400,000 and 604,800,000), with minutes in [0, 60), hours in [1, 24) and days in [1, 7) |
| Api.EntryParams | api.ts:8-16 | an undefined or null value adds nothing, a scalar adds one parameter, an array adds one parameter per item in order |
| Api.CommentParams | api.ts:5-17 | the loop over the filter entries appends exactly the parameters of each entry, in entry order; no filters give no parameters |
| Api.AppendItems | api.ts:10-11 | an array value appends one parameter per item, each under the entry's key, in item order |
| Api.EncodeAppend | api.ts:8 | the parameters of two entry lists put together are the parameters of the first followed by those of the second |
| Api.MissingValuesSkipped | api.ts:9 | an undefined or null entry adds nothing wherever it stands |
| Api.EncodeShape | api.ts:8-16 | the number of parameters is the number of scalars plus all array items, and every parameter carries the key of an entry that has a value |
| Api.SnapshotParams | api.ts:34-37 | "range" and "group" are each sent iff truthy, range first |
| Api.SuggestionParams | api.ts:49-51 | "category" is sent iff truthy |
| Api.SnapshotRangeRoundTrip | api.ts:34-37 | the server reads back the range the client sent, so both sides agree on the number of days |
| Api.SuggestionsRoundTrip | api.ts:49-51 | the server lists the same suggestions whether the category is given directly or through the query string |
| Analysis.SentimentDataCounts | analysis.tsx:34-43 | the three donut slices count the POSITIVE, NEUTRAL and NEGATIVE comments |
| Analysis.SentimentDataAddsUp | analysis.tsx:34-43 | when every label is known, the three slices add up to the number of comments |
| Analysis.Sources | analysis.tsx:46-49 | the source of each comment, position by position |
| Analysis.SourceMultiplicity | analysis.tsx:46-49 | a source occurs in that list as often as there are comments from it |
| Analysis.SourceData | analysis.tsx:51-54 | one bar per tallied source, in tally order, with the capitalised name and its count |
| Analysis.SourceCountsAddUp | analysis.tsx:46-54 | each source appears once, every comment's source appears, each count is the number of comments from that source, and the counts add up to the number of comments |
| Analysis.TokensExact | analysis.tsx:63 | splitting on non-word characters returns a single word unchanged and splits around any separator |
| Analysis.KeptWordsShape | analysis.tsx:62-65 | every kept word is a lowercase run of word characters, longer than three and not a common word |
| Analysis.AllWordsOccurrences | analysis.tsx:61-70 | a word is counted once per occurrence among the kept words of all comments |
| Analysis.CountWord | analysis.tsx:67-69 | one update adds one to the word's count, entering it at the end of the key order the first time |
| Analysis.CountWords | analysis.tsx:67-69 | the inner loop counts every word of one comment's list |
| Analysis.CountAllWords | analysis.tsx:58-70 | the outer loop leaves the tally of all kept words of all comments, keys in first-seen order |
| Analysis.GenerateWordCloud | analysis.tsx:57-76 | the cloud is the tally sorted by descending count and cut to twenty entries |
| Analysis.WordCloudRanked | analysis.tsx:72-75 | at most twenty entries, non-increasing counts, each count the word's occurrences, and no word left out occurs more often than a listed one |
| Analysis.ReadAsWritten | analysis.tsx:68 | reading a word from a plain object finds its own count, or an inherited member for "constructor" and "__proto__", or nothing |
| Analysis.ConstructorReadsInherited | analysis.tsx:62-68 | the text "constructor" keeps the word "constructor", whose first read finds the inherited member rather than a missing count |
| Analysis.ConstructorCountedOnce | analysis.tsx:61-70 | in the corrected tally a comment "constructor" counts that word once |
| HotHours.Accumulated | hot-hours.tsx:28-38 | a slot's mentions equal its count, and an empty slot has sentiment 0 |
| HotHours.AccumulatedMeaning | hot-hours.tsx:28-38 | a slot holds the number of dated comments falling on that weekday and hour and the sum of their scores |
| HotHours.OneSlotPerComment | hot-hours.tsx:29-32 | a dated comment falls in exactly one of the 7 x 24 slots; an undated one in none |
| HotHours.AddOneComment | hot-hours.tsx:34-36 | adding a comment raises its own slot by one mention and its score and leaves every other slot alone |
| HotHours.EmptyHeatmap | hot-hours.tsx:20-25 | the initial grid is 7 x 24 empty cells |
| HotHours.AddComments | hot-hours.tsx:28-38 | the loop over the comments leaves each cell equal to its slot's accumulation |
| HotHours.AverageRow | hot-hours.tsx:42-46 | each cell of a row with a count gets its sentiment divided by the count; the others are unchanged |
| HotHours.AverageCells | hot-hours.tsx:41-47 | after averaging, each cell is the averaged accumulation of its slot |
| HotHours.GenerateHeatmap | hot-hours.tsx:15-50 | the heatmap is 7 x 24, and each cell is the averaged accumulation of its weekday and hour |
| HotHours.EmptyCellsStayZero | hot-hours.tsx:43-45 | a cell with no comments stays all zero, and mentions equal the number of comments in the slot |
| HotHours.HeatSentimentInRange | hot-hours.tsx:44 | when scores lie in [0, 1], so does each cell's mean sentiment |
| HotHours.RowMentionsStep | hot-hours.tsx:34 | one comment raises the mentions of its weekday's row by one when its hour is counted |
| HotHours.GridMentionsStep | hot-hours.tsx:34 | one comment raises the grid's mentions by one when its weekday is counted |
| HotHours.TotalMentions | hot-hours.tsx:28-38 | the mentions of the whole grid add up to the number of dated comments |
| HotHours.ZeroMentions | hot-hours.tsx:20-25 | without comments the grid holds no mentions |
| HotHours.ZeroRow | hot-hours.tsx:20-25 | without comments a row holds no mentions |
| HotHours.FindPeakHours | hot-hours.tsx:55-68 | the loop sums the mentions per hour over the seven days, then ranks the hours |
| HotHours.PeakHoursRanked | hot-hours.tsx:64-67 | five distinct hours, by non-increasing mentions, each with its column total, and no hour left out has more mentions than a listed one |
| HotHours.NoDataNoSum | hot-hours.tsx:78-83 | an hour with no day holding data sums to 0 |
| HotHours.HourEntry | hot-hours.tsx:76-87 | an hour's entry is the mean of the days holding data, and the number of such days |
| HotHours.Scores | hot-hours.tsx:94 | keeps the hour and sentiment of each entry, in order |
| HotHours.FindBestSentimentHours | hot-hours.tsx:73-95 | the loop builds each hour's entry, then filters, ranks and cuts them |
| HotHours.BestHoursRanked | hot-hours.tsx:90-94 | at most five hours, by non-increasing sentiment, each with data and its mean |
| HotHours.BestHoursDominate | hot-hours.tsx:90-94 | no hour with data that was left out has a higher mean than a listed one |
| HotHours.IntensityColor | hot-hours.tsx:104-113 | gray iff the maximum or the ratio is 0, otherwise the blue shade of the ratio's fifth |
| HotHours.IntensityMonotone | hot-hours.tsx:104-113 | a larger value never gets a lighter shade |
| HotHours.CellSentimentColor | hot-hours.tsx:115-119 | green iff above 0.7, yellow iff in (0.4, 0.7], red iff at most 0.4 |
| HotHours.FormatHour | hot-hours.tsx:121-126 | midnight is 12 AM, 1-11 AM, noon 12 PM, 13-23 shown minus twelve PM |
| HotHours.FormatHourReadable | hot-hours.tsx:121-126 | the hours of a day show as 1-12 with AM before noon, and no two hours show the same |
| TopicAnalysis.TopicNamesDistinct | ai-topic-analysis.tsx:38-45 | the six topics of the keyword table have distinct names |
| TopicAnalysis.Counted | ai-topic-analysis.tsx:58-60 | recording a comment adds one to the count and turns the recent flag on when the comment is recent, never off |
| TopicAnalysis.RecordStat | ai-topic-analysis.tsx:55-60 | recording under one topic changes that topic's entry only, creating it the first time |
| TopicAnalysis.AddCommentStat | ai-topic-analysis.tsx:52-62 | one comment is recorded under exactly the topics whose keywords its lowercased text contains, and topic names stay distinct |
| TopicAnalysis.AccumulateStat | ai-topic-analysis.tsx:47-63 | after all comments, a topic's entry summarises exactly the comments that mention it |
| TopicAnalysis.AverageData | ai-topic-analysis.tsx:67-69 | the average times the count gives back the sum; count and flag are kept; an empty entry is unchanged |
| TopicAnalysis.Averaged | ai-topic-analysis.tsx:66-70 | every entry is averaged, in place and in order |
| TopicAnalysis.ListedTopicMeaning | ai-topic-analysis.tsx:33-75 | a listed topic is in the table, its count is the number of comments about it, its sentiment is their mean score, and it is recent iff one of them is |
| TopicAnalysis.TrendingDistinct | ai-topic-analysis.tsx:72-74 | no topic is listed twice |
| TopicAnalysis.TrendingComplete | ai-topic-analysis.tsx:52-74 | a topic is listed iff some comment mentions it |
| TopicAnalysis.CommentCountsOnce | ai-topic-analysis.tsx:52-60 | a new comment raises a topic's count by at most one, and by one iff it discusses the topic |
| TopicAnalysis.SlowCountsTwice | ai-topic-analysis.tsx:39-43 | "slow" is a keyword of two topics, so one comment "Slow" counts under both |
| TopicAnalysis.RecordTopic | ai-topic-analysis.tsx:55-60 | one update of the topic map is the recording step |
| TopicAnalysis.MatchComment | ai-topic-analysis.tsx:48-62 | the loop over the keyword table adds one comment |
| TopicAnalysis.AverageTopics | ai-topic-analysis.tsx:66-70 | the loop over the keys averages every entry |
| TopicAnalysis.ExtractTrendingTopics | ai-topic-analysis.tsx:33-75 | returns the trending topics, sorted by non-increasing count |
| TopicAnalysis.ScoreColor | ai-topic-analysis.tsx:79-83 | green iff above 0.7, yellow iff in (0.4, 0.7], red iff at most 0.4 |
| TopicAnalysis.SentimentBadge | ai-topic-analysis.tsx:85-89 | "default" iff above 0.7, "secondary" iff in (0.4, 0.7], "destructive" iff at most 0.4 |
| TopicAnalysis.BadgeMatchesColor | ai-topic-analysis.tsx:79-89 | badge and colour agree on the extremes, and a higher score never gets a worse badge |
| Summary.Percent | summary.tsx:31-33 | 0 without comments; otherwise the share in percent, which lies in [0, 100] for a part of the total |
| Summary.SummaryKpis | summary.tsx:26-33 | the total is the number of comments, the three counts are the label counts, and each percentage lies in [0, 100] and is 0 without comments |
| Summary.PercentagesAddUp | summary.tsx:31-33 | when every label is known the three percentages add up to exactly 100 |
| Summary.ChartMatchesKpis | summary.tsx:41-45 | the donut slices show the same counts as the KPI cards |
| Summary.AuthorRows | summary.tsx:50-53 | one row per author, in order, with the number of comments that author wrote |
| Summary.TopAuthorsRanked | summary.tsx:48-55 | at most five rows, by non-increasing mentions, each an author with at least one comment and the exact count |
| Summary.TopAuthorsDominate | summary.tsx:54-55 | no author with comments who was left out has more mentions than a listed one |
| Summary.TopAuthorsComplete | summary.tsx:48-55 | when at most five authors have comments, all of them are listed |
| Summary.SourceRowOf | summary.tsx:203-207 | a source row carries its tallied count and a reach of 85 per mention |
| Summary.TopSources | summary.tsx:57-64 | the rows are the five most frequent sources of the tally, in ranked order |
| Summary.TopSourcesMeaning | summary.tsx:57-64 | at most five rows, by non-increasing mentions, each with the number of comments from that source, which is positive |
| Summary.TopSourceDominates | summary.tsx:62-64 | no source left out of the table has more comments than a listed one |
| SourceManagement.Growth | sources.tsx:37 | a draw in [0, 1) gives a growth in [-10, 20) |
| SourceManagement.StatOf | sources.tsx:23-38 | a source's row counts the comments from it and is active iff it is not excluded |
| SourceManagement.StatMeaning | sources.tsx:24-29 | reach is 100 per influence point summed over the source's comments; the mean score is their mean, or 0 without comments; both stay in range when the inputs do |
| SourceManagement.AllStats | sources.tsx:23-38 | one row per source of the table, in table order |
| SourceManagement.SearchMeaning | sources.tsx:39-41 | a row is shown iff its lowercased label contains the lowercased query; the empty query shows all eleven |
| SourceManagement.ToggleSource | sources.tsx:53-58 | toggling flips whether that source is excluded and leaves every other source as it was |
| SourceManagement.ToggleFlipsActive | sources.tsx:36 | toggling flips the active flag of that source's row only, and toggling twice restores it |
| SourceManagement.ActiveSources | sources.tsx:75 | the active count never exceeds the rows and equals them iff every row is active |
| SourceManagement.NothingExcludedAllActive | sources.tsx:15 | with nothing excluded every shown source is active |
| SourceManagement.TotalMentionsSum | sources.tsx:74 | the total is the sum of the per-source mention counts |
| SourceManagement.MentionsAddUp | sources.tsx:24-25 | over distinct sources, the per-source counts add up to the comments from any of them |
| SourceManagement.TotalCountsKnownComments | sources.tsx:74 | the unfiltered total counts exactly the comments whose source is in the table, so all of them when every source is known |
| SourceManagement.TopPerformer | sources.tsx:137-139 | "N/A" for no rows, otherwise the label of the first row with the largest mention count |
| SourceManagement.SentimentBg | sources.tsx:68-72 | green iff above 0.7, yellow iff in (0.4, 0.7], red iff at most 0.4 |
| SourceManagement.BgMatchesColor | sources.tsx:62-72 | the background and the text colour always pick the same band |
| FilterPanel.UpdateFilter | filter-panel.tsx:13-15 | the key gets the new value and every other key keeps its value |
| FilterPanel.UpdateFilterLaws | filter-panel.tsx:13-15 | writing back a key's own value changes nothing, and a second write overrides the first |
| FilterPanel.ToggleArrayFilter | filter-panel.tsx:17-23 | a present value is removed (every other item kept as often as before), an absent one is appended, and other keys are unchanged |
| FilterPanel.ToggleArrayFilterTwice | filter-panel.tsx:17-23 | toggling the same value twice restores which values are selected and leaves other keys unchanged |
| Influencers.EngagementRate | influencers.tsx:42 | mentions per follower in percent, 0 without followers, never negative |
| Influencers.StatOf | influencers.tsx:25-43 | an author's row counts the comments they wrote, with mean score and mean influence (a missing influence as 0), reach of followers plus 1000 per influence point, and the engagement rate |
| Influencers.StatMeaning | influencers.tsx:28-34 | without comments both means and the rate are 0 and reach is the follower count; the means stay within the bounds of their inputs |
| Influencers.AllStats | influencers.tsx:25-43 | one row per author, in order |
| Influencers.SearchMeaning | influencers.tsx:44-47 | a row is shown iff the lowercased query is in the lowercased name or handle; the empty query shows all |
| Influencers.SearchIgnoresCase | influencers.tsx:45-46 | the search ignores the case of the query |
| Influencers.SortedInfluencers | influencers.tsx:50-61 | a permutation of the rows, by non-increasing influence, mentions or sentiment as selected |
| Influencers.SortedInfluencersMembers | influencers.tsx:50 | sorting keeps exactly the same rows |
| Influencers.InfluenceLevel | influencers.tsx:63-67 | "High" iff >= 8, "Medium" iff in [5, 8), "Low" with gray iff below 5 |
| Influencers.LevelsAgree | influencers.tsx:63-67 | the page's level agrees with the shared helper's |
| Influencers.OverviewOf | influencers.tsx:75-80 | the card values: number of rows, rows with influence >= 8, summed reach and mean sentiment |
| Influencers.OverviewMeaning | influencers.tsx:75-80 | the high-influence card counts exactly the rows labelled "High", and the mean sentiment stays in [0, 1] when scores do |
| InfluencerAnalysis.Growth | influencer-analysis.tsx:39 | 0 without mentions, else the recent share in percent minus 50, which lies in [-50, 50] |
| InfluencerAnalysis.AnalysisOf | influencer-analysis.tsx:20-51 | an author's row adds the comments of the last seven days, the growth, rising iff growth > 10, trending iff at least three mentions and influence >= 7 |
| InfluencerAnalysis.GrowthMeaning | influencer-analysis.tsx:33-49 | growth lies in [-50, 50], is 0 without mentions, and an author is rising iff more than 60% of their mentions are recent |
| InfluencerAnalysis.RisingThreshold | influencer-analysis.tsx:39-49 | growth above 10 is the same as a recent share above 0.6 |
| InfluencerAnalysis.AnalysisStats | influencer-analysis.tsx:20-52 | one row per author, in order |
| InfluencerAnalysis.TopInfluencersMeaning | influencer-analysis.tsx:55-57 | at most ten rows, by non-increasing influence, and none left out has more |
| InfluencerAnalysis.RisingInfluencersMeaning | influencer-analysis.tsx:59-62 | at most five rising rows, by non-increasing growth, and no rising author left out grows faster |
| InfluencerAnalysis.EngagementLeadersMeaning | influencer-analysis.tsx:64-66 | at most five rows, by non-increasing engagement, and none left out has more |
| InfluencerAnalysis.OverviewOf | influencer-analysis.tsx:69-72 | the card values: number of rows, rows with influence >= 8, rising authors capped at five, and summed reach |
| Comparison.SetTermA | comparison.tsx:101 | typing in the first box changes only the first term |
| Comparison.SetTermB | comparison.tsx:111 | typing in the second box changes only the second term |
| Comparison.HandleCompare | comparison.tsx:26-30 | comparing starts iff both trimmed terms are non-empty; the terms are kept, and once on it stays on |
| Comparison.ComparingNeverTurnsOff | comparison.tsx:12-30 | no sequence of typing and clicking ends a comparison |
| Comparison.TurnedOnByCompare | comparison.tsx:26-30 | a comparison that started was started by a click at which both terms were non-blank |
| Comparison.CountryOf | comparison.tsx:50 | a truthy country, otherwise "Unknown" |
| Comparison.Countries | comparison.tsx:49-53 | the country name of each comment, position by position |
| Comparison.CountryMultiplicity | comparison.tsx:49-53 | a country name occurs as often as there are comments from that country |
| Comparison.GetTermData | comparison.tsx:32-68 | mentions count the comments whose lowercased text or source contains the lowercased term; the mean score of those; the five most frequent sources and countries; one timeline value per snapshot |
| Comparison.TermDataMeaning | comparison.tsx:39-42 | the mean is 0 without mentions and stays in [0, 1] when the scores do; the empty term matches every comment |
| Comparison.MixesAddUp | comparison.tsx:44-65 | both tallies add up to the mentions, at most five entries each, ranked by count, each count being the matching comments from that source or country |
| Comparison.Timeline | comparison.tsx:56-59 | one value per snapshot, each the floor of its draw times 30% of the mentions |
| Comparison.TimelineBounds | comparison.tsx:58 | for a draw in [0, 1) each timeline value lies in [0, 30% of the mentions] |
| Comparison.ComparisonData | comparison.tsx:70-77 | no points unless comparing; otherwise one per snapshot, and both values lie in [5, 25) |
| EmotionAnalysis.Intensity | emotion-analysis.tsx:21-56 | each intensity lies in [0, 0.8], fear is never set, a positive comment sets only admiration, joy and love, a negative one only anger, disgust and sadness, any other label only surprise |
| EmotionAnalysis.MapSentimentToEmotions | emotion-analysis.tsx:21-56 | the eight intensities of one comment, slot by slot |
| EmotionAnalysis.AggregateEmotions | emotion-analysis.tsx:59-87 | the summing loops and the normalising loop leave each emotion's mean intensity over the comments (0 without comments) |
| EmotionAnalysis.AggregateBounds | emotion-analysis.tsx:79-84 | every mean lies in [0, 0.8], and the mean fear is 0 |
| EmotionAnalysis.SurpriseCount | emotion-analysis.tsx:51-53 | summed surprise is 0.2 per comment with a label other than POSITIVE and NEGATIVE |
| EmotionAnalysis.LoveCount | emotion-analysis.tsx:33-37 | summed love is 0.4 per positive comment scoring above 0.8 |
| EmotionAnalysis.TimelinePoint | emotion-analysis.tsx:93-112 | all values are non-negative; joy iff the mean score is above 0.5, anger iff below 0.5, admiration iff above 0.7, sadness iff below 0.3; love is 0.6 of joy, fear 0.5 of anger |
| EmotionAnalysis.Timeline | emotion-analysis.tsx:92-114 | one point per snapshot, in order |
| EmotionAnalysis.JoyAndAngerExclusive | emotion-analysis.tsx:97-99 | no day shows both joy and anger |
| EmotionAnalysis.Candidates | emotion-analysis.tsx:119-125 | the six charted emotions |
| EmotionAnalysis.Distribution | emotion-analysis.tsx:119-126 | exactly the candidate slices with a positive value |
| EmotionAnalysis.FearNeverCharted | emotion-analysis.tsx:119-126 | the fear slice is never charted |
| EmotionAnalysis.LoveCharted | emotion-analysis.tsx:119-126 | the love slice is charted iff some positive comment scores above 0.8 |
| EmotionAnalysis.Entries | emotion-analysis.tsx:167 | the eight emotions with their names and totals, in key order |
| EmotionAnalysis.DominantMeaning | emotion-analysis.tsx:167-168 | the fold gives "neutral" 0 when no value is positive, else the first entry with the largest value |
| EmotionAnalysis.DominantEmotionMeaning | emotion-analysis.tsx:167-168 | the dominant emotion is a real emotion with the largest total whenever one total is positive |
| BrandAssistant.Route | ai-brand-assistant.tsx:41-86 | the first topic whose pair of words the lowercased message contains, in the order sentiment, mentions, improve, trends, else the overview |
| BrandAssistant.RouteIgnoresCase | ai-brand-assistant.tsx:41 | the routing ignores letter case |
| BrandAssistant.Verdict | ai-brand-assistant.tsx:49-51 | excellent iff above 0.7, good iff in (0.5, 0.7], needs attention iff at most 0.5 |
| BrandAssistant.VisibilityOf | ai-brand-assistant.tsx:56-60 | good iff more than 50 mentions, building iff 21 to 50, needs marketing iff at most 20 |
| BrandAssistant.TrendOf | ai-brand-assistant.tsx:72-78 | among the first ten comments: positive rising iff more positives, negative rising iff more negatives, stable on a tie |
| BrandAssistant.TrendUsesFirstTen | ai-brand-assistant.tsx:72-73 | comments after the tenth never change the trend |
| BrandAssistant.PositivePercent | ai-brand-assistant.tsx:86 | the positive share in percent, in [0, 100], and 0 without comments |
| BrandAssistant.Respond | ai-brand-assistant.tsx:39-87 | the kind of reply is exactly the routed topic, and its figures are the ones the page reports: mean score with its verdict and the positive and negative counts; total with its visibility band; complaint advice iff some comment is negative; trend of the first ten with the most mentioned source; total with the positive percentage |
| BrandAssistant.ImproveAdviceIffNegative | ai-brand-assistant.tsx:63-69 | the improvement reply gives complaint advice iff some comment is negative |
| BrandAssistant.SentimentReplyMeaning | ai-brand-assistant.tsx:43-52 | the sentiment reply carries the mean score (0 without comments), and positives plus negatives never exceed the comments |
| BrandAssistant.MostMentionedTextAsWritten | ai-brand-assistant.tsx:79-82 | the trends reply renders the tally object as the fixed text "[object Object]" |
| BrandAssistant.MostMentionedTextHidesSource | ai-brand-assistant.tsx:79-82 | comments all from Google and comments all from Facebook get the same text, though their top sources differ |
| BrandAssistant.MostMentionedSource | ai-brand-assistant.tsx:79-82 | the corrected reply names the first source with the largest count |
| BrandAssistant.MostMentionedMeaning | ai-brand-assistant.tsx:79-82 | no source iff there are no comments; otherwise a source with comments that no other source outnumbers |
| BrandAssistant.Chat.constructor | ai-brand-assistant.tsx:18-26 | the chat opens with the greeting under id 1 and an empty input |
| BrandAssistant.Chat.SetInput | ai-brand-assistant.tsx:26 | typing changes the input only |
| BrandAssistant.Chat.HandleSendMessage | ai-brand-assistant.tsx:90-124 | a blank input changes nothing; otherwise the input is cleared and the trimmed question and then the reply, or the apology on failure, are appended, so the chat keeps alternating question and answer after the greeting |
| PdfReport.CommentPages | pdf.tsx:64 | the ceiling of the comment count over ten: 0 iff no comments, 1 for 1 to 10 |
| PdfReport.PagesOfSections | pdf.tsx:62-66 | the sections add 1 for the summary, 2 for charts, the comment pages, 1 for topics and 1 for geography, each only when selected |
| PdfReport.CalculateReportSize | pdf.tsx:60-68 | the page count is the cover plus the selected sections' pages, so at least 1 |
| PdfReport.CoverOnly | pdf.tsx:60-68 | the report is the cover alone iff no section adds a page |
| PdfReport.MoreCommentsMorePages | pdf.tsx:64 | more comments never mean fewer pages |
| PdfReport.MoreSectionsMorePages | pdf.tsx:62-66 | selecting more sections never means fewer pages |
| PdfReport.PagesIgnoreRangeAndFormat | pdf.tsx:14-22 | the time range and format settings do not change the page count |
| ExcelExport.RowsOfSheets | excel.tsx:67-69 | the rows are the comments, authors and snapshots of the selected sheets |
| ExcelExport.SheetsOfSheets | excel.tsx:75-78 | one sheet each for summary, comments, authors and snapshots when selected |
| ExcelExport.CalculateDataSize | excel.tsx:65-71 | the running total gives the rows of the selected sheets, never more than all three lists together |
| ExcelExport.GetSheetCount | excel.tsx:73-80 | the selected sheets, but at least one and at most four |
| ExcelExport.FiltersChangeNothing | excel.tsx:14-22 | the filters setting changes neither rows nor sheets |
| ExcelExport.DefaultExportsEverything | excel.tsx:14-22 | the initial settings export every row on four sheets |
| ExcelExport.SizeKb | excel.tsx:261 | the shown size is the ceiling of rows over 1000: 0 iff no rows, and within 1000 rows above |
| Storage.MemStorage.GetUser | storage.ts:124-126 | finds a user iff one is stored under that id, and it is that record |
| HotHours.MaxMentions | hot-hours.tsx:128-130 | the largest mention count of the 168 cells: no cell exceeds it and some cell reaches it |
| HotHours.BusiestCellDarkest | hot-hours.tsx:104-130 | on the page's scale a cell with mentions is never gray, and a busiest cell gets the darkest blue |

## Left out

- The call to the remote inference service (routes.ts:33-50) is I/O: the model takes its outcome as a parameter, either an answer (parsed scores or a malformed body) or a failure.
- `Math.random`, `Date.now`, `new Date()` and `randomUUID` are parameters. These are the random draws in the classifier, the influence, the growth figures and the comparison charts; the clock of the store, the topic page, the influencer page and the chat; and the fresh ids.
- Calendar arithmetic uses UTC days, weekdays and hours of integer millisecond times; the browser's and server's local time zones are not modelled.
- File persistence, seed loading and the session store (storage.ts:73-122) are I/O, and their write failures are swallowed by the source.
- Express wiring, request parsing and validation, `requireAuth`, the authentication setup and the report endpoints in routes.ts are HTTP glue. Only the classifier, the influence formula, the `/api/analyze` text check and the configuration default are modelled.
- `getTopicBreakdown` and `getGeoData` (storage.ts:346-365) return fixed tables. The pages that only display them are not part of this model.
- The `group` argument of `getSnapshots` is accepted and never used by the store; the model ignores it, and the snapshot ids are dropped.
- Number and date rendering are not modelled: `toFixed`, `toLocaleString`, `toLocaleDateString`, `Math.round` on the KPI cards and the reply texts' digits. Types.FormatNumber and Types.FormatNumberAsWritten return the chosen suffix and the value in tenths instead of text.
- Arithmetic is on Dafny's exact `real` and unbounded `int`, not on IEEE doubles, so no claim is made about floating-point rounding of means, percentages and intensities.
- `toLowerCase` and `trim` are modelled on ASCII letters and ASCII white space only.
- The sentiment-over-time and reach charts (analysis.tsx:25-31, summary.tsx:36-39) only rename snapshot fields and format dates; they are not modelled.
- `generateTopicTimeline` (ai-topic-analysis.tsx:25-30) produces only random numbers and formatted dates; it is not modelled.
- `getEmotionIcon` and `getEmotionColor` (emotion-analysis.tsx:128-164) only pick icons and class names by name; they are not modelled.
- The toggle mutation on the sources page (sources.tsx:43-51) does nothing but refetch the comments; only the excluded-list update is modelled.
- The `minInfluence` box passes `parseInt` of the typed text to FilterPanel.UpdateFilter; text parsing (and the `NaN` of an empty box) is not modelled, the filter value is taken as given.
- Object key order: JavaScript lists integer-like keys of a plain object first, in numeric order. The tallies (Analysis, Summary, Comparison, BrandAssistant) keep first-insertion order for every key, which differs only for keys that look like array indices.
- Comparison.ComparisonData: when both terms are the same string, the source writes both chart values under one key and the second overwrites the first; the model keeps two separate values. Likewise a term spelled "date" overwrites the chart point's date in the source, while the model keeps the date and both values apart.
- BrandAssistant.Respond: returns the facts each reply states (verdict, counts, trend, most mentioned source) rather than the reply's wording.
- The brand assistant also loads 7 days of snapshots that no reply uses; that query is not modelled.
- In-place `sort` calls are modelled on values by a stable descending sort that returns a permutation of its input; aliasing of the sorted arrays is not modelled.

## Findings

| source | as written | input that shows it | evidently intended | confidence | as-written member | corrected member |
|---|---|---|---|---|---|---|
| types.ts:91-99 | the suffix is chosen before rounding to one decimal | 999,999 is shown as "1000.0K" | a value that rounds to 1000.0K is shown as "1.0M" | medium, not executed | Types.FormatNumberShowsThousandK | Types.FormatNumber |
| analysis.tsx:67-69 | the word counts live in a plain object, so reading `words[word]` with a fallback of 0 finds inherited members | a comment whose text is "constructor" reads `Object.prototype.constructor` instead of 0, and its count becomes a string | each word, "constructor" included, is counted from 0 | high, not executed | Analysis.ConstructorReadsInherited | Analysis.ConstructorCountedOnce |
| ai-brand-assistant.tsx:79-82 | the trends reply interpolates the tally object itself | comments all from Google and comments all from Facebook both get "Most mentions come from [object Object]" | the reply names the source with the most mentions | high, not executed | BrandAssistant.MostMentionedTextHidesSource | BrandAssistant.MostMentionedMeaning |
