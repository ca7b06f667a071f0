# Meta Ads dashboard client — verified model of its core

This project models, in Dafny, the logic at the heart of a React/TypeScript
dashboard for Meta (Facebook) advertising: the reporting services that talk to
the Graph API, the comment workflow, the parsers that read language-model
replies, the shareable dashboard link, the small ranking and charting helpers
of the analytics pages, and the application's global stores. Network, timers,
the language model, rendering and the DOM are stripped away; what remains is
stated as Dafny datatypes, functions, classes and methods, and properties of
each are proved.

Modules (one file each):

- `RequestQueue` — the `makeRequest` queue shared by `MetaAnalyticsService` and `MetaApiService`: one fetch at a time in submission order, the `requestDelay` pause after a success, the retry of error codes 4 and 17 after twice that delay. It is a class with a FIFO of pending calls, a scripted transport and a ghost clock with a trace of fetch start times.
- `Insights` — daily rows and totals with zero-guarded CTR/CPC/CPM/cost per purchase, purchase and revenue extraction from action lists, the funnel's extract helpers and conversion ratios, trend and growth deltas, the geographic city list and per-region totals, and the ad-account guards.
- `Demographics` — the age and gender rollups: one bucket per key with reach and spend summed, the share of reach, and age buckets ordered by their lower bound.
- `SearchCache` — the `useSearchCache` time-limited cache.
- `Suggestions` — `OpenAIService`: error wrapping, the interest-suggestion cache with its sorted key, the bracketed-suggestion extraction, and the exploration cache.
- `Comments`, `CommentService`, `MetaComments`, `CommentViews` — the ad comments; `MetaCommentService` (dedup-by-id cache, sentiment from the classifier's reply, handlers, reply, hide, query); the `useMetaComments` hook (keyword sentiment, flattening, newest-first order, reply and hide); and the screens on top (report filter, sort, CSV and sort headers; the reply desk's filter, templates and drafts, shared by `AICustomerService` and `CommentList`).
- `ErrorMonitor` — the newest-first error log capped at 100 entries and its statistics.
- `CopyAnalyzer` — the line parsers of `analyzeCopy` and `compareVariations`, and the score labels and colours.
- `AdCopy` — the `AICopywriting` workspace: the reply's section parser, the per-field limits, the character counter and the input guards.
- `ShareLink` — building a share token and link (`ShareLinkModal`) and validating it (`SharedAnalyticsDashboard`).
- `AudienceAnalysis`, `PurchaseTrends`, `CreativePerformance`, `TrendingCities`, `GeoMap`, `AudienceResults`, `DiscoverChat` — the helpers embedded in the analytics and workforce pages.
- `Stores` — the editor, AI chat, analysis and auth stores, each a class whose actions replace some fields and keep the others.
- `Wrappers`, `Text`, `Sorting`, `Sums` — shared support: `Option`/`Result`, JavaScript string operations (`split`, `includes`, `trim`, `toLowerCase`, `parseInt`), a stable insertion sort by a total preorder (on sequences and in place on an array) and sums over sequences.

Times are integers in milliseconds, amounts are `real`, and the clock, random
ids and every network or model answer are parameters of the operations that
use them.

## Model

| member | source | states |
|---|---|---|
| RequestQueue.Classify | src/services/metaAnalytics.ts:19-27 | a reply succeeds iff its status is OK and it has no `error` body; a failure carries the body's error code, and a thrown fetch or parse carries none |
| RequestQueue.AttemptsBounded | src/services/metaAnalytics.ts:14-38 | one request makes at least 1 and at most `retries + 1` fetches |
| RequestQueue.ResolvedAfterDelay | src/services/metaAnalytics.ts:29-31 | a request that resolves has waited at least `requestDelay` after its last fetch |
| RequestQueue.AlwaysRateLimited | src/services/metaAnalytics.ts:14-38 | a request that is always rate-limited makes `retries + 1` fetches (4 with the default 3), waits `2 × requestDelay` between them and rejects with the last rate-limit failure |
| RequestQueue.RateLimitThenSuccess | src/services/metaAnalytics.ts:33-36 | one rate-limit failure and then a success: two fetches, and the caller gets the success (the intended behaviour) |
| RequestQueue.OtherFailureNotRetried | src/services/metaAnalytics.ts:33-38 | any other failure rejects after one fetch and no wait |
| RequestQueue.AsWrittenAttempt | src/services/metaAnalytics.ts:32-41 | as written, an attempt leaves its caller unsettled and blocks the queue exactly when the retry condition holds |
| RequestQueue.RetryStallsAsWritten | src/services/metaAnalytics.ts:33-41 | for a rate limit followed by a success, the code as written stalls while the intended run resolves with the success |
| RequestQueue.AsWrittenAgreesWithoutRetry | src/services/metaAnalytics.ts:14-39 | when no retry happens, the code as written and the corrected model settle the same way after the same time |
| RequestQueue.FetchUntilFinal | src/services/metaAnalytics.ts:16-38 | the retry loop of one call fetches until an answer that is not retried; the fetch log stays spaced by the required gaps and in submission order, and the loop's fetches and waits followed by the last attempt make up the run `Attempts` describes |
| RequestQueue.MetaRequestQueue.ForAnalytics | src/services/metaAnalytics.ts:6-7 | the analytics service's queue starts empty with `requestDelay = 1000` |
| RequestQueue.MetaRequestQueue.ForApi | src/services/metaApi.ts:7-8 | the API service's queue starts empty with `requestDelay = 300`, so its backoff is 600 ms |
| RequestQueue.MetaRequestQueue.Submit | src/services/metaAnalytics.ts:14-16 | `makeRequest` puts the call at the end of the queue under the next id and changes nothing else |
| RequestQueue.MetaRequestQueue.Step | src/services/metaAnalytics.ts:16-41 | the oldest pending call runs next and settles with the outcome of `Attempts`; the queue stays one-at-a-time, in submission order and spaced |
| RequestQueue.MetaRequestQueue.RunAttempts | src/services/metaAnalytics.ts:17-38 | the fetches of one dequeued call, retried in place, with the outcome of `Attempts`; the queue is idle again afterwards |
| RequestQueue.MetaRequestQueue.StepAsWritten | src/services/metaAnalytics.ts:16-41 | the same step as written: a retried call is never settled and the queue stalls from then on |
| RequestQueue.MetaRequestQueue.AttemptAsWritten | src/services/metaAnalytics.ts:17-39 | the single fetch of a dequeued call as written and the wait that follows it |
| Insights.Trunc | src/services/metaAnalytics.ts:497 | `parseInt` of a number truncates toward zero |
| Insights.Ratio | src/services/metaAnalytics.ts:473-476 | a zero-guarded ratio: `r × den = num × scale` when `den > 0`, else 0 |
| Insights.RevenueAppend | src/services/metaAnalytics.ts:485-501 | appending an action adds its `value` (revenue) or its truncated `value` (purchases) exactly when its type is `purchase` |
| Insights.NoPurchasesNoRevenue | src/services/metaAnalytics.ts:485-501 | actions without a purchase entry, an absent list included, contribute 0 |
| Insights.TotalsAreSums | src/services/metaAnalytics.ts:456-468 | each of the five totals is the sum of that column over the daily rows |
| Insights.MetricsOf | src/services/metaAnalytics.ts:471-477 | ctr, cpc, cpm and cost per purchase satisfy their defining equations over the totals, and each is 0 when its denominator is 0 |
| Insights.DaysOf | src/services/metaAnalytics.ts:443-453 | one daily row per input row, in order |
| Insights.TransformSums | src/services/metaAnalytics.ts:441-483 | `transformInsightsData`: the daily rows are the input's rows in order, and the totals are their column sums |
| Insights.EmptyReport | src/services/metaAnalytics.ts:441-483 | no rows give an empty report with every metric 0 |
| Insights.FindIndex | src/services/metaApi.ts:241 | the first action of the given type, or none when no action has it |
| Insights.FirstActionOnly | src/services/metaApi.ts:238-244 | only the first matching action of a row counts, whatever follows it |
| Insights.NoActionNoValue | src/services/metaApi.ts:238-244 | a row without a matching action, or without actions, contributes 0 |
| Insights.ExtractAppend | src/services/metaApi.ts:234-251 | `extractValue`, `extractActionValue` and `extractVideoWatchData` are sums over the rows: splitting the rows splits each sum |
| Insights.CalculateTrend | src/services/metaApi.ts:253-258 | 0 for fewer than two rows or a zero previous value; otherwise the percentage change from the second-last row to the last |
| Insights.ConversionOf | src/services/metaApi.ts:210-221 | cpa, roas (unscaled), conversion rate and ltv satisfy their defining equations, each 0 when its denominator is 0 |
| Insights.ConsiderationOf | src/services/metaApi.ts:191-207 | the consideration block's clicks are the summed `clicks` |
| Insights.FunnelOf | src/services/metaApi.ts:177-227 | purchases and revenue are the first-purchase-action sums, and the conversion block is computed from the summed spend and the consideration clicks |
| Insights.CalculateGrowth | src/services/metaAnalytics.ts:229-242 | with previous spend, growth is the percentage change of spend; without, the CTR's percentage distance from the 2.0 average |
| Insights.GrowthSign | src/services/metaAnalytics.ts:229-242 | growth is positive exactly when spend rose, or, without a previous period, when the CTR beats 2.0 |
| Insights.CitiesUnsorted | src/services/metaApi.ts:72-80 | one city per row, in order, with the row's CTR fraction times 100 |
| Insights.Cities | src/services/metaApi.ts:72-81 | the cities are a permutation of the per-row cities ordered by spend, largest first, cities of equal spend in row order |
| Insights.CityCtrIsPercent | src/services/metaApi.ts:77 | every listed city's CTR is some row's CTR fraction times 100 |
| Insights.RegionTotalsAreSums | src/services/metaApi.ts:90-93 | the totals map has a key for exactly the regions that occur, each holding the summed spend of that region's rows |
| Insights.SpendDays | src/services/metaApi.ts:85-89 | one spend row per input row, in order |
| Insights.GetGeoInsights | src/services/metaApi.ts:45-117 | a missing or empty account id fails with its message before any request; otherwise one request, whose failure is passed on |
| Insights.GeoGrowthBounded | src/services/metaApi.ts:80 | with `Math.random()` in [0, 1), every simulated growth lies in [−30, 30) |
| Insights.GetFunnelInsights | src/services/metaApi.ts:119-232 | a missing or empty account id fails before any request; otherwise three requests, and the call succeeds iff all three do |
| Demographics.GroupsAreKeys | src/services/metaAnalytics.ts:166-182 | the `Map`'s keys in first-seen order: each key once, and exactly the keys of the rows |
| Demographics.AbsentGroupNoReach | src/services/metaAnalytics.ts:173-181 | a key no row carries accumulates no reach |
| Demographics.AbsentGroupNoSpend | src/services/metaAnalytics.ts:173-181 | a key no row carries accumulates no spend |
| Demographics.GroupsPartitionReach | src/services/metaAnalytics.ts:166-182 | the groups' reaches add up to `totalReach` |
| Demographics.Share | src/services/metaAnalytics.ts:187 | `totalReach > 0 ? reach / totalReach : 0`: share × total = reach, else 0 |
| Demographics.Entries | src/services/metaAnalytics.ts:184-190 | one bucket per key, in key order, with its share, spend and reach read from the maps |
| Demographics.Unsorted | src/services/metaAnalytics.ts:184-190 | one bucket per distinct key |
| Demographics.Accumulate | src/services/metaAnalytics.ts:163-182 | the `forEach` fills the maps with exactly the keys seen, each holding its summed reach and spend, and `totalReach` is the total reach |
| Demographics.ProcessAgeData | src/services/metaAnalytics.ts:162-196 | `processAgeData` returns the age buckets sorted by age start |
| Demographics.ProcessGenderData | src/services/metaAnalytics.ts:198-227 | `processGenderData` returns the lower-cased gender buckets in first-seen order |
| Demographics.AgeLeTotalPreorder | src/services/metaAnalytics.ts:191-195 | the age comparator is a total preorder, so the sort is well defined |
| Demographics.UnsortedReach | src/services/metaAnalytics.ts:184-190 | the buckets' reaches add up to the total reach |
| Demographics.SharesSumToOne | src/services/metaAnalytics.ts:187 | shares taken against a positive total that the reaches add up to sum to 1 |
| Demographics.GenderSharesSumToOne | src/services/metaAnalytics.ts:198-227 | with positive total reach the gender shares add up to 1 |
| Demographics.AgeSharesSumToOne | src/services/metaAnalytics.ts:162-196 | with positive total reach the age shares add up to 1; sorting keeps every bucket |
| Demographics.NoReachNoShares | src/services/metaAnalytics.ts:187 | without positive total reach every age and gender share is 0 |
| Demographics.GenderBucketsPerKey | src/services/metaAnalytics.ts:198-227 | one gender bucket per distinct lower-cased gender, in first-seen order, carrying that key's summed reach and spend; every row's gender has its bucket |
| Demographics.AgeBucketPerKey | src/services/metaAnalytics.ts:162-196 | every row's age group has a bucket carrying that group's sums, and no group has two |
| Demographics.AgeBucketsAscending | src/services/metaAnalytics.ts:191-195 | age buckets come in ascending order of their age start |
| Comments.ItemsOf | src/services/metaCommentService.ts:49-55 | an ad without `comments.data` yields nothing; otherwise each of its comments, in order, paired with the ad's id |
| Comments.MarkHandled | src/services/metaCommentService.ts:130-133 | the comment with status `'handled'` and every other field as it was |
| CommentService.LabelAt | src/services/metaCommentService.ts:75 | the label word that starts at a position, if one does, and none when no label word starts there |
| CommentService.FirstLabel | src/services/metaCommentService.ts:75 | the regular expression's match: the leftmost position where a label word starts, and none when no label occurs |
| CommentService.SentimentOfWord | src/services/metaCommentService.ts:75 | a reply that is exactly a label word is read as that label |
| CommentService.LabelAtWord | src/services/metaCommentService.ts:75 | text starting with a label word is read as that label at position 0 |
| CommentService.Announce | src/services/metaCommentService.ts:170-172 | `notifyHandlers`: every registered handler, in order, receives the comment once |
| CommentService.Enrich | src/services/metaCommentService.ts:53-87 | a new comment is stored pending, with its ad's id and the sentiment read from the classifier's reply (neutral when the call fails) |
| CommentService.AbsorbKeeps | src/services/metaCommentService.ts:52-59 | one visit of the inner loop keeps the cache and its insertion order coherent and keeps every cached entry |
| CommentService.PollKeeps | src/services/metaCommentService.ts:49-63 | a poll keeps the store coherent, only extends the insertion order and never changes a cached entry |
| CommentService.PollCaches | src/services/metaCommentService.ts:49-63 | after a poll the cache holds exactly the ids it held and the ids fetched |
| CommentService.PollAnnounces | src/services/metaCommentService.ts:49-63 | a poll announces exactly the newly cached comments, each once to every handler, in first-seen order |
| CommentService.CachedNeverReannounced | src/services/metaCommentService.ts:52 | a poll that fetches only cached ids changes nothing: no re-processing and no announcement |
| CommentService.AbsorbAllAppend | src/services/metaCommentService.ts:49-63 | polling `xs + ys` is polling `xs` and then `ys` |
| CommentService.OrderMatchesDomain | src/services/metaCommentService.ts:175 | the insertion order lists every cached id once, so `getComments()` returns one comment per cached id |
| CommentService.Keep | src/services/metaCommentService.ts:177-183 | the comments matching every field the filter gives, in their order and with their repeats (`Sorting.Keep` with that test), and exactly those |
| CommentService.MetaCommentService.constructor | src/services/metaCommentService.ts:20-21 | an empty cache and no handlers |
| CommentService.MetaCommentService.NotifyHandlers | src/services/metaCommentService.ts:170-172 | appends one call per handler with the comment, and changes nothing else |
| CommentService.MetaCommentService.Ingest | src/services/metaCommentService.ts:52-59 | a comment whose id is cached is skipped; a new one is enriched, cached under its id and announced |
| CommentService.MetaCommentService.IngestAd | src/services/metaCommentService.ts:50-62 | the inner loop over one ad's comments is the poll of that ad's items |
| CommentService.MetaCommentService.FetchNewComments | src/services/metaCommentService.ts:35-67 | a failed fetch (error body or thrown) changes nothing and is not rethrown; otherwise the poll of all ads' comments, ad by ad |
| CommentService.MetaCommentService.ReplyToComment | src/services/metaCommentService.ts:110-139 | an API error is rethrown with its message and leaves the cache alone; success marks a cached comment handled and is a no-op for an unknown id |
| CommentService.MetaCommentService.HideComment | src/services/metaCommentService.ts:141-163 | fails exactly when the API refuses, with its message, and never touches the cache |
| CommentService.MetaCommentService.OnNewComment | src/services/metaCommentService.ts:165-166 | adds the handler to the set (once), and changes nothing else |
| CommentService.MetaCommentService.Unsubscribe | src/services/metaCommentService.ts:167 | removes exactly that handler |
| CommentService.MetaCommentService.Values | src/services/metaCommentService.ts:175 | the cached comments in insertion order |
| CommentService.MetaCommentService.GetComments | src/services/metaCommentService.ts:174-186 | no filter gives all cached comments in insertion order; a filter gives those matching every given field, in insertion order and with their repeats |
| CommentService.Subscribe | src/services/metaCommentService.ts:166 | the handler set with `h` added |
| CommentService.Unsubscribed | src/services/metaCommentService.ts:167 | the handler set with exactly `h` removed |
| CommentService.UnsubscribedNoRepeats | src/services/metaCommentService.ts:167 | removing a handler keeps the set free of repeats |
| CommentService.SubscribeThenUnsubscribe | src/services/metaCommentService.ts:165-168 | calling the returned unsubscribe right after subscribing a new handler restores the handler set exactly |
| MetaComments.KeywordSentiment | src/hooks/useMetaComments.ts:56-67 | positive exactly when a positive keyword occurs in the lower-cased message; negative exactly when none does and a negative one does; never spam |
| MetaComments.PositiveWins | src/hooks/useMetaComments.ts:63-67 | a message holding a positive keyword is positive, whatever negative keywords it also holds |
| MetaComments.Tag | src/hooks/useMetaComments.ts:69-74 | a fetched comment is stored pending, with its ad's id and its keyword sentiment |
| MetaComments.TagAll | src/hooks/useMetaComments.ts:53-77 | one tagged comment per fetched comment, in order |
| MetaComments.TagAllAppend | src/hooks/useMetaComments.ts:53-77 | tagging distributes over concatenation |
| MetaComments.PushAll | src/hooks/useMetaComments.ts:52-77 | the nested `forEach` pushes every comment of every ad with a comments block, tagged, in visiting order |
| MetaComments.PushAd | src/hooks/useMetaComments.ts:54-76 | the inner loop appends one ad's tagged comments after those already pushed |
| MetaComments.CollectComments | src/hooks/useMetaComments.ts:52-82 | the fetched list holds exactly the tagged comments, each as often as fetched, newest first, comments of the same time in fetched order |
| MetaComments.FlattenTagged | src/hooks/useMetaComments.ts:52-77 | every fetched comment is pending and has an ad id, and only ads with a comments block contribute |
| MetaComments.MarkHandledWhere | src/hooks/useMetaComments.ts:137-141 | same length; the comments with that id become handled and the others stay as they were |
| MetaComments.RemoveId | src/hooks/useMetaComments.ts:162 | the comments with another id remain, in order and with their repeats, and no other |
| MetaComments.RemoveIdTwice | src/hooks/useMetaComments.ts:162 | hiding the same id twice is hiding it once |
| MetaComments.CommentsHook.constructor | src/hooks/useMetaComments.ts:19-24 | no comments, loading, no error, no more pages, page 1 |
| MetaComments.CommentsHook.FetchComments | src/hooks/useMetaComments.ts:26-92 | without a token or an account the connect message is set; a failed fetch sets its message; a successful one stores the fetched comments newest first and clears `hasMore`; loading ends false |
| MetaComments.CommentsHook.LoadMore | src/hooks/useMetaComments.ts:97-109 | nothing happens while fetching or when `hasMore` is false; otherwise the page advances by one |
| MetaComments.CommentsHook.HandleComment | src/hooks/useMetaComments.ts:111-168 | without a token it fails with 'Authentication required' before any request; otherwise the outcome and the list are those of `HandleOutcome` and `HandledComments` |
| MetaComments.HandleOutcome | src/hooks/useMetaComments.ts:116-167 | the call fails exactly when a request is sent and the API refuses it |
| MetaComments.HandledComments | src/hooks/useMetaComments.ts:116-163 | a reply without text, or a refused request, leaves the list unchanged |
| MetaComments.ReplyMarksOnlyThatComment | src/hooks/useMetaComments.ts:117-141 | a successful reply with text marks exactly the comments with that id handled, message kept, and leaves the rest alone |
| MetaComments.HideRemovesOnlyThatComment | src/hooks/useMetaComments.ts:142-162 | after a successful hide the list is the old one with exactly the comments of that id taken out, the others in order |
| CommentViews.Filtered | src/components/reports/CommentReport.tsx:19-36 | the comments passing the campaign, status and sentiment filters, in their order and with their repeats, and no other |
| CommentViews.Rank | src/components/reports/CommentReport.tsx:45-46 | the sentiment rank lies in 0..3 and is 2 exactly for neutral or missing |
| CommentViews.BeforeTotalPreorder | src/components/reports/CommentReport.tsx:39-50 | the comparator is a total preorder for either column and direction |
| CommentViews.Processed | src/components/reports/CommentReport.tsx:18-53 | a rearrangement of the filtered comments |
| CommentViews.ProcessedIsFilteredSubList | src/components/reports/CommentReport.tsx:19-36 | the report holds each passing comment exactly as often as the list does, and nothing else |
| CommentViews.ProcessedOrdered | src/components/reports/CommentReport.tsx:39-50 | the report is ordered by the chosen column in the chosen direction |
| CommentViews.ProcessedStable | src/components/reports/CommentReport.tsx:39-50 | comments with the same key in the sort column keep the order the filter gave them |
| CommentViews.Quote | src/components/reports/CommentReport.tsx:68 | a cell between double quotes, its content unchanged |
| CommentViews.Rows | src/components/reports/CommentReport.tsx:57-68 | one CSV row per listed comment, in order |
| CommentViews.JoinNoBreak | src/components/reports/CommentReport.tsx:66-69 | joining line-free parts with a line-free separator gives one line |
| CommentViews.CsvLines | src/components/reports/CommentReport.tsx:55-69 | when no cell holds a line break, the CSV's lines are the header and one row per listed comment, in order |
| CommentViews.RowSingleLine | src/components/reports/CommentReport.tsx:68 | a row whose cells hold no line break is one line |
| CommentViews.Clicked | src/components/reports/CommentReport.tsx:152-176 | the clicked column becomes active; the active column flips its direction, another one starts descending |
| CommentViews.ClickTwice | src/components/reports/CommentReport.tsx:152-176 | two clicks on the active column restore the state; two clicks on the other column leave it active ascending |
| CommentViews.ReportSort.constructor | src/components/reports/CommentReport.tsx:12-13 | the report starts sorted by date, newest first |
| CommentViews.ReportSort.ClickHeader | src/components/reports/CommentReport.tsx:152-176 | the header click moves the sort state as `Clicked` says |
| CommentViews.Visible | src/components/ai/AICustomerService.tsx:16-20 | the comments of the tab whose message contains the search term, case aside, in their order and with their repeats, and no other |
| CommentViews.VisibleAll | src/components/comments/CommentList.tsx:13-17 | the 'all' tab with an empty search shows every comment, in order |
| CommentViews.Template | src/components/ai/AICustomerService.tsx:30-39 | the thank-you template for positive, the apology for negative, the generic one otherwise; never empty |
| CommentViews.FirstIndex | src/components/ai/AICustomerService.tsx:26 | the first position holding the id, or none when no comment has it |
| CommentViews.Find | src/components/ai/AICustomerService.tsx:26 | a comment with that id from the list, or none when no comment has it |
| CommentViews.DraftFor | src/components/ai/AICustomerService.tsx:26-40 | the draft is empty exactly when no comment has the id |
| CommentViews.DraftBoard.constructor | src/components/ai/AICustomerService.tsx:14 | no drafts |
| CommentViews.DraftBoard.GenerateResponse | src/components/ai/AICustomerService.tsx:22-48 | stores `DraftFor` under the id and keeps the other drafts |
| CommentViews.DraftBoard.SendResponse | src/components/ai/AICustomerService.tsx:50-64 | no draft or an empty one sends nothing; otherwise the draft is sent as a reply and dropped only when that succeeds |
| CommentViews.DraftBoard.Dismiss | src/components/ai/AICustomerService.tsx:282-286 | removes that comment's draft and no other |
| CommentViews.UnknownIdEmptyDraft | src/components/comments/CommentList.tsx:23-39 | generating for an unknown id stores an empty draft |
| CommentViews.KnownIdDraft | src/components/comments/CommentList.tsx:23-36 | a known comment gets the template of its sentiment |
| ErrorMonitor.Logged | src/services/errorMonitor.ts:18-21 | the new entry comes first; below the cap the old log follows whole, at the cap it follows without its oldest entry |
| ErrorMonitor.Recent | src/services/errorMonitor.ts:32 | the entries logged strictly less than an hour before `now`, in log order and with their repeats, and no other |
| ErrorMonitor.Mentioning | src/services/errorMonitor.ts:37-38 | the entries whose message contains the text, case-sensitively, in log order and with their repeats, and no other |
| ErrorMonitor.Monitor.constructor | src/services/errorMonitor.ts:8 | an empty log |
| ErrorMonitor.Monitor.LogError | src/services/errorMonitor.ts:11-28 | the log becomes `Logged(old log, entry)` and stays within the 100-entry cap |
| ErrorMonitor.Monitor.GetErrorStats | src/services/errorMonitor.ts:30-40 | `total` is the number of stored entries, `lastHour` the number of entries under an hour old, and the rate-limit and API counts are the numbers of those recent entries whose message contains `rate limit` and `API` (case-sensitively), so each is at most `lastHour` |
| ErrorMonitor.LoggedShape | src/services/errorMonitor.ts:9-21 | the log never exceeds 100 entries, the new entry is at index 0 and the survivors keep their order after it |
| ErrorMonitor.LoggedAll | src/services/errorMonitor.ts:11-21 | after n entries are logged into an empty log it holds the newest `min(n, 100)` of them, newest first |
| ErrorMonitor.StatsWindow | src/services/errorMonitor.ts:32 | an entry logged less than an hour ago counts in the last-hour statistics, and one logged an hour or more ago does not |
| CopyAnalyzer.Drop2 | src/services/copywritingAnalyzer.ts:82 | `slice(2)`: everything after the first two characters, empty for shorter text (characters, not UTF-16 units: see Left out) |
| CopyAnalyzer.AnalyzeReply | src/services/copywritingAnalyzer.ts:66-108 | the parsing loop of `analyzeCopy` gives `Analysis(reply)`, the line-by-line reading of the reply |
| CopyAnalyzer.ScoreLineFirst | src/services/copywritingAnalyzer.ts:73-75 | a line containing `score:` records the trimmed key before its first colon with `parseInt` of the trimmed text after it, even when it is a bullet, and touches nothing else |
| CopyAnalyzer.FeedbackHeaderResets | src/services/copywritingAnalyzer.ts:76-78 | a `feedback:` line makes its key the current section and opens a fresh empty list for it, discarding earlier points |
| CopyAnalyzer.NothingRecognised | src/services/copywritingAnalyzer.ts:81-107 | lines without a score or header keyword leave the parser as it started, so bullets before any header are dropped, and every missing score reads 0 and every missing section `[]` |
| CopyAnalyzer.StartIgnores | src/services/copywritingAnalyzer.ts:72-89 | a fresh parser ignores a line holding none of the three keywords |
| CopyAnalyzer.ClassifyScoreLine | src/services/copywritingAnalyzer.ts:73-75 | the line `key: n` is read as the score `n` under `key` |
| CopyAnalyzer.ClassifyHeader | src/services/copywritingAnalyzer.ts:76-78 | the line `key:` with a key ending in `feedback` opens that section |
| CopyAnalyzer.PointsFresh | src/services/copywritingAnalyzer.ts:81-87 | points read into a freshly opened feedback section become its whole list, in order |
| CopyAnalyzer.FoldBlock | src/services/copywritingAnalyzer.ts:72-89 | reading a section's score line, header and bullets sets its score and replaces its points |
| CopyAnalyzer.AnalysisOfRender | src/services/copywritingAnalyzer.ts:66-108 | parsing a reply written in the requested format gives back the analysis it was written from |
| CopyAnalyzer.CompareReply | src/services/copywritingAnalyzer.ts:155-175 | the parsing loop of `compareVariations` gives `ComparisonOf(reply)` |
| CopyAnalyzer.ClassifyWinner | src/services/copywritingAnalyzer.ts:161-163 | `winner: t` is read as the winner `t`, and `null` as none |
| CopyAnalyzer.RecommendationsStep | src/services/copywritingAnalyzer.ts:166-167 | bullet lines append their recommendations, in order |
| CopyAnalyzer.ComparisonRoundTrip | src/services/copywritingAnalyzer.ts:155-175 | reading a comparison reply written in the requested format gives back its winner, confidence and recommendations |
| CopyAnalyzer.LabelsMonotone | src/services/copywritingAnalyzer.ts:182-196 | a higher score never gets a worse label, and the colour changes exactly where the label does |
| AdCopy.With | src/components/workforce/AICopywriting.tsx:183 | the spread `{...prev, [field]: value}` sets that one field and keeps every other |
| AdCopy.FieldOf | src/components/workforce/AICopywriting.tsx:91 | a lower-cased label names a field exactly when it is one of the four keys |
| AdCopy.FieldOfKey | src/components/workforce/AICopywriting.tsx:91 | every field's own key is recognised as that field |
| AdCopy.ParseReply | src/components/workforce/AICopywriting.tsx:80-94 | the loop over the `\n\n`-separated sections computes the copy the section fold specifies |
| AdCopy.FoldAppend | src/components/workforce/AICopywriting.tsx:88-94 | applying the sections of two parts of a reply is applying the first part, then the second |
| AdCopy.Untouched | src/components/workforce/AICopywriting.tsx:81-93 | a field no section names keeps the value it started with |
| AdCopy.LastWins | src/components/workforce/AICopywriting.tsx:88-94 | when several sections name a field, the last of them gives its value |
| AdCopy.UnnamedStaysEmpty | src/components/workforce/AICopywriting.tsx:81-93 | a field the reply never names comes out empty |
| AdCopy.NoSeparatorIgnored | src/components/workforce/AICopywriting.tsx:89-90 | a section without `:\n` sets nothing |
| AdCopy.UnknownLabelIgnored | src/components/workforce/AICopywriting.tsx:89-91 | a section whose label is none of the four keys sets nothing |
| AdCopy.EditorTextRoundTrip | src/components/workforce/AICopywriting.tsx:80-111 | parsing the text written to the editor gives back the copy it was written from, when no field holds a blank line |
| AdCopy.Edited | src/components/workforce/AICopywriting.tsx:181-185 | an edit whose `.length` in UTF-16 code units exceeds the field's limit is refused, any other replaces that field only |
| AdCopy.EditKeepsLimits | src/components/workforce/AICopywriting.tsx:181-185 | edits keep every field within its limit in UTF-16 code units |
| AdCopy.CharacterCountReadsBack | src/components/workforce/AICopywriting.tsx:187-189 | the counter shows the field's `.length` in UTF-16 code units and its limit, separated by `/` |
| AdCopy.FullCopyLines | src/components/workforce/AICopywriting.tsx:139 | the text sent for analysis is the four fields, one per line, in order |
| AdCopy.Workspace.constructor | src/components/workforce/AICopywriting.tsx:20-29 | the copy starts blank, with no error and no analysis |
| AdCopy.Workspace.InputChange | src/components/workforce/AICopywriting.tsx:181-185 | the copy becomes the edited copy (limit in UTF-16 code units); error and analysis stay |
| AdCopy.Workspace.Generate | src/components/workforce/AICopywriting.tsx:42-127 | a blank description sets the error and sends nothing; otherwise a reply replaces the copy with its parse and a failure keeps the copy and sets the error |
| AdCopy.Workspace.Analyze | src/components/workforce/AICopywriting.tsx:129-179 | without a headline and a description the error is set; otherwise a reply gives the analysis and a failure keeps the old one and sets the error |
| ShareLink.TokenData | src/components/ShareLinkModal.tsx:35-40 | the payload holds exactly the id, access, expiry and creation time |
| ShareLink.TokenRoundTrip | src/components/ShareLinkModal.tsx:43-44 | a token can always be built, is never empty, and decodes to its payload |
| ShareLink.DecodedSteps | src/components/SharedAnalyticsDashboard.tsx:24-26 | decoding is base64, then percent-decoding, then JSON parsing |
| ShareLink.Link | src/components/ShareLinkModal.tsx:47 | the link is the origin, `/analytics/shared/` and the token |
| ShareLink.ShareLinkModal.constructor | src/components/ShareLinkModal.tsx:12-16 | view access, never expiring, not generating, no error and no link |
| ShareLink.ShareLinkModal.GenerateShareLink | src/components/ShareLinkModal.tsx:24-55 | a missing id sets the error only; otherwise the link for the current choices is set, or the error when encoding fails |
| ShareLink.ShareLinkModal.SetAccessType | src/components/ShareLinkModal.tsx:12-22 | sets the access type; when it changes while the modal is open on a dashboard, the effect regenerates the link for the new access, else nothing else changes |
| ShareLink.ShareLinkModal.SetExpiresIn | src/components/ShareLinkModal.tsx:13-22 | sets the expiry; when it changes while the modal is open on a dashboard, the effect regenerates the link for the new expiry, else nothing else changes |
| ShareLink.ExpirationTime | src/components/SharedAnalyticsDashboard.tsx:60-67 | one, seven and thirty days for the three strings, zero for anything else |
| ShareLink.PlusDuration | src/components/SharedAnalyticsDashboard.tsx:35 | a numeric timestamp plus the duration is the expiry time |
| ShareLink.Validate | src/components/SharedAnalyticsDashboard.tsx:19-46 | a link is accepted exactly when it is present, decodes, has its four members truthy and is not past its expiry, and then shows id, access and expiry |
| ShareLink.SharedDashboard.constructor | src/components/SharedAnalyticsDashboard.tsx:9-11 | loading, no error and no data |
| ShareLink.SharedDashboard.ValidateShareToken | src/components/SharedAnalyticsDashboard.tsx:14-55 | loading ends; an accepted link sets the data, a rejected one the error and a redirect home after 3 seconds |
| ShareLink.OfferedRecognised | src/components/ShareLinkModal.tsx:143-146 | every expiry the modal offers is `never` or one with a positive duration |
| ShareLink.NeverExpires | src/components/SharedAnalyticsDashboard.tsx:34 | a `never` link passes the age check at any time |
| ShareLink.ExpiryBoundary | src/components/SharedAnalyticsDashboard.tsx:35-38 | a link is too old exactly when now is strictly past creation plus duration |
| ShareLink.FalsyRejected | src/components/SharedAnalyticsDashboard.tsx:29-31 | a missing or falsy member rejects the link |
| ShareLink.GeneratedLinkAccepted | src/components/SharedAnalyticsDashboard.tsx:19-46 | a generated link is accepted exactly until its expiry and shows what it was built with |
| SearchCache.Lookup | src/hooks/useSearchCache.ts:13-26 | a key is served exactly when it is stored and not more than five minutes old, and then with its stored data |
| SearchCache.AfterLookup | src/hooks/useSearchCache.ts:18-21 | a lookup deletes the looked-up entry when it has expired and changes nothing else |
| SearchCache.SearchResultCache.constructor | src/hooks/useSearchCache.ts:11 | the cache starts empty |
| SearchCache.SearchResultCache.GetCachedResult | src/hooks/useSearchCache.ts:13-26 | returns the lookup and leaves the record the lookup specifies |
| SearchCache.SearchResultCache.SetCacheResult | src/hooks/useSearchCache.ts:28-36 | stores the data with the current time under the key, keeping every other key |
| SearchCache.StoredThenFound | src/hooks/useSearchCache.ts:13-36 | a lookup at the instant of storing returns what was stored |
| SearchCache.ExpiryBoundary | src/hooks/useSearchCache.ts:18 | an entry is served exactly five minutes after storing and is gone a millisecond later |
| SearchCache.StoreIsolated | src/hooks/useSearchCache.ts:28-36 | storing one key changes no lookup of another |
| SearchCache.ExpiredStaysExpired | src/hooks/useSearchCache.ts:18-21 | an expired entry stays expired at every later time |
| SearchCache.LookupTwice | src/hooks/useSearchCache.ts:13-26 | a second lookup at the same time gives the same answer and record as the first |
| Suggestions.Wrap | src/services/openai.ts:23-26 | an `Error` is rethrown with the `OpenAI API Error: ` prefix, anything else as the generic message |
| Suggestions.CloseAt | src/services/openai.ts:112 | the lazy `.*?` ends at the first `]` on the same line |
| Suggestions.KeepNew | src/services/openai.ts:114 | the non-empty groups not already chosen, in reply order and with their repeats, and no other |
| Suggestions.Extract | src/services/openai.ts:111-115 | at most five new, non-empty suggestions; none for a missing reply |
| Suggestions.BracketsOfRender | src/services/openai.ts:86-93 | the bracket extraction reads back every name written in the requested format |
| Suggestions.CloseAtSkips | src/services/openai.ts:112 | the match closes at the first `]` when no line break comes before it |
| Suggestions.ExtractRendered | src/services/openai.ts:86-115 | a reply in the requested format with new names yields its first five names |
| Suggestions.KeepNewKeepsAll | src/services/openai.ts:114 | a list of new, non-empty names passes the filter unchanged |
| Suggestions.SuggestStep | src/services/openai.ts:66-128 | a missing key or no interests is the wrapped error with the cache unchanged; a success is one to five names; a failure caches nothing |
| Suggestions.ExploreStep | src/services/openai.ts:130-184 | a missing key is the wrapped error; a failure caches nothing; the cache stays well formed |
| Suggestions.SuggestionService.constructor | src/services/openai.ts:9-13 | the static cache starts empty |
| Suggestions.SuggestionService.GenerateInterestSuggestions | src/services/openai.ts:66-128 | sorts the caller's array in place when the request gets that far, and returns and caches what the step specifies |
| Suggestions.SuggestionService.ExploreInterest | src/services/openai.ts:130-184 | returns and caches what the exploration step specifies |
| Suggestions.SameInterestsSameKey | src/services/openai.ts:72 | the same interests in any order share one cache key |
| Suggestions.SuggestionsServedWhileFresh | src/services/openai.ts:73-76 | stored suggestions are served, whatever the model would say, for five minutes less a millisecond |
| Suggestions.SuggestionsStaleAtBoundary | src/services/openai.ts:74 | at exactly five minutes the cached suggestions are stale and the model is asked again |
| Suggestions.FailureNotCached | src/services/openai.ts:117-124 | a failed request leaves the cache as it was |
| Suggestions.ExplorationServedWhileFresh | src/services/openai.ts:133-136 | a stored exploration is served unchanged while fresh |
| Suggestions.ErrorsAreWrapped | src/services/openai.ts:15-28 | every reported error carries the prefix or is the generic message |
| AudienceAnalysis.AgeMultiplier | src/services/analysisService.ts:12-14 | the age range over 100 years, capped at 1 |
| AudienceAnalysis.GenderMultiplier | src/services/analysisService.ts:17 | 1 exactly for `all`, 0.5 for any other choice |
| AudienceAnalysis.BudgetMultiplier | src/services/analysisService.ts:20-23 | the mean budget over 100, capped at 1 |
| AudienceAnalysis.OverlapFraction | src/services/analysisService.ts:29 | 0.3 per audience, capped at 0.7 |
| AudienceAnalysis.OverlapWithinReach | src/services/analysisService.ts:29-30 | the overlap is the whole part of the overlapping share, and a non-negative reach bounds it |
| AudienceAnalysis.EffectivenessCapped | src/services/analysisService.ts:33-38 | the score is at most 100 and below the cap is the whole part of the weighted sum |
| AudienceAnalysis.SizeSumNonNegative | src/services/analysisService.ts:9 | non-negative audience sizes sum to a non-negative reach |
| AudienceAnalysis.ReachWithinSum | src/services/analysisService.ts:9-26 | the adjusted reach lies between 0 and the summed sizes, and within half of them when a gender is chosen |
| AudienceAnalysis.MultiplierBounds | src/services/analysisService.ts:14-26 | the combined multiplier lies between 0 and the gender multiplier |
| AudienceAnalysis.MetricsOverlapWithinReach | src/services/analysisService.ts:26-43 | the reported overlap is between 0 and the reported reach |
| AudienceAnalysis.EffectivenessWithoutAudiences | src/services/analysisService.ts:33-38 | with no audience the score is at most 80 |
| AudienceAnalysis.EffectivenessLabel | src/services/analysisService.ts:61-67 | each label holds exactly on its score band |
| AudienceAnalysis.Recommendations | src/services/analysisService.ts:69-98 | each piece of advice is given exactly when its test holds, and high and low overlap never both |
| PurchaseTrends.Window | src/components/analytics/PurchaseTrendsChart.tsx:22 | the window is the day and up to two days before it, three from the third day on |
| PurchaseTrends.MovingAverage | src/components/analytics/PurchaseTrendsChart.tsx:21-28 | every day is kept in order with its date and purchases, its trend the mean of its window |
| PurchaseTrends.PurchaseTrendsChart | src/components/analytics/PurchaseTrendsChart.tsx:12-28 | the placeholder exactly for absent or empty data, else one point per day |
| PurchaseTrends.FirstTrend | src/components/analytics/PurchaseTrendsChart.tsx:22-23 | the first day's trend is its own purchases |
| PurchaseTrends.ThreeDayTrend | src/components/analytics/PurchaseTrendsChart.tsx:22-23 | from the third day on the trend is the mean of three days |
| PurchaseTrends.TrendWithinWindow | src/components/analytics/PurchaseTrendsChart.tsx:22-23 | the trend lies between the least and the largest purchases of its window |
| CreativePerformance.SortedCreatives | src/components/analytics/CreativePerformance.tsx:37-41 | a reordering of the creatives, newest launch first, creatives of equal launch time in input order |
| CreativePerformance.SplitSorted | src/components/analytics/CreativePerformance.tsx:44-45 | the shown six and the hidden rest together are the sorted list |
| CreativePerformance.RecentNewer | src/components/analytics/CreativePerformance.tsx:37-45 | every shown card is at least as new as every hidden one |
| CreativePerformance.UndatedAfterDated | src/components/analytics/CreativePerformance.tsx:38-39 | an undated creative comes after every one launched after the epoch |
| CreativePerformance.TotalsCoverAll | src/components/analytics/CreativePerformance.tsx:97-125 | the tiles total every creative, shown or hidden |
| CreativePerformance.TotalsNonNegative | src/components/analytics/CreativePerformance.tsx:97 | non-negative counts give a non-negative total |
| CreativePerformance.MissingCtrPlain | src/components/analytics/CreativePerformance.tsx:163 | a creative without a rate is never highlighted |
| CreativePerformance.CreativeIcon | src/components/analytics/CreativePerformance.tsx:47-56 | the play icon exactly for `video`, the carousel icon exactly for `carousel`, case aside |
| CreativePerformance.IconIgnoresCase | src/components/analytics/CreativePerformance.tsx:48 | the icon does not depend on the type's case |
| TrendingCities.Ranked | src/components/analytics/geo/TrendingCities.tsx:28-32 | a reordering of the cities, highest `0.7·ctr + 0.3·growth` first, equal scores in input order |
| TrendingCities.TrendingPanel | src/components/analytics/geo/TrendingCities.tsx:16-35 | the placeholder exactly for no data, else the best-ranked city and the rest numbered from 2 |
| TrendingCities.TopIsBest | src/components/analytics/geo/TrendingCities.tsx:35 | the highlighted city scores at least as well as every city |
| TrendingCities.PanelCoversData | src/components/analytics/geo/TrendingCities.tsx:35-117 | the leader and the list are together exactly the cities of the data |
| TrendingCities.Round | src/components/analytics/geo/TrendingCities.tsx:71 | `Math.round` lands within a half of its argument |
| TrendingCities.GrowthBadge | src/components/analytics/geo/TrendingCities.tsx:63-71 | the arrow points up exactly for a non-negative growth |
| TrendingCities.BadgeMagnitude | src/components/analytics/geo/TrendingCities.tsx:71 | the number shown is the size of the growth to within a half |
| GeoMap.MetricValue | src/components/analytics/geo/GeoMap.tsx:71-75 | the selected metric's field of the region |
| GeoMap.MaxOf | src/components/analytics/geo/GeoMap.tsx:54 | the largest value of the metric in the data, none for no data |
| GeoMap.MaximumIsGreen | src/components/analytics/geo/GeoMap.tsx:53-68 | the region holding a positive maximum is green |
| GeoMap.CtrBandMonotone | src/components/analytics/geo/GeoMap.tsx:46-51 | a larger click-through rate never gets a worse band |
| GeoMap.ColorMonotone | src/components/analytics/geo/GeoMap.tsx:45-69 | with a non-negative maximum a larger value never gets a worse band |
| GeoMap.Matching | src/components/analytics/geo/GeoMap.tsx:77-80 | the regions whose name contains the term, case aside, in their order and with their repeats |
| GeoMap.MatchingMembers | src/components/analytics/geo/GeoMap.tsx:77-80 | a region is kept exactly when its name contains the term, case aside |
| GeoMap.FilteredData | src/components/analytics/geo/GeoMap.tsx:77-81 | the matching regions reordered, largest value of the metric first, equal values in input order |
| GeoMap.FilteredMembers | src/components/analytics/geo/GeoMap.tsx:77-81 | a region is listed exactly when it is in the data and matches |
| GeoMap.EmptyTermKeepsAll | src/components/analytics/geo/GeoMap.tsx:77-81 | an empty term lists every region |
| Stores.Appended | src/store/editorStore.ts:19-22 | the old content, a blank line and the new text, or the new text alone on an empty editor |
| Stores.AppendToCleared | src/store/editorStore.ts:19-23 | appending to a cleared editor gives exactly the appended text |
| Stores.AppendKeepsContent | src/store/editorStore.ts:19-22 | appending keeps the old content as a prefix |
| Stores.EditorStore.constructor | src/store/editorStore.ts:16-17 | no content, not saved |
| Stores.EditorStore.SetContent | src/store/editorStore.ts:18 | the content replaced, not saved |
| Stores.EditorStore.AppendContent | src/store/editorStore.ts:19-22 | the content appended, not saved |
| Stores.EditorStore.ClearContent | src/store/editorStore.ts:23 | no content, not saved |
| Stores.EditorStore.SetSaved | src/store/editorStore.ts:24 | changes the saved flag only |
| Stores.Stamped | src/store/aiChatStore.ts:31-37 | the stored message is the draft with the id and time added |
| Stores.AIChatStore.constructor | src/store/aiChatStore.ts:28-30 | three empty transcripts |
| Stores.AIChatStore.AddAudienceMessage | src/store/aiChatStore.ts:31-37 | appends to the audience transcript only |
| Stores.AIChatStore.AddAnalyticsMessage | src/store/aiChatStore.ts:38-44 | appends to the analytics transcript only |
| Stores.AIChatStore.AddWorkforceMessage | src/store/aiChatStore.ts:45-51 | appends to the workforce transcript only |
| Stores.AIChatStore.ClearAudienceMessages | src/store/aiChatStore.ts:52 | empties the audience transcript only |
| Stores.AIChatStore.ClearAnalyticsMessages | src/store/aiChatStore.ts:53 | empties the analytics transcript only |
| Stores.AIChatStore.ClearWorkforceMessages | src/store/aiChatStore.ts:54 | empties the workforce transcript only |
| Stores.Merged | src/store/analysisStore.ts:29-31 | the given filters win, every other filter keeps its value |
| Stores.MergeIdempotent | src/store/analysisStore.ts:29-31 | merging nothing changes nothing, and merging twice is merging once |
| Stores.AnalysisStore.constructor | src/store/analysisStore.ts:20-28 | the default filters and no interests |
| Stores.AnalysisStore.SetActiveFilters | src/store/analysisStore.ts:29-31 | merges the filters; the interests stay |
| Stores.AnalysisStore.SetSelectedInterests | src/store/analysisStore.ts:32 | replaces the interests; the filters stay |
| Stores.AnalysisStore.ClearAnalysis | src/store/analysisStore.ts:33-43 | back to the default filters and no interests |
| Stores.ClearTwice | src/store/analysisStore.ts:33-43 | clearing twice is clearing once |
| Stores.AuthStore.constructor | src/store/authStore.ts:8-12 | signed in with the built-in token, no account, initialising, no error |
| Stores.AuthStore.Login | src/store/authStore.ts:13-17 | the token set, signed in, no error; the account stays |
| Stores.AuthStore.Logout | src/store/authStore.ts:18-23 | no token, signed out, no account, no error |
| Stores.AuthStore.SetSelectedAccount | src/store/authStore.ts:24-26 | changes the account only |
| Stores.AuthStore.SetError | src/store/authStore.ts:27-29 | changes the error only |
| Stores.AuthStore.SetInitializing | src/store/authStore.ts:30-32 | changes the initialising flag only |
| Stores.Relogin | src/store/authStore.ts:13-23 | signing out and in again leaves no account chosen |
| AudienceResults.Without | src/components/AudienceResults.tsx:54 | the entries with another id, in order and with their repeats; none with the id is left |
| AudienceResults.WithoutMembers | src/components/AudienceResults.tsx:52-56 | an entry survives exactly when it was there with another id |
| AudienceResults.WithoutAbsent | src/components/AudienceResults.tsx:52-56 | removing an id nobody has changes nothing |
| AudienceResults.HandleAddInterest | src/components/AudienceResults.tsx:50-69 | the chosen list is toggled for the audience; the filters stay |
| AudienceResults.ToggleFlips | src/components/AudienceResults.tsx:50-73 | after a click the audience is selected exactly when it was not before |
| AudienceResults.ToggleKeepsOthers | src/components/AudienceResults.tsx:50-69 | other audiences keep their selection |
| AudienceResults.ToggleTwice | src/components/AudienceResults.tsx:50-69 | adding an audience and clicking it again restores the list |
| AudienceResults.FindKind | src/components/AudienceResults.tsx:26 | the first demographic entry of the kind, none when there is none |
| AudienceResults.GenderDistribution | src/components/AudienceResults.tsx:24-33 | the default split without a gender entry, else the rounded share of men and its complement |
| AudienceResults.GenderSharesAddUp | src/components/AudienceResults.tsx:24-33 | the two shares add up to 100 or 101 and stay within 0 to 100 for a share between 0 and 1 |
| AudienceResults.AgeDistribution | src/components/AudienceResults.tsx:35-48 | both branches give the five default bands |
| AudienceResults.AgesAddUp | src/components/AudienceResults.tsx:35-48 | five bands adding up to 100 for every audience |
| DiscoverChat.Starred | src/components/workforce/DiscoverChat.tsx:218-228 | the toggled id flips its membership, every other id keeps it |
| DiscoverChat.StarTwice | src/components/workforce/DiscoverChat.tsx:218-228 | starring twice restores the set |
| DiscoverChat.MatchingPrompts | src/components/workforce/DiscoverChat.tsx:232-234 | the prompts whose text contains the search, case aside, in their order and with their repeats |
| DiscoverChat.MatchingMembers | src/components/workforce/DiscoverChat.tsx:232-234 | a prompt is kept exactly when its text contains the search, case aside |
| DiscoverChat.EmptySearchKeepsAll | src/components/workforce/DiscoverChat.tsx:232-234 | an empty search keeps every prompt |
| DiscoverChat.FilteredPrompts | src/components/workforce/DiscoverChat.tsx:230-237 | only the selected category, when one is selected |
| DiscoverChat.AllCategoriesListed | src/components/workforce/DiscoverChat.tsx:230-237 | with no selection every category stays, in order, narrowed to its matches |
| DiscoverChat.OnlySelectedListed | src/components/workforce/DiscoverChat.tsx:235-237 | with a selection exactly the narrowed categories with that id are listed |
| DiscoverChat.Chat.constructor | src/components/workforce/DiscoverChat.tsx:22-36 | no messages, empty input, not loading, menu closed, no stars |
| DiscoverChat.Chat.HandleSubmit | src/components/workforce/DiscoverChat.tsx:56-94 | blank input or a request in flight does nothing; otherwise the trimmed question is sent and appended, then the answer when it succeeds |
| DiscoverChat.Chat.HandleEnhance | src/components/workforce/DiscoverChat.tsx:127-144 | blank input sends nothing; otherwise the input becomes the rewrite on success and the menu closes |
| DiscoverChat.Chat.ToggleStarPrompt | src/components/workforce/DiscoverChat.tsx:218-228 | the stars toggled for the id; nothing else changes |
| Sorting.SortInPlace | src/services/openai.ts:72 | `Array.prototype.sort` on the caller's array: afterwards in order, a permutation of what it held, and stable (tied elements keep their relative order) |
| Sorting.SortByStable | src/components/reports/CommentReport.tsx:39-50 | sorting a copy is stable: every selection of tied elements keeps its input order |
| Sorting.SortByKeyDescStable | src/components/analytics/CreativePerformance.tsx:37-41 | sorting by a key, largest first, keeps the elements of any one key in input order |
| Text.Utf16Length | src/components/workforce/AICopywriting.tsx:188 | `.length`: between the number of characters and twice it, and equal to it exactly when no character lies above U+FFFF |

## Left out

- HTTP and Graph API plumbing (URLs, query strings, `fetch`, JSON envelopes): each call's answer is a parameter or a scripted transport.
- Timers and concurrency: the `setTimeout` waits are a ghost clock, the comment poller's `setInterval` is left out (each poll is one `FetchNewComments` call), and the asynchronous interleaving of React state updates is not modelled.
- The language model and the prompts: completions and classifier replies are input strings or `Result` parameters; `OpenAIService.generateResponse` (src/services/openai.ts:30-64) is only such a parameter.
- Randomness and the wall clock: random ids, `Date.now()` and the random geo growth are parameters.
- Number and date formatting and parsing: `toFixed`, `Intl.NumberFormat`, `toLocaleString` and `Date` parsing are left out; `parseInt` is modelled on decimal digits with NaN as a missing value, and `real` stands for IEEE doubles (no NaN, infinities or rounding).
- Text.Lower: lower-casing is ASCII-only; JavaScript's full Unicode case mapping is not modelled.
- Sorting: strings compare by code point, which agrees with JavaScript's UTF-16 order only inside the Basic Multilingual Plane.
- CopyAnalyzer.Drop2: `slice(2)` drops two UTF-16 code units; when the character after the dash lies above U+FFFF the source keeps half of its surrogate pair, which a string of Unicode characters cannot hold, so the model drops the whole character.
- AudienceAnalysis: the age and budget filters are integers; a cleared number input, which `parseInt` turns into NaN and which then makes the reach, overlap and score NaN (label `Low`, no age, budget or overlap advice), is not modelled.
- Demographics.AgeBucketsAscending: an age group whose lower bound is not a number is placed last, where the JavaScript comparator returns NaN and the order is left to the engine.
- CommentViews.Processed: with a campaign filter set, a comment without an ad id throws in the source (`comment.adId.startsWith`), while the model treats it as not matching.
- CommentViews.Quote: embedded quotes are not doubled, exactly as the source does, so the CSV does not follow rule 7 of section 2 of RFC 4180.
- CommentService: the cached comment object is shared with the handlers and later mutated in place; the model keeps values, so that aliasing is not captured.
- ShareLink: base64, percent-encoding, JSON text and `Number()` are parameters constrained by `Lawful`; their bit-level formats are not modelled. A base64 token can contain `/`, which the single `:token` route segment (src/App.tsx:26) cannot carry; the router is not part of this model.
- GeoMap.ColorMonotone: stated for a non-negative maximum only, since a negative maximum reverses the order of the ratios.
- DiscoverChat.FilteredPrompts: a selected category is an `Option`; an empty-string id, falsy in the source, would count as a selection here (category ids are never empty).
- DiscoverChat: `handleUsePrompt` (it assigns into the prompt library and the input) and the editor write after an answer (src/components/workforce/DiscoverChat.tsx:82-88) are DOM and presentation work and are left out.
- AdCopy.Workspace: the editor panel writes (src/components/workforce/AICopywriting.tsx:99-120 and 148-172) and the `isGenerating`/`isAnalyzing` flags are left out; the parse sets only the four known fields, where the source also adds any other lower-cased label as an extra key.
- AudienceResults.HandleAddInterest: the button animation (src/components/AudienceResults.tsx:61-68) is DOM work and is left out.
- Stores.AuthStore.constructor: the built-in access token is a constructor parameter; `initializeAuthStore` validates the token over the network and is left out, as is the persistence of the stores to local storage.
- Insights: `extractVideoWatchData` follows src/services/metaApi.ts:246-251; the variant in src/services/metaAnalytics.ts is not modelled separately.
- Suggestions: the suggestion cache and the exploration cache share one map, so an interest list whose joined key starts with `explore_` could collide with an exploration key; the model keeps the shared map but proves nothing about such collisions.
- Sums over `real`: the order of floating-point additions is not modelled.

## Findings

| source | as written | input that shows it | evidently intended | confidence | as-written member | corrected member |
|---|---|---|---|---|---|---|
| src/services/metaAnalytics.ts:33-37 | on a rate-limit error the retry is a new `makeRequest` call, chained behind the queued call that is still running, and its promise is returned into the queue instead of settling the caller, so the caller never settles and the queue waits forever (the same code is at src/services/metaApi.ts:33-37) | a first answer with error code 4 followed by a success, with 3 retries | retry in place and settle the caller with the retried attempt's outcome | not executed | RequestQueue.RetryStallsAsWritten | RequestQueue.MetaRequestQueue.Step |
