# hyukebox core, modelled in Dafny

hyukebox is an MCP music server. Given a seed song, it asks a language model for a narrative arc of the song's emotions. It searches Last.fm for candidate songs with each stage's keywords, and a model scores the candidates per stage. It then draws recommendations per stage by weighted lot and renders them as text. Around this pipeline sit the record models for songs, albums and narrative arcs, the parsers for language-model replies, a sliding-window rate limiter, a TTL cache, a settings validator, and two request middlewares.

This project models that core in Dafny and proves what the code promises.

- **Pipeline (`hyukebox/server.py`).**
  - `candidates.dfy`: keyword search merge and cross-keyword deduplication.
  - `scoring.dfy`: the per-stage evaluator, and the aggregation that keeps the best score per `artist||title` key, then sorts stably by score.
  - `sampling.dfy`: per-stage selection.
  - `report.dfy`: the recommendation report and the narrative listing.
  - `recommend.dfy`: `recommend_songs` with all its early replies.
  - `json_extract.dfy`: the `{…}` span extraction.
  - Shared helpers:
    - `unique.dfy`: first-seen deduplication by key, with a reference definition;
    - `records.dfy`: the dictionaries as records;
    - `text.dfy`: Python's `find`, `rfind`, `split`, `join`, slicing and integer rendering;
    - `wrappers.dfy`: Option, Result, and `Fetch`, the outcome of a call whose exception is swallowed.
- **`hyukebox/services/llm_service.py`** → `llm_service.dfy`: the two bracket parsers, stage mapping into a `NarrativeArc`, truncation of the recommendation list, and the numbered stage listing of the prompt.
- **`hyukebox/models/`** → `narrative.dfy`, `song.dfy`, `album.dfy`.
- **`hyukebox/utils/`** → `rate_limiter.dfy` and `cache.dfy`. Both are classes whose methods update fields, with the clock as an integer parameter in microseconds.
- **`hyukebox/config.py`** → `config.dfy`: the defaults and `validate_required_keys`.
- **`hyukebox/middleware.py`** → `middleware.dfy`: the OAuth and Origin decisions.

Network, language-model and random results are parameters in issue order:
- a keyword search is `Failed` or `Fetched(tracks)`;
- a stage evaluation is `Failed` or `Fetched(records)`;
- `random.choices` is an arbitrary index function `pick`. In exact arithmetic every weight `exp(score / 100 / temperature)` is positive, so every index sequence is a possible draw (`Sampling.AnyDrawPossible`). With Python floats this holds for scores in the documented 0-100 range. Far outside that range `math.exp` underflows to a zero weight or raises `OverflowError`;
- `json.loads`, `str.lower`, `isoformat`, the fenced-block regex match and the token provider's answer are likewise parameters.

Where the code does not do what its documentation or its other parts lead one to expect, the model follows the code:
- **The evaluator never scores.** The docstring of `_llm_evaluate_stage` (hyukebox/server.py:695) promises scored records with artist, title, score and reason. The comments at server.py:104, 948 and 950 say the recommender was deliberately disabled, because it recommended songs that do not exist. As written, `_llm_evaluate_stage` names the commented-out `EVALUATION_SYSTEM_PROMPT` outside its `try`, so every non-empty pool raises. `Scoring.LlmEvaluateStage` models that. The pipeline takes a general evaluator. Lemmas state the as-written evaluator and the intended one, `Scoring.EvaluateStage` (see Findings).
- **A missing `step` is numbered twice over.** The aggregator numbers such a stage by position + 1, while the sampler and the report read 0. `Sampling.MissingStepStageEmpty` shows such a stage receives nothing.

## Model

| member | source | states |
|---|---|---|
| Unique.AppendUnseenKeys | hyukebox/server.py:632-636 | the key-checked append adds only new elements: none with a key already present, no two with one key; afterwards every key of either part is present |
| Unique.DedupDistinct | hyukebox/server.py:667-679 | deduplication leaves no repeated key, keeps exactly the input's keys and invents no element |
| Unique.DedupIsFirstOccurrences | hyukebox/server.py:670-677 | the `seen`-set loop equals the reference definition: the first occurrence of every key, in first-seen order |
| Candidates.SearchCandidatesForKeyword | hyukebox/server.py:584-640 | the method's loops compute the tag hits cut to `limit`, then, below 10 tag hits, each text hit whose key is not yet present, all cut to `limit` |
| Candidates.AddTextHits | hyukebox/server.py:626-636 | the text-search loop appends to the tag hits, in order, each text hit whose key is not yet present |
| Candidates.AppendIfNewKey | hyukebox/server.py:627-636 | one text hit is appended exactly when no candidate present carries its key |
| Candidates.KeywordCandidatesBound | hyukebox/server.py:640 | one keyword never yields more than `limit` candidates |
| Candidates.KeywordTextSearchUnused | hyukebox/server.py:610-611 | with at least 10 tag hits, the text search's outcome does not affect the result |
| Candidates.KeywordTagHitsLead | hyukebox/server.py:601-606 | the tag hits lead the result in their own order, duplicates kept |
| Candidates.KeywordFallbackFresh | hyukebox/server.py:625-636 | every hit after the tag hits is a text hit, with a key neither the tag hits nor another fallback hit carries |
| Candidates.SuccessfulMembers | hyukebox/server.py:664-673 | a hit reaches the merge exactly when some search that did not raise returned it |
| Candidates.MergeHits | hyukebox/server.py:673-677 | one search's inner loop extends the deduplicated pool to the deduplication of all hits so far, with `seen` equal to the pool's keys |
| Candidates.AddIfUnseen | hyukebox/server.py:673-677 | one hit extends the deduplicated pool to the deduplication including it, keeping `seen` equal to the pool's keys |
| Candidates.SearchCandidatesForNarrative | hyukebox/server.py:657-679 | the pool is the first-seen deduplication of the successful searches' hits in issue order |
| Scoring.CandidateLinesNumbered | hyukebox/server.py:703-706 | the candidate listing has one line per candidate, numbered 1..n in order |
| Scoring.LlmEvaluateStage | hyukebox/server.py:699-735 | returns `[]` exactly for an empty pool; raises for any other pool |
| Scoring.FlattenedMembers | hyukebox/server.py:790-800 | a record is visited exactly when a stage that did not raise produced it, with that stage's number |
| Scoring.BestMapDomain | hyukebox/server.py:802-812 | `song_scores` holds exactly the keys visited, each record under its own key |
| Scoring.BestMapIsFirstBest | hyukebox/server.py:805-812 | each stored record is the first record of its key with the highest score |
| Scoring.BestPerKeyKeys | hyukebox/server.py:815 | the values list has no repeated key and exactly the visited keys, in first-insertion order |
| Scoring.BestPerKeyBest | hyukebox/server.py:788-815 | every value is the first best-scoring record of its key |
| Scoring.SortByScoreDescSpec | hyukebox/server.py:818 | the sort gives a permutation with non-increasing scores |
| Scoring.SortByScoreDescStable | hyukebox/server.py:818 | records of equal score keep their input order |
| Scoring.SortByScoreDescDistinct | hyukebox/server.py:818 | sorting keeps keys distinct |
| Scoring.SortByScoreDescMembers | hyukebox/server.py:818 | sorting keeps exactly the same elements |
| Scoring.MergeStage | hyukebox/server.py:796-812 | one stage's loop turns the dictionary and its key order for the records so far into those for the records including this stage |
| Scoring.VisitRecord | hyukebox/server.py:805-812 | one record turns the dictionary and its key order for the records so far into those including it |
| Scoring.MergeResult | hyukebox/server.py:790-812 | one pass of the stage loop: a stage that raised or returned nothing is skipped, another merged, extending the dictionary to the records of one more stage |
| Scoring.CollectScores | hyukebox/server.py:790-812 | the stage loop leaves the dictionary and key order of all visited records |
| Scoring.EvaluateCandidatesWithLlm | hyukebox/server.py:776-820 | the method computes the aggregate of the gathered stage results |
| Scoring.AggregateDistinctSorted | hyukebox/server.py:788-818 | the aggregate has each key once and non-increasing scores |
| Scoring.AggregateKeys | hyukebox/server.py:790-815 | the aggregate's keys are exactly those some successful stage evaluated |
| Scoring.AggregateBest | hyukebox/server.py:805-812 | every aggregated record has the maximum score of its key; on a tie the earlier stage wins |
| Scoring.AggregateEmpty | hyukebox/server.py:790-792 | when every stage failed or returned nothing, nothing is scored |
| Scoring.AggregateAsWritten | hyukebox/server.py:699-792 | with the evaluator as written, the aggregate is always empty |
| Scoring.IntendedEvaluatorScores | hyukebox/server.py:699-757 | with the evaluator as intended (an empty pool, or a reply that raised, gives `[]`), something is scored exactly when the pool is non-empty and some stage's reply lists an evaluation |
| Sampling.InStageMembers | hyukebox/server.py:849-852 | a stage's candidates are exactly the scored ones whose best stage is its step |
| Sampling.TopTenSpec | hyukebox/server.py:857-859 | the top list holds min(10, n) of the stage's candidates, none scoring below one left out |
| Sampling.AnyDrawPossible | hyukebox/server.py:867-873 | every index sequence into the top list is a possible draw |
| Sampling.AppendDrawn | hyukebox/server.py:875-885 | the `seen` loop appends the stage-tagged first-seen deduplication of the draws |
| Sampling.SampleStage | hyukebox/server.py:845-885 | one stage's loop body appends exactly that stage's contribution |
| Sampling.WeightedRandomSampling | hyukebox/server.py:842-887 | the method produces every stage's contribution in narrative order |
| Sampling.StageRecsBound | hyukebox/server.py:854-873 | a stage emits at most min(songs_per_stage, 10, number of its candidates) songs |
| Sampling.StageRecsDistinct | hyukebox/server.py:876-885 | no key is emitted twice within a stage |
| Sampling.StageRecsTagged | hyukebox/server.py:849-884 | every emitted song carries its stage's step and title, has that best stage, and is among the stage's top ten |
| Sampling.StageRecsEmpty | hyukebox/server.py:854-855 | a stage with no candidate for its step emits nothing |
| Sampling.MissingStepStageEmpty | hyukebox/server.py:794-846 | when no stage has step 0, a stage without `step` receives nothing, because its two defaults differ |
| Report.GroupByStage | hyukebox/server.py:916-921 | `stage_map` holds exactly the stage numbers that have recommendations, each mapped to them in input order |
| Report.AppendGroup | hyukebox/server.py:937-940 | the inner loop appends three lines per recommendation, numbered from 1 |
| Report.AppendStage | hyukebox/server.py:924-940 | one stage appends its heading and lines, or nothing when `stage_map` lacks its number |
| Report.AppendStages | hyukebox/server.py:924-940 | the stage loop appends every stage's block in narrative order |
| Report.FormatRecommendations | hyukebox/server.py:903-945 | the text is header, stage blocks and footer, joined by newlines |
| Report.GroupMembers | hyukebox/server.py:916-921 | a stage's group is exactly the recommendations carrying its number |
| Report.GroupLinesShape | hyukebox/server.py:937-940 | the i-th recommendation's three lines sit at 3i..3i+2 under number i+1 |
| Report.GroupLinesNumbered | hyukebox/server.py:937-938 | within a stage, songs are numbered 1, 2, … in input order |
| Report.ReportFrame | hyukebox/server.py:906-913 | the header names the summary and counts all recommendations; a rule opens the report and precedes its last line |
| Report.Body | hyukebox/server.py:924-940 | the body has three lines per shown stage plus three per listed song |
| Report.ListedAll | hyukebox/server.py:917-940 | when each recommendation's stage number is the step of exactly one stage, every recommendation is listed exactly once |
| Report.NarrativeLines | hyukebox/server.py:302-324 | the listing exists exactly when every field indexed with `[...]` is present |
| Report.NarrativeLinesShape | hyukebox/server.py:304-322 | five header lines, one titled line per stage, then one keyword line per stage, both numbered by `step` in stage order |
| Recommend.RecommendSongs | hyukebox/server.py:949-1082 | the method's early exits and final rendering give the reply of the step-by-step outcome |
| Recommend.ReportOnlyPastEveryExit | hyukebox/server.py:1016-1076 | a report is returned exactly when all three keys are set, the narrative call succeeded, the pool holds ≥ 5, something was scored and ≥ 3 songs were sampled |
| Recommend.SmallPoolIgnoresLaterSteps | hyukebox/server.py:1016-1020 | a pool below 5 is rejected whatever the evaluator and the draws would do |
| Recommend.AsWrittenNeverRecommends | hyukebox/server.py:1049-1053 | with the evaluator as written, a successful narrative never yields a report |
| JsonExtract.CloseAfterOpenFindRFind | hyukebox/server.py:292-294 | the guard holds exactly when some `}` follows some `{` |
| JsonExtract.SliceIsOutermost | hyukebox/server.py:292-296 | the slice from the first `{` to the last `}` is the outermost brace span |
| JsonExtract.OutermostSpanUnique | hyukebox/server.py:292-296 | the outermost span is unique: it is that slice |
| JsonExtract.BraceSlice | hyukebox/server.py:291-299 | success exactly when a `}` follows a `{`, and then the outermost span; else the "No valid JSON found in response" error |
| JsonExtract.ExtractJsonFromResponse | hyukebox/server.py:281-299 | a fenced match wins; otherwise success exactly when a `}` follows a `{`, with the outermost span; else the "No valid JSON found in response" error |
| LlmService.BracketSpan | hyukebox/services/llm_service.py:240-247 | fails exactly when either bracket is absent; otherwise passes the outermost span, or `""` when the last close precedes the first open |
| LlmService.ExtractAgreesWithNarrativeParse | hyukebox/services/llm_service.py:240-247 | both extractors accept the same replies and take the same text, except that the narrative parser hands `""` on when the brackets are reversed |
| LlmService.FirstBadStage | hyukebox/services/llm_service.py:67-70 | every stage before the position converts, and the stage at it (when inside the list) does not |
| LlmService.MapStages | hyukebox/services/llm_service.py:67-70 | success exactly when every stage converts, with the (mood, description) pairs in order; otherwise the error of the first stage that does not convert |
| LlmService.BuildNarrativeArc | hyukebox/services/llm_service.py:67-79 | an arc is built exactly when the required keys are present, the moods known and the count in 3..10; fields are copied and the genres default to `[]` |
| LlmService.UnknownMoodRaises | hyukebox/services/llm_service.py:68 | an unknown mood string raises with that value |
| LlmService.GenerateNarrativeArc | hyukebox/services/llm_service.py:60-79 | a returned arc is valid; a reply without braces gives "No JSON found in response" |
| LlmService.GenerateSongRecommendations | hyukebox/services/llm_service.py:123-129 | fails exactly when the bracket parse or the JSON decoding fails |
| LlmService.SongRecommendationsPrefix | hyukebox/services/llm_service.py:129 | the result is a prefix of the parsed list: `song_count` long or the whole list, and `len + song_count` long for a negative count |
| LlmService.StagesTextLines | hyukebox/services/llm_service.py:201-204 | the prompt's stage listing has one line per stage, numbered 1..n in arc order |
| Narrative.MoodValue | hyukebox/models/narrative.py:9-33 | every mood value is a lowercase word |
| Narrative.MoodFromValue | hyukebox/models/narrative.py:9-33 | a mood looked up by value has that value |
| Narrative.MoodValueRoundTrip | hyukebox/models/narrative.py:9-33 | looking a mood up by its own value gives it back |
| Narrative.StageCountBounds | hyukebox/models/narrative.py:47-74 | a valid arc counts 3..10 stages, one per entry |
| Narrative.GetStageMood | hyukebox/models/narrative.py:76-80 | a mood is returned exactly for an index within bounds, and it is that stage's mood |
| Narrative.GetStageDescription | hyukebox/models/narrative.py:82-86 | a description is returned exactly for an index within bounds, and it is that stage's |
| Narrative.Capitalize | hyukebox/models/narrative.py:92 | `title()` of a lowercase word upper-cases the first letter only |
| Narrative.FormatStagesLines | hyukebox/models/narrative.py:88-93 | one line per stage, numbered 1..n in stage order |
| Narrative.TemplatesValid | hyukebox/models/narrative.py:97-142 | three templates, each valid, with 6, 5 and 4 stages |
| Songs.DisplayName | hyukebox/models/song.py:60-62 | the artist, `" - "`, then the title |
| Songs.GenresAreTags | hyukebox/models/song.py:65-69 | the genres are the Last.fm tags whenever there is Last.fm data, else `[]` |
| Songs.PopularityScore | hyukebox/models/song.py:72-76 | a score exactly when there is Spotify data; it is that popularity, within 0..100 |
| Songs.SongCacheKeyInjective | hyukebox/models/song.py:78-80 | with no `:` in folded artists, two songs share a key exactly when their folded artists and titles agree |
| Album.SongCountPositive | hyukebox/models/album.py:45-53 | a valid album counts at least one song, one per entry |
| Album.TotalDurationMs | hyukebox/models/album.py:56-62 | the loop computes the sum of contributions |
| Album.ContributionIsDuration | hyukebox/models/album.py:60-61 | a song contributes its Spotify duration, or 0 without Spotify data |
| Album.SumDurationsAppend | hyukebox/models/album.py:58-62 | the total of a concatenation is the sum of the totals |
| Album.SumDurationsLowerBound | hyukebox/models/album.py:58-62 | with non-negative durations the total is at least every song's duration |
| Album.SumDurationsWithoutSpotify | hyukebox/models/album.py:59-61 | songs without Spotify data total 0 |
| Album.DurationParts | hyukebox/models/album.py:67-69 | minutes < 60, hours and minutes decompose the whole seconds, and hours > 0 exactly from one hour on |
| Album.GetYoutubeVideoIds | hyukebox/models/album.py:103-109 | the loop collects the ids |
| Album.VideoIdsAppend | hyukebox/models/album.py:105-109 | ids of a concatenation concatenate, so playlist order is kept |
| Album.VideoIdsMembers | hyukebox/models/album.py:103-109 | at most one id per song; exactly the non-empty ids of the songs |
| Album.MoodTrailAsWrittenRepeats | hyukebox/models/album.py:81 | as written, the mood line repeats the first mood three times |
| Album.MoodTrailNamesFirstThree | hyukebox/models/album.py:81 | the corrected mood line names the first three moods in order |
| Album.MoodTrailDiscrepancy | hyukebox/models/album.py:81 | on the breakup template the line as written is "sadness → sadness → sadness", the intended one "sadness → regret → despair", and the two differ |
| Album.AppendTrackLines | hyukebox/models/album.py:90-91 | the loop appends one tracklist line per song |
| Album.FormatSummary | hyukebox/models/album.py:75-97 | the summary is the head, the tracklist and the optional link, joined by newlines. The mood entry is the trail as written |
| Album.SummaryMoodRepeatsFirst | hyukebox/models/album.py:81 | on a valid arc, the summary's mood line names the first stage's mood three times |
| Album.TrackLinesNumbered | hyukebox/models/album.py:90-91 | tracklist line i is `"  {i+1}. {display_name}"` |
| Album.SummaryParts | hyukebox/models/album.py:77-88 | the summary is ten head entries (the narrative entry spans several lines), then the tracklist, then the link. The fourth entry is the mood line as written, built from the first stage's mood |
| Album.SummaryTracklist | hyukebox/models/album.py:77-97 | after ten head entries come one numbered line per song, then the link |
| Album.AlbumCacheKey | hyukebox/models/album.py:99-101 | `"playlist:"`, the title track's song key, `":"`, then the timestamp |
| RateLimiting.AfterMembers | hyukebox/utils/rate_limiter.py:32 | pruning keeps exactly the calls newer than the cutoff |
| RateLimiting.AfterAppend | hyukebox/utils/rate_limiter.py:32 | pruning keeps the relative order of calls |
| RateLimiting.AfterTwice | hyukebox/utils/rate_limiter.py:43-45 | pruning again at a later cutoff equals pruning once at it |
| RateLimiting.AfterSortedSuffix | hyukebox/utils/rate_limiter.py:32 | on time-ordered calls pruning drops a prefix: the kept calls are the last ones, as many as are kept |
| RateLimiting.Remaining | hyukebox/utils/rate_limiter.py:64 | free slots are never negative or above the limit, and 0 exactly when the window is full |
| RateLimiting.WaitPositive | hyukebox/utils/rate_limiter.py:34-40 | a computed wait is always positive |
| RateLimiting.AcquireRecordsNow | hyukebox/utils/rate_limiter.py:43-48 | unless it raises, acquire ends with the current reading last and every other call within its window |
| RateLimiting.AcquireKeepsLimit | hyukebox/utils/rate_limiter.py:34-48 | for one caller at a time that sleeps the full wait, the window never exceeds the limit |
| RateLimiting.RateLimiter.constructor | hyukebox/utils/rate_limiter.py:14-21 | the limit is stored and no call is recorded |
| RateLimiting.RateLimiter.Acquire | hyukebox/utils/rate_limiter.py:23-48 | for an uninterrupted call, the outcome and the new call list are those of the acquire specification, made of the step before the sleep and the step after it |
| RateLimiting.RateLimiter.BeginAcquire | hyukebox/utils/rate_limiter.py:28-40 | the step up to the sleep prunes the window and records `now` exactly when there is room, otherwise reports the wait |
| RateLimiting.RateLimiter.FinishAcquire | hyukebox/utils/rate_limiter.py:42-48 | the step after the sleep prunes at the new reading and records it without checking the count |
| RateLimiting.BeginKeepsLimit | hyukebox/utils/rate_limiter.py:28-48 | the step up to the sleep never takes the window past the limit |
| RateLimiting.InterleaveCheckedKeepsLimit | hyukebox/utils/rate_limiter.py:9-12 | with a wake-up that checks the count again, no interleaving of callers holds more calls than the limit |
| RateLimiting.TwoWaitersOvershoot | hyukebox/utils/rate_limiter.py:40-48 | as written, two callers that wait on a full one-call window both record on waking, leaving two calls in one window; the checking wake-up leaves one |
| RateLimiting.RateLimiter.Reset | hyukebox/utils/rate_limiter.py:50-52 | the call list is emptied and the limit kept |
| RateLimiting.RateLimiter.GetRemaining | hyukebox/utils/rate_limiter.py:54-64 | prunes the call list and returns the free slots of the pruned window |
| RateLimiting.ResetFreesAll | hyukebox/utils/rate_limiter.py:50-64 | after reset, all slots are free |
| Cache.Lookup | hyukebox/utils/cache.py:35-47 | a value exactly for a present entry not yet expired, and it is that entry's value |
| Cache.MetadataCache.constructor | hyukebox/utils/cache.py:16-24 | the store starts empty |
| Cache.MetadataCache.Get | hyukebox/utils/cache.py:26-47 | returns the lookup and removes the key's entry exactly when it had expired |
| Cache.MetadataCache.Set | hyukebox/utils/cache.py:49-67 | upserts the key with expiry now + ttl seconds |
| Cache.MetadataCache.Delete | hyukebox/utils/cache.py:69-75 | removes exactly that key |
| Cache.MetadataCache.Clear | hyukebox/utils/cache.py:77-79 | empties the store |
| Cache.MetadataCache.CleanupExpired | hyukebox/utils/cache.py:81-97 | removes exactly the expired entries and returns how many there were |
| Cache.SetThenGet | hyukebox/utils/cache.py:57-67 | after set, get returns the value up to and including the expiry, and nothing after it |
| Cache.OtherKeysUntouched | hyukebox/utils/cache.py:60-75 | set and delete leave every other key's answer unchanged |
| Cache.DeletedReadsAbsent | hyukebox/utils/cache.py:69-75 | a deleted or never-set key reads as absent, and get then changes nothing |
| Cache.GetKeepsAnswers | hyukebox/utils/cache.py:42-45 | get's removal changes no key's answer at that reading |
| Cache.CleanupKeepsAnswers | hyukebox/utils/cache.py:87-97 | cleanup keeps unexpired entries unchanged and changes no answer; removed plus kept equals the former size |
| Config.DefaultValues | hyukebox/config.py:38-49 | cache TTL of a day; 20 songs; rate limits 180 and 300 per minute |
| Config.UnsetSpec | hyukebox/config.py:58-67 | a name is listed exactly when its value is empty; the `p`-th listed name is the name at a checked position whose value is empty, and those positions increase with `p` |
| Config.MissingKeysSpec | hyukebox/config.py:58-67 | each of the four keys is missing exactly when its setting is empty; the `p`-th missing name is the required key at an increasing position; nothing is missing exactly when all four are set |
| Config.ValidateRequiredKeys | hyukebox/config.py:52-75 | the appends and the raise give the validation outcome |
| Config.ValidationSpec | hyukebox/config.py:69-75 | raises exactly when a key is empty, with a message opening on the listed names |
| Config.ListReprOpens | hyukebox/config.py:75 | a non-empty missing list prints as `['…` |
| Config.DefaultsMissEveryKey | hyukebox/config.py:23-67 | with nothing set, all four names are reported, in order |
| Middleware.BearerSplit | hyukebox/middleware.py:27 | a `"Bearer "` header splits into `"Bearer"` and at least one more field |
| Middleware.BearerToken | hyukebox/middleware.py:27 | the token is the text after `"Bearer "` up to the next space or the end |
| Middleware.VerifyToken | hyukebox/middleware.py:40-57 | with no token URL every token is accepted; otherwise only a 200 answer accepts it |
| Middleware.OAuthDecision | hyukebox/middleware.py:13-38 | `/health` passes; no `"Bearer "` header gives 401 missing; otherwise the verification decides between passing and 401 invalid |
| Middleware.DevelopmentModeAcceptsAnyBearer | hyukebox/middleware.py:42-46 | without a token URL a request passes exactly when it is the health check or has a `"Bearer "` header |
| Middleware.ProviderDecides | hyukebox/middleware.py:29-35 | with a token URL a request passes exactly when the provider answers 200 for its token |
| Middleware.AllowedOrigins | hyukebox/middleware.py:64 | the allow-list is never empty |
| Middleware.EmptyAllowListAllowsAll | hyukebox/middleware.py:64-68 | an unset or empty list splits to `[""]` and allows every origin |
| Middleware.LeadingCommaAllowsAll | hyukebox/middleware.py:64-68 | a list starting with a comma also allows every origin |
| Middleware.ListedOrigins | hyukebox/middleware.py:63-75 | for comma-joined origins, 403 exactly for a present, non-empty origin outside the list |

## Left out

- Outbound calls: Last.fm, Tavily, OpenAI, Anthropic and the OAuth provider. Their outcomes are parameters. `search_song`, `describe_song`, `_get_narrative_json`, the metadata and YouTube services and the tools are network and SDK wrappers and are not part of this model.
- `asyncio.gather` concurrency: gathered results are sequences in issue order.
- `score_to_weight` (floating-point `math.exp`) and the distribution of `random.choices`. Only which draws are possible is modelled.
- `json.loads`, the fenced-block regex, `str.lower`, `isoformat` and Unicode case mapping are parameters. `str.title` is exact here because every mood value is one lowercase ASCII word.
- The body of `_llm_evaluate_stage` after the raise (payload, HTTP call, reply parsing) is unreachable as written. So are the `except` branches of `recommend_songs` around the evaluation and the sampling (hyukebox/server.py:1022-1048 and 1055-1067). `_evaluate_candidates_with_llm` gathers its stage calls with `return_exceptions=True`, so each raise becomes an empty stage and no exception leaves it. Every stage then comes back empty, the reply is "no evaluated candidates", and sampling is never reached.
- The narrative JSON is modelled as well-shaped records: `narrative` is an object, every stage is an object, and `keywords` is a list of strings. So the model has no counterpart of the `AttributeError` raised at hyukebox/server.py:654 and 659 when `narrative` or a stage is not an object. It has none of the `TypeError` raised at server.py:660 on `"keywords": null` either. Those failures make the "후보곡 검색 오류: …" reply (server.py:1009-1013), which `Recommend.Reply` does not include. The character-by-character extension that a string `keywords` gets at server.py:660 is not modelled either.
- A failing keyword search is `Failed` as a whole. A track record that raises inside the tag loop after some were appended (partial failure) is not modelled.
- The prompt texts beyond the numbered stage listing, including `_build_narrative_prompt`, which has no numbered structure.
- Logging, the stderr notice of `validate_required_keys`, `__main__`, the start-up key check at the end of `server.py`, and RateLimitMiddleware, which passes every request through.
- pydantic validation beyond the popularity bound, the stage-count bound and `songs` being non-empty.
- `llm_temperature` (a float) and the `.env` loading of the settings.
- The TinyDB file, and the directory the cache creates.
- RateLimiting.RateLimiter.Acquire: the wait is an integer count of microseconds rather than float seconds. The sleep is the caller's, which passes the clock reading taken after it. `Acquire` is one uninterrupted call. The limiter is shared, and `asyncio` callers interleave at the sleep: hyukebox/tools/deep_search.py:142 gathers fetches that reach `spotify_limiter.acquire()` at hyukebox/services/metadata_api.py:118. That interleaving is modelled separately, by `BeginAcquire`/`FinishAcquire` and `Interleave` (see Findings).
- RateLimiting.AcquireKeepsLimit: holds for one caller at a time only. Callers that wait concurrently can exceed the limit (`RateLimiting.TwoWaitersOvershoot`).
- Evaluation records are modelled as well-shaped: `artist`, `title` and `reason` are strings, and `score` is an integer, as in the documented 0-100 range (hyukebox/server.py:116, 474). A fractional score, which Python would print as `85.5/100` in the report (server.py:938), is not modelled. Neither is a non-numeric score, which raises `TypeError` at the comparison at server.py:805.
- Config.DefaultsMissEveryKey: the message is stated as `Missing required API keys: ` followed by the list representation. The literal string is not spelled out.

## Findings

| source | as written | input that shows it | evidently intended | confidence | as-written member | corrected member |
|---|---|---|---|---|---|---|
| hyukebox/models/album.py:81 | the mood line joins `stages[0][0].value` once per stage index, so it repeats the first mood | the `breakup_recovery` template: "sadness → sadness → sadness" | the moods of the first three stages: "sadness → regret → despair" | high, not executed | Album.MoodTrailDiscrepancy | Album.MoodTrailNamesFirstThree |
| hyukebox/utils/rate_limiter.py:40-48 | after the sleep, `acquire` prunes and records its reading without checking the count again, though other callers may have recorded calls while it slept | a limit of 1 with calls `[t0]`: two callers find the window full, both sleep the computed wait, and both record on waking, so two calls sit in one window | check the count again after waking and wait while the window is full, so that no interleaving exceeds the limit ("Ensures API calls don't exceed specified rate limits", rate_limiter.py:9-12) | medium, not executed | RateLimiting.TwoWaitersOvershoot | RateLimiting.InterleaveCheckedKeepsLimit |
| hyukebox/server.py:717 | the payload names `EVALUATION_SYSTEM_PROMPT`, which is commented out, outside the `try`, so every stage raises `NameError` | any narrative whose pool holds 5 or more candidates: the reply is "평가된 후보곡이 없습니다…" | each stage is evaluated and the best-scored songs are recommended | high, not executed | Recommend.AsWrittenNeverRecommends | Scoring.IntendedEvaluatorScores |
