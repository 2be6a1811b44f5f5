# git-involved, modelled in Dafny

git-involved helps developers find open-source repositories and issues that
suit them. A batch **ingestion pipeline** moves data from the GitHub API into
the stores. It searches GitHub language by language, fetches each
repository's README, language breakdown and open issues, and transforms them
into records. A size tier, a 0–100 health score and a difficulty
classification for each issue are derived on the way. It then builds an
embedding text, vectorises it and upserts both the row and the vector, and
keeps a sync log of the run. On the query side, a **discovery request**
(languages, experience level, interests, repository sizes) is turned into a
sentence and embedded. It is matched against the repository index, then
against the issue index scoped to the repositories found. Repositories are
re-ranked with a bonus for every matching open issue. Two HTTP routes sit in
front of this: the discovery endpoint, which validates its body, and the
trending-topics endpoint, which caches its answer. Three UI pieces hold the
client-side logic: the discovery wizard, the issue list's filter and sort,
and the theme toggle. A relative-date formatter is used throughout the UI.

Each source file is one Dafny module:

| module | source file |
|---|---|
| `Transform` | `src/lib/pipeline/transform.ts` |
| `PipelineEmbeddings` | `src/lib/pipeline/embeddings.ts` |
| `QueryEmbeddings` | `src/lib/query/embeddings.ts` |
| `QueryVectorDb` | `src/lib/query/vectordb.ts` |
| `Discover` | `src/lib/query/discover.ts` |
| `Ingest` | `src/lib/pipeline/ingest.ts` |
| `GitHubClient` | `src/lib/github/client.ts` |
| `TopicRanking` | the topic counting shared by `client.ts` and the trending route |
| `DiscoverRoute` | `src/app/api/discover/route.ts` |
| `TrendingRoute` | `src/app/api/trending/route.ts` |
| `IssueList` | `src/components/repo/issue-list.tsx` |
| `RelativeDate` | `src/lib/utils/date.ts` |
| `DiscoveryForm` | `src/components/discovery/discovery-form.tsx` |
| `ThemeToggle` | `src/components/layout/theme-toggle.tsx` |

These modules rest on shared support modules:

- `Wrappers`: `Option`, `Result` and `Outcome`.
- `Seqs`: filter, map, take and count.
- `Sorting`: the stable descending sort that stands for `Array.prototype.sort` with a `b - a` comparator.
- `Text`: `join`, `String(n)`, `toLowerCase` and `trim`.
- `Domain`: the enums and the GitHub and database records.

Every external service is a function parameter (an oracle). This covers
GitHub, the embedding model, Pinecone, the Prisma tables and the clock. A
method that calls services either returns the calls it made or the writes it
attempted, or is stated equal to a specification function of its oracles. A
loop in the source is a `method` with a `while` or `for` loop, proved equal
to that specification function. A component or module whose state changes in
place is a `class`:

- the wizard's `useState` hooks;
- the theme button's `theme` and `mounted`;
- the module-level caches of the trending route and of the GitHub client.

Numbers that TypeScript computes as floats (scores, ratios, days) are
`real`.

Differences between the two halves of the code, kept as written:

- The client's `fetchTrendingTopics` searches with `created:>=` and
  `stars:>=50`, 100 results per page, and keeps the top 30 topics.
- The trending route searches with `created:>` and `stars:>50`, 50 results
  per page, keeps the top 20, and falls back to a fixed list.
- The discovery endpoint requires at least one interest
  (`DiscoverRoute.WizardQueryAcceptedIff`). The wizard lets the user skip the
  interests step. So a query submitted without interests is refused with a
  400.
- A `SyntaxError` thrown from inside discovery is also answered with a 400
  "Invalid JSON" (`DiscoverRoute.PostStatuses`).

## Model

| member | source | states |
|---|---|---|
| Transform.CalculateRepoSize | src/lib/pipeline/transform.ts:22-27 | the tier is SMALL, MEDIUM, LARGE or HUGE exactly when the star count lies below 1 000, in [1 000, 10 000), in [10 000, 50 000) or at 50 000 and above |
| Transform.CalculateRepoSizeMonotone | src/lib/pipeline/transform.ts:22-27 | more stars never give a smaller tier |
| Transform.FindLabelIn | src/lib/pipeline/transform.ts:65-73 | the loop over the normalised labels stops at a label in the keyword set exactly when one exists, and at the first one |
| Transform.InferDifficulty | src/lib/pipeline/transform.ts:62-76 | the three scans (beginner, then advanced, then intermediate) give the classification `DifficultyOf` |
| Transform.DifficultyNoneIff | src/lib/pipeline/transform.ts:62-76 | an issue is unclassified exactly when none of its labels, lower-cased and trimmed, is in any of the three label sets |
| Transform.DifficultyOrderIndependent | src/lib/pipeline/transform.ts:62-76 | the classification depends only on which labels are present, not on their order |
| Transform.GoodFirstIssueIsBeginner | src/lib/pipeline/transform.ts:62-141 | an issue is a good first issue exactly when it is classified BEGINNER |
| Transform.DifficultyExamples | src/lib/pipeline/transform.ts:33-76 | "good first issue" is BEGINNER, and stays BEGINNER beside "expert"; no labels means no classification |
| Transform.HardIsAdvanced | src/lib/pipeline/transform.ts:45-70 | the label "hard" classifies ADVANCED |
| Transform.UnicodeSpaceTrimmed | src/lib/pipeline/transform.ts:63 | a label led by an ideographic space is trimmed before matching, so it still classifies ADVANCED |
| Transform.PaddedUpperCaseLabel | src/lib/pipeline/transform.ts:63 | " Good First Issue " is lower-cased and trimmed before the lookup and so classifies BEGINNER |
| Transform.DaysSincePush | src/lib/pipeline/transform.ts:183-186 | the days since the last push are never negative |
| Transform.RecencyScore | src/lib/pipeline/transform.ts:187-193 | the recency bucket is between 2 and 40 |
| Transform.RecencyMatchesDays | src/lib/pipeline/transform.ts:183-193 | the millisecond thresholds agree with the source's day thresholds for every push time and clock |
| Transform.IssueScore | src/lib/pipeline/transform.ts:197-204 | the open-issue bucket is between 4 and 20, and 20 for a repository without stars |
| Transform.IssueScoreMatchesRatio | src/lib/pipeline/transform.ts:197-204 | the integer cross-multiplication gives the same bucket as the source's ratio thresholds |
| Transform.RatioAbove | src/lib/pipeline/transform.ts:199-203 | a ratio open/stars exceeds 1/k exactly when k·open > stars |
| Transform.DocsScore | src/lib/pipeline/transform.ts:207-210 | the documentation bucket is between 0 and 40, and 40 exactly when README, licence and description are all present |
| Transform.HealthScore | src/lib/pipeline/transform.ts:181-213 | the health score is between 6 and 100 |
| Transform.CalculateHealthScore | src/lib/pipeline/transform.ts:181-213 | the accumulating method computes `HealthScore`, which lies between 6 and 100 |
| Transform.FuturePushIsRecent | src/lib/pipeline/transform.ts:183-193 | a push time in the future counts as 0 days and scores the full 40 |
| Transform.RecencyMonotone | src/lib/pipeline/transform.ts:183-193 | a later clock never raises the recency bucket |
| Transform.IssueScoreMonotone | src/lib/pipeline/transform.ts:197-204 | more open issues never raise the issue bucket |
| Transform.PerfectHealthScore | src/lib/pipeline/transform.ts:181-213 | a push within a week, at most one open issue per 20 stars and full documentation give 100 |
| Transform.HealthScoreExample | src/lib/pipeline/transform.ts:181-213 | a repository pushed now with 1 000 stars, no open issues and full documentation scores 100 |
| Transform.LanguageNames | src/lib/pipeline/transform.ts:91 | the language names are the breakdown's names in their order |
| Transform.TransformRepositoryDerived | src/lib/pipeline/transform.ts:86-120 | a transformed repository has the tier of its star count, no topics when GitHub sent none, and a health score in 6..100; a score above 60 needs some documentation |
| Transform.EmptyTextCountsAsMissing | src/lib/pipeline/transform.ts:115-117 | an empty README or description scores like a missing one |
| Transform.LabelNames | src/lib/pipeline/transform.ts:134-136 | the label names are exactly the names of the labels that have one |
| Transform.TransformIssueProperties | src/lib/pipeline/transform.ts:130-158 | a transformed issue keeps exactly the named labels and its repository, is OPEN exactly when GitHub says "open", and a good first issue is classified BEGINNER |
| Transform.LabelNamesAppend | src/lib/pipeline/transform.ts:134-136 | the label names of two label lists are the names of each, one after the other |
| Transform.LabelNamesExample | src/lib/pipeline/transform.ts:134-136 | nameless labels are dropped |
| Text.NatToStringRoundTrip | src/lib/pipeline/transform.ts:94-144 | `String(id)` of a numeric id reads back as the id |
| Text.NatToStringInjective | src/lib/pipeline/transform.ts:94-144 | distinct numeric ids give distinct string ids |
| Text.JoinLength | src/lib/pipeline/embeddings.ts:95-119 | a joined text is as long as its parts plus the separators between them |
| Text.JoinStartsWithFirst | src/lib/pipeline/embeddings.ts:95-119 | a joined text begins with its first part |
| PipelineEmbeddings.RepoEmbeddingParts | src/lib/pipeline/embeddings.ts:76-96 | the parts always begin with the full name |
| PipelineEmbeddings.BuildRepoEmbeddingText | src/lib/pipeline/embeddings.ts:76-96 | the conditional pushes followed by the newline join give `RepoEmbeddingText` |
| PipelineEmbeddings.RepoTextStartsWithFullName | src/lib/pipeline/embeddings.ts:76-96 | the repository text begins with the full name |
| PipelineEmbeddings.RepoTextMinimal | src/lib/pipeline/embeddings.ts:76-96 | with no description, language, topics or README the text is the full name alone |
| PipelineEmbeddings.RepoTextFull | src/lib/pipeline/embeddings.ts:76-96 | with every part present the text is name, description, "Language: …", "Topics: …" joined by ", ", and "README:\n…", one per line |
| PipelineEmbeddings.RepoEmptyIsAbsent | src/lib/pipeline/embeddings.ts:79-93 | an empty description, language or README leaves the text as if it were missing |
| PipelineEmbeddings.IssueEmbeddingParts | src/lib/pipeline/embeddings.ts:108-120 | the parts always begin with the title |
| PipelineEmbeddings.BuildIssueEmbeddingText | src/lib/pipeline/embeddings.ts:108-120 | the conditional pushes followed by the join give `IssueEmbeddingText` |
| PipelineEmbeddings.IssueTextShapes | src/lib/pipeline/embeddings.ts:108-120 | all four shapes of the issue text: title, then "Labels: …" when there are labels, then the body when it is non-empty |
| PipelineEmbeddings.Truncate | src/lib/pipeline/embeddings.ts:23-53 | the text sent is a prefix of at most 8 000 characters, equal to the input when it fits and exactly 8 000 long when it does not |
| PipelineEmbeddings.EmbeddingIgnoresTail | src/lib/pipeline/embeddings.ts:51-61 | two texts that agree on their first 8 000 characters get the same embedding |
| PipelineEmbeddings.TruncatedRepoTextKeepsFullName | src/lib/pipeline/embeddings.ts:51-96 | truncation never cuts into a full name of at most 8 000 characters |
| QueryEmbeddings.BuildQueryText | src/lib/query/embeddings.ts:36-58 | the four conditional pushes and the space join give `QueryText` |
| QueryEmbeddings.SegmentHeads | src/lib/query/embeddings.ts:39-56 | the four sentences begin with 'P', 'I', 'E' and 'T' |
| QueryEmbeddings.SegmentsDiffer | src/lib/query/embeddings.ts:39-56 | the four sentences are pairwise distinct |
| QueryEmbeddings.SegmentPositions | src/lib/query/embeddings.ts:36-58 | there are as many sentences as present parts plus one; the languages sentence, if any, is first, the interests sentence follows it, the experience sentence comes after both, and the trending sentence, if any, is last |
| QueryEmbeddings.ExperienceAlwaysPresent | src/lib/query/embeddings.ts:50-52 | the experience sentence is always there |
| QueryEmbeddings.LanguagesPresentIff | src/lib/query/embeddings.ts:39-41 | the languages sentence is present exactly when languages were chosen |
| QueryEmbeddings.InterestsPresentIff | src/lib/query/embeddings.ts:43-48 | the interests sentence is present exactly when interests were chosen |
| QueryEmbeddings.TrendingPresentIff | src/lib/query/embeddings.ts:54-56 | the trending sentence is present exactly when the trending list is non-empty |
| QueryEmbeddings.QueryTextExperienceOnly | src/lib/query/embeddings.ts:36-58 | with no languages, interests or trending topics the query text is the experience sentence alone |
| QueryEmbeddings.QueryTextFull | src/lib/query/embeddings.ts:36-58 | with everything present the text is the four sentences separated by single spaces |
| QueryEmbeddings.GenerateQueryEmbedding | src/lib/query/embeddings.ts:74-86 | the embedding is the model's vector for the query text, and that text is what was sent |
| QueryVectorDb.RepoFilterFor | src/lib/query/vectordb.ts:43-51 | the repository filter has a language key exactly when the language list is non-empty, and a size key exactly when the size list is; with neither it is absent |
| QueryVectorDb.BuildRepoFilter | src/lib/query/vectordb.ts:43-51 | the filter object built key by key is `RepoFilterFor` |
| QueryVectorDb.RepoFilterAdmitsIff | src/lib/query/vectordb.ts:43-58 | a repository passes the filter exactly when its language and its size are each allowed by their list |
| QueryVectorDb.IssueFilterFor | src/lib/query/vectordb.ts:76-88 | the issue filter has a repository key, a difficulty key and a good-first key exactly when the corresponding parameters are given; with none it is absent |
| QueryVectorDb.BuildIssueFilter | src/lib/query/vectordb.ts:76-88 | the filter object built key by key is `IssueFilterFor` |
| QueryVectorDb.IssueFilterAdmitsIff | src/lib/query/vectordb.ts:76-93 | an issue passes exactly when it is in an allowed repository, has an allowed difficulty and has the requested good-first flag, each only when that key is set |
| QueryVectorDb.UnknownDifficultyExcluded | src/lib/query/vectordb.ts:76-88 | an issue stored with difficulty "unknown" never passes a difficulty filter |
| QueryVectorDb.MapMatches | src/lib/query/vectordb.ts:60-100 | one result per match, in order, with the match's id and its score or 0 |
| QueryVectorDb.MapMatchesScores | src/lib/query/vectordb.ts:60-63 | a missing score becomes 0 and a present score is kept |
| QueryVectorDb.SearchRepos | src/lib/query/vectordb.ts:37-64 | the index query holds the embedding, topK and `RepoFilterFor`; the results are `MapMatches` of the answer |
| QueryVectorDb.SearchIssues | src/lib/query/vectordb.ts:70-101 | the index query holds the embedding, topK and `IssueFilterFor`; the results are `MapMatches` of the answer |
| Discover.BuildIssueSearchParams | src/lib/query/discover.ts:123-146 | the issue search keeps the embedding and the repository ids and asks for 50 issues |
| Discover.BeginnerIssueFilter | src/lib/query/discover.ts:123-146 | a beginner sees exactly the good first issues of the matched repositories |
| Discover.IntermediateIssueFilter | src/lib/query/discover.ts:123-146 | an intermediate user sees exactly the BEGINNER and INTERMEDIATE issues of the matched repositories |
| Discover.ExpertIssueFilter | src/lib/query/discover.ts:123-146 | an expert sees every issue of the matched repositories |
| Discover.ScoreOf | src/lib/query/discover.ts:94-111 | a repository has a semantic score exactly when it is among the results, and that score is a result's score |
| Discover.GroupIssues | src/lib/query/discover.ts:69-85 | the grouping loop keys the map by exactly the repositories of the fetched issues, each holding that repository's matches in order |
| Discover.KeepTopIssues | src/lib/query/discover.ts:88-91 | each repository keeps `KeptOf` of its matches, and no key is added or lost |
| Discover.KeptOfProperties | src/lib/query/discover.ts:88-91 | at most 5 issues are kept per repository, sorted by score, drawn from its matches, and none dropped scores above one kept |
| Discover.RankRepos | src/lib/query/discover.ts:69-113 | grouping, cutting and ranking give `RankedRepos` |
| Discover.SearchMatchingRepos | src/lib/query/discover.ts:28-36 | the query text is embedded, then the repository index is queried, in that order |
| Discover.SearchAndHydrate | src/lib/query/discover.ts:46-66 | the issue index is queried, then the repository rows are fetched; the open issues are looked up only when issue ids came back |
| Discover.DiscoverRepositories | src/lib/query/discover.ts:24-121 | the answer is `Discovery` and the services are called as `DiscoveryCalls` |
| Discover.NoRepoMatchesShortCircuits | src/lib/query/discover.ts:38-40 | with no repository match the answer is empty with 0 searched, and the issue index and issue table are never called |
| Discover.IssueLookupOnlyWithIds | src/lib/query/discover.ts:57-66 | the issue table is queried exactly when the issue search returned ids |
| Discover.CallsForIssueLookup | src/lib/query/discover.ts:57-66 | for any call sequence built by the orchestrator, the issue table appears exactly when there are issue ids |
| Discover.IssueQueryScoped | src/lib/query/discover.ts:46-51 | the issue query asks for 50 and, once repositories matched, is restricted to their ids |
| Discover.KeptIssuesAreOpenAndOwned | src/lib/query/discover.ts:57-91 | every kept issue is an open issue of that repository that the issue search returned |
| Discover.KeptMatchHasRow | src/lib/query/discover.ts:69-91 | every kept issue comes from a fetched row of that repository |
| Discover.ScoreIsSemanticPlusBonus | src/lib/query/discover.ts:94-111 | a repository's final score is its semantic score plus 0.02 per kept issue, so at most 0.1 above it |
| Discover.RankedReposArePermutation | src/lib/query/discover.ts:94-120 | the ranked list is a permutation of the scored hydrated repositories, sorted by final score, and reports how many repositories matched |
| Discover.EveryHydratedRepoAppears | src/lib/query/discover.ts:94-113 | every hydrated repository appears in the answer |
| Discover.HigherFinalScoreFirst | src/lib/query/discover.ts:113 | a repository with a higher final score is listed earlier |
| Discover.IssueBonusCanOutrank | src/lib/query/discover.ts:94-113 | in the discovery answer, a repository whose semantic score plus its issue bonus beats the semantic score of a repository without kept issues is listed before it (so a 0.80 match with three issues ranks ahead of a 0.83 match with none) |
| Sorting.SortDesc | src/lib/query/discover.ts:89-113 | the sort returns a permutation of its input ordered by descending key |
| Sorting.LargerKeyFirst | src/lib/query/discover.ts:113 | in a sorted list a larger key comes first |
| Ingest.IssueVectorMetadata | src/lib/pipeline/ingest.ts:346-352 | the issue vector carries its repository, labels and good-first flag, and difficulty "unknown" exactly when unclassified |
| Ingest.RepoVectorMetadata | src/lib/pipeline/ingest.ts:276-282 | the repository vector carries language (or "unknown"), size, stars and topics |
| Ingest.UnclassifiedIssueNeverMatchesDifficulty | src/lib/pipeline/ingest.ts:348 | an unclassified issue never passes a difficulty filter at query time |
| Ingest.ClassifiedIssueMatchesDifficulty | src/lib/pipeline/ingest.ts:348 | a classified issue passes a difficulty filter exactly when its level is allowed |
| Ingest.DifficultyNameInjective | src/lib/pipeline/ingest.ts:348 | distinct levels are stored under distinct names |
| Ingest.ProcessIssue | src/lib/pipeline/ingest.ts:314-353 | transform, embed, upsert row, upsert vector, stopping at the first failure: the outcome and writes are `IssueRun` |
| Ingest.ProcessIssues | src/lib/pipeline/ingest.ts:285-296 | the issue loop counts the issues that succeed and attempts every issue's writes in order; a failing issue is skipped |
| Ingest.PersistRepository | src/lib/pipeline/ingest.ts:250-303 | the live path gives `PersistRun` |
| Ingest.ProcessRepository | src/lib/pipeline/ingest.ts:218-304 | processing a repository gives what the repository runner gives |
| Ingest.DryRunRepository | src/lib/pipeline/ingest.ts:241-247 | a dry run writes nothing and counts the fetched issues, or fails with the fetch error |
| Ingest.LiveRunOutcome | src/lib/pipeline/ingest.ts:250-303 | a live run succeeds exactly when the embedding, the row upsert and the vector upsert succeed, and then counts the issues that succeed |
| Ingest.ApplyAllCounts | src/lib/pipeline/ingest.ts:144-152 | the running result is the number of repositories that succeeded, their issue total, and one error line per failure |
| Ingest.ProcessPage | src/lib/pipeline/ingest.ts:141-155 | the repository loop of a page produces `PageRun`, counts its successes and accumulates the result |
| Ingest.PageRunProperties | src/lib/pipeline/ingest.ts:141-155 | a page processes its repositories in order, each with the runner's result, and stops early only when the cap is reached |
| Ingest.PageRunCap | src/lib/pipeline/ingest.ts:146-148 | a page never lifts the processed count above 25 |
| Ingest.ProcessLanguagePage | src/lib/pipeline/ingest.ts:118-158 | one pagination step either ends the language with `LangRun` or continues on the next page |
| Ingest.IngestLanguage | src/lib/pipeline/ingest.ts:113-165 | the pagination loop of a language produces `LangRun` from page 1 and accumulates the result |
| Ingest.RunIngestionPipeline | src/lib/pipeline/ingest.ts:88-206 | the run's outcome, sync log and events are `Pipeline` |
| Ingest.PerPageBounds | src/lib/pipeline/ingest.ts:119-131 | every search asks for between 1 and 25 repositories of the language with at least 100 stars |
| Ingest.LanguageCap | src/lib/pipeline/ingest.ts:118-148 | no language ever processes more than 25 repositories |
| Ingest.SearchFailureEndsLanguage | src/lib/pipeline/ingest.ts:132-137 | a failed search ends the language with one error line and no repository |
| Ingest.PaginationStops | src/lib/pipeline/ingest.ts:139-157 | an empty or last page ends the language: no later page is searched |
| Ingest.EveryLanguageSearched | src/lib/pipeline/ingest.ts:113-131 | every configured language is searched from page 1 |
| Ingest.LanguagesWriteNothing | src/lib/pipeline/ingest.ts:113-165 | a runner that writes nothing makes the whole language loop write nothing |
| Ingest.DryRunPipeline | src/lib/pipeline/ingest.ts:101-247 | a dry run creates no sync log, always succeeds and writes nothing |
| Ingest.SyncLogStatus | src/lib/pipeline/ingest.ts:168-198 | COMPLETED with the run's counts and errors; if that update throws, FAILED with a "Pipeline fatal error" line added; if that throws too, the run fails with its error |
| Ingest.LiveRunFinishes | src/lib/pipeline/ingest.ts:101-198 | a live run with a sync log processes every configured language and then finishes the log |
| Ingest.CreateFailureThrows | src/lib/pipeline/ingest.ts:101-110 | if the sync log cannot be created the run throws before any search |
| GitHubClient.WithRetry | src/lib/github/client.ts:75-127 | the retry loop's result, attempts and delays are `Retry` |
| GitHubClient.RetryShape | src/lib/github/client.ts:75-127 | 1 to 5 attempts; the result is the last attempt's; every earlier attempt failed retryably and was followed by its delay; a returned failure is non-retryable or the fifth |
| GitHubClient.RetryFromShape | src/lib/github/client.ts:75-127 | the same, from any attempt onwards |
| GitHubClient.FirstSuccessReturned | src/lib/github/client.ts:81-83 | the first success after retryable failures is returned at once |
| GitHubClient.NonRetryableThrownAtOnce | src/lib/github/client.ts:93-98 | a non-retryable failure is thrown after one attempt, with no delay |
| GitHubClient.BackoffSchedule | src/lib/github/client.ts:101-117 | without a retry-after header the delays are 1, 2, 4 and 8 seconds, and the fifth failure is thrown |
| GitHubClient.RetryAfterOverrides | src/lib/github/client.ts:101-110 | a retry-after header of s seconds gives a delay of s·1 000 ms |
| GitHubClient.RetryableStatuses | src/lib/github/client.ts:93-94 | 403, 429 and 5xx are retried; 404, 401, 422 and a missing status are not |
| GitHubClient.BuildSearchQuery | src/lib/github/client.ts:154-159 | the qualifier pushes and join give `SearchQuery` |
| GitHubClient.SearchQueryDefault | src/lib/github/client.ts:159 | with no language, topic or positive minimum the query is "stars:>=100" |
| GitHubClient.SearchQueryAll | src/lib/github/client.ts:154-159 | with all three the query is language, stars and topic qualifiers separated by spaces |
| GitHubClient.SearchQueryLanguageOnly | src/lib/github/client.ts:154-159 | with only a language the query is "language:…" |
| GitHubClient.HasNextPageIffPagesLeft | src/lib/github/client.ts:173 | there is a next page exactly while fewer than ⌈total / perPage⌉ pages have been read |
| GitHubClient.FetchRepositories | src/lib/github/client.ts:141-176 | the request uses the defaults, the query is `SearchQuery`, and the retried answer is returned with `hasNextPage`, or the error is rethrown |
| GitHubClient.FetchRepoReadme | src/lib/github/client.ts:182-204 | the README is the decoded content of the retried answer |
| GitHubClient.ReadmeNullIff | src/lib/github/client.ts:182-204 | the README is null exactly when the content is empty or the answer is 404; any other failure is rethrown unchanged |
| GitHubClient.ReadmeNotFoundOneCall | src/lib/github/client.ts:196-203 | a 404 is not retried and yields null |
| GitHubClient.WithoutPullRequestsInOrder | src/lib/github/client.ts:225-232 | the filtering loop keeps the non-pull-request entries in order |
| GitHubClient.PullRequestsDropped | src/lib/github/client.ts:225-232 | every real issue is kept and the list never grows |
| GitHubClient.FetchRepoIssues | src/lib/github/client.ts:210-233 | open issues, 100 per page from page 1 by default, sorted by update: the retried answer without pull requests, or the error |
| GitHubClient.TrendingTopicsRanked | src/lib/github/client.ts:275-285 | at most 30 distinct topics that occur, ordered by frequency, none left out more frequent than one kept |
| GitHubClient.TrendingTopicsCache.constructor | src/lib/github/client.ts:63-69 | the cache starts empty |
| GitHubClient.TrendingTopicsCache.FetchTrendingTopics | src/lib/github/client.ts:254-293 | a fresh cache answers without a search; otherwise the retried search's ranked topics are stored for the time-to-live and returned, and a failure leaves the cache as it was |
| TopicRanking.CountTopics | src/lib/github/client.ts:275-280 | the counting loop gives `Tally` of all topics in order |
| TopicRanking.TallyCounts | src/lib/github/client.ts:275-280 | each topic's count is its number of occurrences, and the keys are the distinct topics in order of first appearance |
| TopicRanking.RankProperties | src/lib/github/client.ts:282-285 | ranking keeps min(limit, distinct topics) topics with `RankedTopics` |
| TopicRanking.RankEmptyIff | src/app/api/trending/route.ts:65-71 | with a positive limit the ranking is empty exactly when there are no topics |
| TrendingRoute.FetchTrendingTopics | src/app/api/trending/route.ts:41-75 | a method that gives `TopicsFor` the answer to one search for repositories created since the date with over 50 stars, 50 per page, sorted by stars in descending order |
| TrendingRoute.TopicsForCases | src/app/api/trending/route.ts:57-74 | the fallback list when the search throws or finds no topic; otherwise at most 20 ranked topics |
| TrendingRoute.TopicsNeverEmpty | src/app/api/trending/route.ts:41-75 | the endpoint always answers with between 1 and 20 topics |
| TrendingRoute.TopicsCache.constructor | src/app/api/trending/route.ts:30 | the cache starts empty |
| TrendingRoute.TopicsCache.Get | src/app/api/trending/route.ts:32-95 | a valid cache answers without a search; otherwise the fetched topics are stored with their time and returned |
| DiscoverRoute.ParseAllIff | src/app/api/discover/route.ts:20-32 | an array parses exactly when each element does, element by element |
| DiscoverRoute.ParseIffValid | src/app/api/discover/route.ts:20-37 | a body parses exactly when its languages are 1 or more strings, the level is one of the three, interests and sizes are 1 or more valid names, and trending topics, if given, are strings |
| DiscoverRoute.EncodeQueryRoundTrip | src/app/api/discover/route.ts:20-37 | a query sent as JSON parses back to itself exactly when its three lists are non-empty |
| DiscoverRoute.WizardQueryAcceptedIff | src/app/api/discover/route.ts:22-24 | a query with languages and sizes is accepted exactly when it has an interest |
| DiscoverRoute.MissingLanguagesRefused | src/app/api/discover/route.ts:21 | a body without languages, or with an empty list, is refused |
| DiscoverRoute.Post | src/app/api/discover/route.ts:34-70 | the handler answers `PostResponse`, and discovery runs exactly when the body is valid JSON for a request |
| DiscoverRoute.PostStatuses | src/app/api/discover/route.ts:34-70 | 200 exactly for a valid request with no fault; 500 exactly for a valid request whose discovery throws; 400 otherwise, including a `SyntaxError` |
| IssueList.ShownExactly | src/components/repo/issue-list.tsx:225-256 | each issue is shown as often as it occurs when it passes the difficulty and good-first filters, and not at all otherwise |
| IssueList.ShownIff | src/components/repo/issue-list.tsx:233-239 | an issue is listed exactly when it is in the input and passes both filters |
| IssueList.UnratedHidden | src/components/repo/issue-list.tsx:233-235 | an unclassified issue is hidden by any difficulty filter |
| IssueList.NewestFirst | src/components/repo/issue-list.tsx:242-249 | under "newest" the issues are ordered by creation time, newest first |
| IssueList.LeastCommentsFirst | src/components/repo/issue-list.tsx:250-255 | under "least comments" the issues are ordered by comment count, fewest first |
| RelativeDate.JustNow | src/lib/utils/date.ts:17-21 | under a minute, or in the future, is "just now" |
| RelativeDate.MinutesAgo | src/lib/utils/date.ts:23-26 | between n and n+1 minutes ago (n < 60) reads "n minutes ago", "1 minute ago" for one |
| RelativeDate.HoursAgo | src/lib/utils/date.ts:28-31 | between n and n+1 hours ago (n < 24) reads "n hours ago", "1 hour ago" for one |
| RelativeDate.DaysAgo | src/lib/utils/date.ts:33-36 | between n and n+1 days ago (n < 30) reads "n days ago", "1 day ago" for one |
| RelativeDate.OlderIsAbsolute | src/lib/utils/date.ts:38 | 30 days or more shows the formatted date |
| RelativeDate.SingularIff | src/lib/utils/date.ts:23-36 | the singular form is used exactly for a count of one |
| DiscoveryForm.ToggleCounts | src/components/discovery/discovery-form.tsx:37-55 | toggling removes every copy of a selected value or adds one copy of an unselected one; other values keep their counts |
| DiscoveryForm.ToggleAbsentAppends | src/components/discovery/discovery-form.tsx:37-55 | a new value goes at the end of the selection |
| DiscoveryForm.ToggleDistinct | src/components/discovery/discovery-form.tsx:37-55 | a selection without duplicates stays without duplicates |
| DiscoveryForm.ToggleTwiceRestores | src/components/discovery/discovery-form.tsx:37-55 | toggling a new value twice restores the selection |
| DiscoveryForm.GetLabelForValue | src/components/discovery/discovery-form.tsx:104-110 | the caption of the first choice with that value, or the value itself when none has it |
| DiscoveryForm.Form.constructor | src/components/discovery/discovery-form.tsx:29-35 | the wizard starts on step 0 with nothing selected |
| DiscoveryForm.Form.CanContinue | src/components/discovery/discovery-form.tsx:57-72 | step 0 needs a language, step 1 a level, step 3 a size; steps 2 and 4 always continue |
| DiscoveryForm.Form.ToggleLanguage | src/components/discovery/discovery-form.tsx:37-41 | toggles the language and changes nothing else |
| DiscoveryForm.Form.ToggleInterest | src/components/discovery/discovery-form.tsx:43-47 | toggles the interest and changes nothing else |
| DiscoveryForm.Form.ToggleRepoSize | src/components/discovery/discovery-form.tsx:49-55 | toggles the size and changes nothing else |
| DiscoveryForm.Form.SetExperienceLevel | src/components/discovery/discovery-form.tsx:31 | sets the level and changes nothing else, keeping the completed steps complete |
| DiscoveryForm.Form.HandleContinue | src/components/discovery/discovery-form.tsx:74-78 | advances one step up to the last, and keeps every passed step's requirement when it was allowed to continue |
| DiscoveryForm.Form.HandleBack | src/components/discovery/discovery-form.tsx:80-84 | goes back one step down to the first, changing no selection |
| DiscoveryForm.Form.GoToStep | src/components/discovery/discovery-form.tsx:100-102 | jumps to the step, and going back keeps the passed steps complete |
| DiscoveryForm.Form.HandleSubmit | src/components/discovery/discovery-form.tsx:86-98 | no query exactly when no level is set; otherwise the selections without trending topics; from the last step with every step passed the query has languages and sizes |
| ThemeToggle.ThemeButton.constructor | src/components/layout/theme-toggle.tsx:17-18 | the button starts unmounted with the stored theme |
| ThemeToggle.ThemeButton.Mount | src/components/layout/theme-toggle.tsx:20-22 | mounting keeps the theme |
| ThemeToggle.ThemeButton.CycleTheme | src/components/layout/theme-toggle.tsx:24-44 | only a mounted button cycles; the theme becomes `NextTheme` of the old one |
| ThemeToggle.ThemeButton.AriaLabel | src/components/layout/theme-toggle.tsx:33-51 | "Toggle theme" before mounting; afterwards it names the theme a click will switch to; none for an unknown theme |
| ThemeToggle.ThemeButton.ShownIcon | src/components/layout/theme-toggle.tsx:33-59 | the sun before mounting and for light, the moon exactly for dark, the monitor otherwise |
| ThemeToggle.IndexOf | src/components/layout/theme-toggle.tsx:26 | the first index holding the theme, or -1 exactly when it is absent |
| ThemeToggle.CycleOrder | src/components/layout/theme-toggle.tsx:8-30 | light goes to dark, dark to system, system to light, and no theme to light |
| ThemeToggle.LabelNamesNextTheme | src/components/layout/theme-toggle.tsx:10-51 | for every known theme the label names the theme that comes next |
| ThemeToggle.UnknownThemeToLight | src/components/layout/theme-toggle.tsx:24-30 | an unknown theme goes to light |
| ThemeToggle.ThreeClicksReturn | src/components/layout/theme-toggle.tsx:24-30 | three clicks return to the starting theme |
| ThemeToggle.NextInCycle | src/components/layout/theme-toggle.tsx:24-30 | a click always lands on a theme of the cycle |

## Left out

- Floating point: scores, ratios and day counts are exact reals, so float rounding error is not modelled. The health score's `Math.round` is applied to a sum of integers and changes nothing.
- `toLowerCase` maps only ASCII letters; non-ASCII case mapping is not modelled. `trim` removes the ECMAScript WhiteSpace and LineTerminator characters, with the space separators (category Zs) as of Unicode 15.
- String lengths count code points, not UTF-16 units, so `slice(0, 8000)` can differ for text outside the Basic Multilingual Plane.
- `Promise.all` in ingestion runs its calls one after the other, and a failure is the first rejection in argument order. In discovery it is modelled as calls, one after the other, to services that always answer: embedding, vector-store or database failures inside `discoverRepositories` are not modelled in `Discover`, and appear only as the `fault` parameter of `DiscoverRoute` (its 500 and 400 answers).
- Ingest.RunIngestionPipeline: the search oracle is a finite script of pages per language (`FiniteSearch`), so pagination ends after `pageLimit` pages; an unbounded GitHub answer is not modelled.
- Clocks (`Date.now()`, `new Date()`) are parameters; `formatDate`'s `toLocaleDateString` result is a parameter of `FormatRelativeDate`.
- RelativeDate: dates are millisecond numbers; an unparseable date string (`NaN`) is not modelled.
- Base64 decoding of the README is an opaque `decode` parameter; JSON text parsing is a `RequestBody` that is either invalid JSON or a parsed value; zod's error messages are reduced to their status and kind.
- Logging (`console.log`, `console.error`) is left out; it affects no result.
- `sleep` is recorded as the list of delays requested; the `Number()` parse of a retry-after header is abstracted as a header that is absent, a number of seconds, or not a number.
- `fetchRepoLanguages` is a thin wrapper over the retried call and is the `languages` oracle of ingestion.
- The `catch` and 500 branch of the trending route's `GET` is left out: `fetchTrendingTopics` there catches everything itself.
- `router.push` and the `btoa` URL encoding in the wizard's submit are left out; `HandleSubmit` returns the query it would send.
- IssueList.NewestFirst and LeastCommentsFirst, Discover.RankedReposArePermutation: sort stability is not stated, only order and permutation.
- JSX rendering, styling and the Prisma and Pinecone clients themselves are out of scope; only the values they receive and return are modelled.
