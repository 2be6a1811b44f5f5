/**
 * The decision logic of `src/lib/github/client.ts`: the rate-limit aware retry
 * loop `withRetry`, the search query and `hasNextPage` of `fetchRepositories`,
 * the README fallback to null, the pull-request filter of `fetchRepoIssues`
 * and the cached trending-topic ranking of `fetchTrendingTopics`. Octokit is
 * an oracle: `call(k)` is the outcome of the k-th call (0-based) of the
 * request. Sleeping is left out; the loop records the delays it would sleep.
 */
module GitHubClient {
  import opened Wrappers
  import opened Domain
  import opened Text
  import Seqs
  import TopicRanking

  const MAX_RETRIES: nat := 5
  const BASE_DELAY_MS: nat := 1000
  const TRENDING_CACHE_TTL_MS: int := 15 * 60 * 1000
  const TRENDING_TOPIC_LIMIT: nat := 30
  const DEFAULT_QUERY: string := "stars:>=100"

  /**
   * The `retry-after` header of a failed response: missing or empty (falsy),
   * a value `Number(...)` reads as a number of seconds, or one it reads as NaN.
   */
  datatype RetryAfter = NoHeader | Seconds(value: real) | NotANumber

  /** A thrown Octokit error: its `status`, when it has one, and its `retry-after` header. */
  datatype ApiError = ApiError(status: Option<int>, retryAfter: RetryAfter)

  /** Rate limiting (403, 429) and server errors (5xx) are retried; nothing else is. */
  predicate IsRetryable(status: Option<int>) {
    status == Some(403) || status == Some(429) || (status.Some? && status.value >= 500)
  }

  /** `Math.pow(2, k)`. */
  function Pow2(k: nat): (p: nat)
    ensures p >= 1
  {
    if k == 0 then 1 else 2 * Pow2(k - 1)
  }

  /** The delay before the next attempt, after attempt `attempt` (0-based) failed with `e`. */
  function RetryDelay(e: ApiError, attempt: nat): real {
    match e.retryAfter
    case Seconds(s) => s * 1000.0
    case _ => (BASE_DELAY_MS * Pow2(attempt)) as real
  }

  /** The outcome of `withRetry`, the number of calls made and the delays slept between them. */
  datatype RetryTrace<T> = RetryTrace(result: Result<T, ApiError>, attempts: nat, delays: seq<real>)

  /** The rest of a `withRetry` run from attempt `attempt` on. */
  function RetryFrom<T>(call: nat -> Result<T, ApiError>, attempt: nat): RetryTrace<T>
    requires attempt < MAX_RETRIES
    decreases MAX_RETRIES - attempt
  {
    var r := call(attempt);
    if r.Success? || !IsRetryable(r.error.status) || attempt == MAX_RETRIES - 1 then
      RetryTrace(r, attempt + 1, [])
    else
      var rest := RetryFrom(call, attempt + 1);
      RetryTrace(rest.result, rest.attempts, [RetryDelay(r.error, attempt)] + rest.delays)
  }

  /** `withRetry(fn)`. */
  function Retry<T>(call: nat -> Result<T, ApiError>): RetryTrace<T> {
    RetryFrom(call, 0)
  }

  /**
   * The loop of `withRetry`. The `throw lastError` after the loop is
   * unreachable: the fifth attempt returns or throws inside the loop.
   */
  method WithRetry<T>(call: nat -> Result<T, ApiError>)
    returns (result: Result<T, ApiError>, attempts: nat, delays: seq<real>)
    ensures RetryTrace(result, attempts, delays) == Retry(call)
  {
    attempts := 0;
    delays := [];
    var attempt := 0;
    while attempt < MAX_RETRIES
      invariant attempt < MAX_RETRIES && attempts == attempt
      invariant RetryFrom(call, attempt).result == Retry(call).result
      invariant RetryFrom(call, attempt).attempts == Retry(call).attempts
      invariant delays + RetryFrom(call, attempt).delays == Retry(call).delays
      decreases MAX_RETRIES - attempt
    {
      var r := call(attempt);
      attempts := attempts + 1;
      if r.Success? {
        return r, attempts, delays;
      }
      var status := r.error.status;
      var isRetryable := status == Some(403) || status == Some(429) || (status.Some? && status.value >= 500);
      if !isRetryable || attempt == MAX_RETRIES - 1 {
        return r, attempts, delays;
      }
      var delayMs := (BASE_DELAY_MS * Pow2(attempt)) as real;
      if r.error.retryAfter.Seconds? {
        delayMs := r.error.retryAfter.value * 1000.0;
      }
      assert delayMs == RetryDelay(r.error, attempt);
      ghost var rest := RetryFrom(call, attempt + 1);
      assert RetryFrom(call, attempt).delays == [delayMs] + rest.delays by {
        RetryStep(call, attempt);
      }
      Seqs.AppendAssoc(delays, [delayMs], rest.delays);
      delays := delays + [delayMs];
      attempt := attempt + 1;
    }
    assert false;
  }

  /** After a retryable failure below the budget, the run sleeps and goes on. */
  lemma RetryStep<T>(call: nat -> Result<T, ApiError>, attempt: nat)
    requires attempt < MAX_RETRIES - 1
    requires call(attempt).Failure? && IsRetryable(call(attempt).error.status)
    ensures var rest := RetryFrom(call, attempt + 1);
      RetryFrom(call, attempt) == RetryTrace(rest.result, rest.attempts, [RetryDelay(call(attempt).error, attempt)] + rest.delays)
  {
  }

  /**
   * A run from `attempt` on makes between one call and the remaining budget,
   * returns the outcome of its last call, and sleeps once after each earlier
   * call, each of which failed with a retryable status; a failure is returned
   * only when it is not retryable or the budget is spent.
   */
  lemma {:induction false} RetryFromShape<T>(call: nat -> Result<T, ApiError>, attempt: nat)
    requires attempt < MAX_RETRIES
    decreases MAX_RETRIES - attempt
    ensures var t := RetryFrom(call, attempt);
      && attempt < t.attempts <= MAX_RETRIES
      && |t.delays| == t.attempts - 1 - attempt
      && t.result == call(t.attempts - 1)
      && (t.result.Failure? ==> !IsRetryable(t.result.error.status) || t.attempts == MAX_RETRIES)
      && forall k :: attempt <= k < t.attempts - 1 ==>
           && call(k).Failure? && IsRetryable(call(k).error.status)
           && t.delays[k - attempt] == RetryDelay(call(k).error, k)
  {
    var r := call(attempt);
    if !(r.Success? || !IsRetryable(r.error.status) || attempt == MAX_RETRIES - 1) {
      RetryFromShape(call, attempt + 1);
    }
  }

  /**
   * `withRetry` calls `fn` at most five times and sleeps at most four times;
   * what it returns or rethrows is the outcome of its last call; every earlier
   * call failed with a retryable status and was followed by its delay.
   */
  lemma RetryShape<T>(call: nat -> Result<T, ApiError>)
    ensures var t := Retry(call);
      && 1 <= t.attempts <= MAX_RETRIES
      && |t.delays| == t.attempts - 1
      && t.result == call(t.attempts - 1)
      && (t.result.Failure? ==> !IsRetryable(t.result.error.status) || t.attempts == MAX_RETRIES)
      && forall k :: 0 <= k < t.attempts - 1 ==>
           && call(k).Failure? && IsRetryable(call(k).error.status)
           && t.delays[k] == RetryDelay(call(k).error, k)
  {
    RetryFromShape(call, 0);
  }

  /** The first success within the budget, reached through retryable failures, is returned. */
  lemma FirstSuccessReturned<T>(call: nat -> Result<T, ApiError>, k: nat)
    requires k < MAX_RETRIES && call(k).Success?
    requires forall j :: 0 <= j < k ==> call(j).Failure? && IsRetryable(call(j).error.status)
    ensures Retry(call).result == call(k) && Retry(call).attempts == k + 1
  {
    RetryShape(call);
  }

  /** A non-retryable error is rethrown after that single attempt, with no sleep. */
  lemma NonRetryableThrownAtOnce<T>(call: nat -> Result<T, ApiError>)
    requires call(0).Failure? && !IsRetryable(call(0).error.status)
    ensures Retry(call) == RetryTrace(call(0), 1, [])
  {
  }

  /**
   * Five retryable failures without a `retry-after` header: the fifth error is
   * rethrown after sleeping 1, 2, 4 and 8 seconds, and not after the fifth.
   */
  lemma BackoffSchedule<T>(call: nat -> Result<T, ApiError>)
    requires forall k :: 0 <= k < MAX_RETRIES ==>
      call(k).Failure? && IsRetryable(call(k).error.status) && call(k).error.retryAfter == NoHeader
    ensures Retry(call) == RetryTrace(call(4), 5, [1000.0, 2000.0, 4000.0, 8000.0])
  {
    RetryShape(call);
    var t := Retry(call);
    assert t.attempts == 5;
    assert Pow2(1) == 2 && Pow2(2) == 4 && Pow2(3) == 8;
    assert t.delays == [t.delays[0], t.delays[1], t.delays[2], t.delays[3]];
  }

  /** A numeric `retry-after` header replaces the exponential delay. */
  lemma RetryAfterOverrides(e: ApiError, attempt: nat, seconds: real)
    requires e.retryAfter == Seconds(seconds)
    ensures RetryDelay(e, attempt) == seconds * 1000.0
  {
  }

  /** Statuses as they are classified. */
  lemma RetryableStatuses()
    ensures IsRetryable(Some(403)) && IsRetryable(Some(429)) && IsRetryable(Some(500)) && IsRetryable(Some(503))
    ensures !IsRetryable(Some(404)) && !IsRetryable(Some(401)) && !IsRetryable(Some(422)) && !IsRetryable(None)
  {
  }

  // ---------------------------------------------------------------------------
  // fetchRepositories
  // ---------------------------------------------------------------------------

  datatype SortField = Stars | Forks | Updated
  datatype SortOrder = Asc | Desc

  datatype SearchReposParams = SearchReposParams(
    language: Option<string>,
    minStars: Option<int>,
    topic: Option<string>,
    page: Option<int>,
    perPage: Option<int>,
    sort: Option<SortField>,
    order: Option<SortOrder>)

  /** What `octokit.rest.search.repos` is asked for. */
  datatype RepoSearchRequest = RepoSearchRequest(q: string, sort: SortField, order: SortOrder, perPage: int, page: int)

  datatype RepoSearchResponse = RepoSearchResponse(totalCount: nat, items: seq<GitHubRepository>)

  datatype SearchReposResult = SearchReposResult(totalCount: nat, items: seq<GitHubRepository>, hasNextPage: bool)

  /** JavaScript truthiness of an optional string. */
  predicate Truthy(s: Option<string>) {
    s.Some? && s.value != ""
  }

  function OptionalPart(cond: bool, part: string): seq<string> {
    if cond then [part] else []
  }

  /** The qualifiers, in the order language, minimum stars, topic. */
  function Qualifiers(params: SearchReposParams): seq<string> {
    var minStars := params.minStars.GetOr(0);
    OptionalPart(Truthy(params.language), "language:" + params.language.GetOr(""))
    + OptionalPart(minStars > 0, "stars:>=" + NatToString(if minStars > 0 then minStars else 0))
    + OptionalPart(Truthy(params.topic), "topic:" + params.topic.GetOr(""))
  }

  /** The `q` parameter: the qualifiers joined by a space, or `stars:>=100` when there are none. */
  function SearchQuery(params: SearchReposParams): string {
    var qualifiers := Qualifiers(params);
    if |qualifiers| > 0 then Join(qualifiers, " ") else DEFAULT_QUERY
  }

  /** The qualifier pushes of `fetchRepositories`. */
  method BuildSearchQuery(params: SearchReposParams) returns (q: string)
    ensures q == SearchQuery(params)
  {
    var minStars := if params.minStars.Some? then params.minStars.value else 0;
    var qualifiers: seq<string> := [];
    if params.language.Some? && params.language.value != "" {
      qualifiers := qualifiers + ["language:" + params.language.value];
    }
    if minStars > 0 {
      qualifiers := qualifiers + ["stars:>=" + NatToString(minStars)];
    }
    if params.topic.Some? && params.topic.value != "" {
      qualifiers := qualifiers + ["topic:" + params.topic.value];
    }
    assert qualifiers == Qualifiers(params);
    q := if |qualifiers| > 0 then Join(qualifiers, " ") else DEFAULT_QUERY;
  }

  /** With no language, topic or positive minimum the query is `stars:>=100`. */
  lemma SearchQueryDefault(params: SearchReposParams)
    requires !Truthy(params.language) && !Truthy(params.topic) && params.minStars.GetOr(0) <= 0
    ensures SearchQuery(params) == DEFAULT_QUERY
  {
  }

  /** With all three qualifiers they appear in the order language, stars, topic. */
  lemma SearchQueryAll(params: SearchReposParams, language: string, minStars: nat, topic: string)
    requires params.language == Some(language) && language != ""
    requires params.minStars == Some(minStars) && minStars > 0
    requires params.topic == Some(topic) && topic != ""
    ensures SearchQuery(params) ==
      "language:" + language + " " + "stars:>=" + NatToString(minStars) + " " + "topic:" + topic
  {
    var l := "language:" + language;
    var s := "stars:>=" + NatToString(minStars);
    var t := "topic:" + topic;
    assert Qualifiers(params) == [l, s, t];
    JoinPush([l], s, " ");
    assert [l] + [s] == [l, s];
    JoinPush([l, s], t, " ");
    assert [l, s] + [t] == [l, s, t];
  }

  /** A single qualifier is the whole query. */
  lemma SearchQueryLanguageOnly(params: SearchReposParams, language: string)
    requires params.language == Some(language) && language != ""
    requires params.minStars.GetOr(0) <= 0 && !Truthy(params.topic)
    ensures SearchQuery(params) == "language:" + language
  {
    assert Qualifiers(params) == ["language:" + language];
  }

  /** `page * perPage < totalCount`. */
  predicate HasNextPage(page: int, perPage: int, totalCount: int) {
    page * perPage < totalCount
  }

  /**
   * With a positive page size, there is a later page exactly while fewer than
   * the ceiling of `totalCount / perPage` pages have been read.
   */
  lemma HasNextPageIffPagesLeft(page: nat, perPage: nat, totalCount: nat)
    requires perPage > 0
    ensures HasNextPage(page, perPage, totalCount) <==> page < (totalCount + perPage - 1) / perPage
  {
    var pages := (totalCount + perPage - 1) / perPage;
    var rem := (totalCount + perPage - 1) % perPage;
    assert totalCount + perPage - 1 == pages * perPage + rem;
    if page < pages {
      assert page + 1 <= pages;
      MulMono(page + 1, pages, perPage);
      assert page * perPage + perPage <= pages * perPage;
    } else {
      MulMono(pages, page, perPage);
      assert pages * perPage <= page * perPage;
    }
  }

  lemma MulMono(a: nat, b: nat, c: nat)
    requires a <= b
    ensures a * c <= b * c
  {
  }

  function RequestFor(params: SearchReposParams, q: string): RepoSearchRequest {
    RepoSearchRequest(q, params.sort.GetOr(Stars), params.order.GetOr(Desc),
                      params.perPage.GetOr(30), params.page.GetOr(1))
  }

  /** The k-th call of one fixed request. */
  function Calls<Q, T>(search: (Q, nat) -> Result<T, ApiError>, request: Q): nat -> Result<T, ApiError> {
    (k: nat) => search(request, k)
  }

  /** `fetchRepositories`, with the search endpoint as the oracle `search`. */
  method FetchRepositories(params: SearchReposParams,
                           search: (RepoSearchRequest, nat) -> Result<RepoSearchResponse, ApiError>)
    returns (result: Result<SearchReposResult, ApiError>, request: RepoSearchRequest)
    ensures request == RequestFor(params, SearchQuery(params))
    ensures var r := Retry(Calls(search, request)).result;
      result == match r
        case Failure(e) => Failure(e)
        case Success(resp) => Success(SearchReposResult(resp.totalCount, resp.items,
                                HasNextPage(request.page, request.perPage, resp.totalCount)))
  {
    var q := BuildSearchQuery(params);
    request := RequestFor(params, q);
    var response, _, _ := WithRetry(Calls(search, request));
    if response.Failure? {
      return Failure(response.error), request;
    }
    var totalCount := response.value.totalCount;
    var items := response.value.items;
    var hasNextPage := request.page * request.perPage < totalCount;
    result := Success(SearchReposResult(totalCount, items, hasNextPage));
  }

  // ---------------------------------------------------------------------------
  // fetchRepoReadme
  // ---------------------------------------------------------------------------

  /** The `content` field of the README response (base64). */
  datatype ReadmeResponse = ReadmeResponse(content: Option<string>)

  /**
   * What `fetchRepoReadme` makes of the outcome of its retried call: missing
   * or empty content and a 404 are null, other errors are rethrown, and
   * content is decoded by `decode` (base64 to UTF-8).
   */
  function ReadmeOutcome(r: Result<ReadmeResponse, ApiError>, decode: string -> string): Result<Option<string>, ApiError> {
    match r
    case Success(resp) => if Truthy(resp.content) then Success(Some(decode(resp.content.value))) else Success(None)
    case Failure(e) => if e.status == Some(404) then Success(None) else Failure(e)
  }

  method FetchRepoReadme(getReadme: nat -> Result<ReadmeResponse, ApiError>, decode: string -> string)
    returns (result: Result<Option<string>, ApiError>)
    ensures result == ReadmeOutcome(Retry(getReadme).result, decode)
  {
    var response, _, _ := WithRetry(getReadme);
    if response.Failure? {
      if response.error.status == Some(404) {
        return Success(None);
      }
      return Failure(response.error);
    }
    var content := response.value.content;
    if content.None? || content.value == "" {
      return Success(None);
    }
    result := Success(Some(decode(content.value)));
  }

  /**
   * The README is null exactly when the call succeeded without content or
   * failed with 404; any other failure is rethrown unchanged.
   */
  lemma ReadmeNullIff(r: Result<ReadmeResponse, ApiError>, decode: string -> string)
    ensures ReadmeOutcome(r, decode) == Success(None) <==>
      (r.Success? && !Truthy(r.value.content)) || (r.Failure? && r.error.status == Some(404))
    ensures ReadmeOutcome(r, decode).Failure? <==> r.Failure? && r.error.status != Some(404)
    ensures ReadmeOutcome(r, decode).Failure? ==> ReadmeOutcome(r, decode).error == r.error
  {
  }

  /** A missing README (404) is not retried: one call, and the result is null. */
  lemma ReadmeNotFoundOneCall(getReadme: nat -> Result<ReadmeResponse, ApiError>, decode: string -> string)
    requires getReadme(0).Failure? && getReadme(0).error.status == Some(404)
    ensures Retry(getReadme).attempts == 1
    ensures ReadmeOutcome(Retry(getReadme).result, decode) == Success(None)
  {
  }

  // ---------------------------------------------------------------------------
  // fetchRepoIssues
  // ---------------------------------------------------------------------------

  /** An entry of the issues API: an issue, and whether it has a truthy `pull_request`. */
  datatype IssueEntry = IssueEntry(issue: GitHubIssue, pullRequest: bool)

  datatype IssuesRequest = IssuesRequest(state: string, perPage: int, page: int, sort: string, direction: string)

  /** `.filter((issue) => !("pull_request" in issue && issue.pull_request))`. */
  function WithoutPullRequests(entries: seq<IssueEntry>): seq<GitHubIssue> {
    Seqs.Map(Seqs.Filter(entries, (e: IssueEntry) => !e.pullRequest), (e: IssueEntry) => e.issue)
  }

  /** The same filter written front to back, entry by entry. */
  function DropPullRequests(entries: seq<IssueEntry>): seq<GitHubIssue> {
    if entries == [] then []
    else (if entries[0].pullRequest then [] else [entries[0].issue]) + DropPullRequests(entries[1..])
  }

  /** The filter keeps exactly the entries without a pull request, in their original order. */
  lemma {:induction false} WithoutPullRequestsInOrder(entries: seq<IssueEntry>)
    ensures WithoutPullRequests(entries) == DropPullRequests(entries)
  {
    if entries != [] {
      var p := (e: IssueEntry) => !e.pullRequest;
      assert entries == [entries[0]] + entries[1..];
      Seqs.FilterAppend([entries[0]], entries[1..], p);
      assert Seqs.Filter([entries[0]], p) == if p(entries[0]) then [entries[0]] else [] by {
        assert [entries[0]][..0] == [];
      }
      WithoutPullRequestsInOrder(entries[1..]);
      MapAppend(Seqs.Filter([entries[0]], p), Seqs.Filter(entries[1..], p));
    }
  }

  lemma MapAppend(a: seq<IssueEntry>, b: seq<IssueEntry>)
    ensures Seqs.Map(a + b, (e: IssueEntry) => e.issue)
         == Seqs.Map(a, (e: IssueEntry) => e.issue) + Seqs.Map(b, (e: IssueEntry) => e.issue)
  {
  }

  /** Pull requests never come through; an entry without one always does. */
  lemma PullRequestsDropped(entries: seq<IssueEntry>, i: nat)
    requires i < |entries|
    ensures !entries[i].pullRequest ==> entries[i].issue in WithoutPullRequests(entries)
    ensures |WithoutPullRequests(entries)| <= |entries|
  {
    if !entries[i].pullRequest {
      assert entries[i] in Seqs.Filter(entries, (e: IssueEntry) => !e.pullRequest);
    }
  }

  /** `fetchRepoIssues`, with the issues endpoint as the oracle `list`. */
  method FetchRepoIssues(page: Option<int>, perPage: Option<int>,
                         list: (IssuesRequest, nat) -> Result<seq<IssueEntry>, ApiError>)
    returns (result: Result<seq<GitHubIssue>, ApiError>, request: IssuesRequest)
    ensures request == IssuesRequest("open", perPage.GetOr(100), page.GetOr(1), "updated", "desc")
    ensures var r := Retry(Calls(list, request)).result;
      result == if r.Success? then Success(WithoutPullRequests(r.value)) else Failure(r.error)
  {
    request := IssuesRequest("open", perPage.GetOr(100), page.GetOr(1), "updated", "desc");
    var response, _, _ := WithRetry(Calls(list, request));
    if response.Failure? {
      return Failure(response.error), request;
    }
    result := Success(WithoutPullRequests(response.value));
  }

  // ---------------------------------------------------------------------------
  // fetchTrendingTopics
  // ---------------------------------------------------------------------------

  /** The search for recently created, starred repositories; `since` is the date a week ago. */
  datatype TrendingSearch = TrendingSearch(q: string, sort: SortField, order: SortOrder, perPage: nat)

  function TrendingSearchFor(since: string): TrendingSearch {
    TrendingSearch("created:>=" + since + " stars:>=50", Stars, Desc, 100)
  }

  datatype CacheEntry = CacheEntry(data: seq<string>, expiresAt: int)

  /** The topics of each repository, `repo.topics ?? []`. */
  function TopicLists(items: seq<GitHubRepository>): seq<seq<string>> {
    Seqs.Map(items, (r: GitHubRepository) => r.topics.GetOr([]))
  }

  /** The 30 most frequent topics of the searched repositories. */
  function TrendingTopicsOf(items: seq<GitHubRepository>): seq<string> {
    TopicRanking.Rank(TopicRanking.Tally(TopicRanking.Flatten(TopicLists(items))), TRENDING_TOPIC_LIMIT)
  }

  /** At most 30 distinct topics, each one that occurs, ranked by frequency. */
  lemma TrendingTopicsRanked(items: seq<GitHubRepository>)
    ensures var ts := TopicRanking.Flatten(TopicLists(items));
      && |TrendingTopicsOf(items)| <= TRENDING_TOPIC_LIMIT
      && TopicRanking.RankedTopics(ts, TrendingTopicsOf(items))
  {
    TopicRanking.RankProperties(TopicRanking.Flatten(TopicLists(items)), TRENDING_TOPIC_LIMIT);
  }

  /** The module-level `trendingCache`. */
  class TrendingTopicsCache {
    var entry: Option<CacheEntry>

    constructor()
      ensures entry == None
    {
      entry := None;
    }

    /** `trendingCache && Date.now() < trendingCache.expiresAt`. */
    predicate Fresh(now: int)
      reads this
    {
      entry.Some? && now < entry.value.expiresAt
    }

    /**
     * `fetchTrendingTopics`: `now` is the clock when it is called, `storedAt`
     * when the cache is written. A hit returns the cached topics without a
     * search; a failed search is rethrown and leaves the cache alone.
     */
    method FetchTrendingTopics(now: int, since: string, storedAt: int,
                               search: (TrendingSearch, nat) -> Result<seq<GitHubRepository>, ApiError>)
      returns (result: Result<seq<string>, ApiError>)
      modifies this
      ensures old(Fresh(now)) ==> result == Success(old(entry).value.data) && entry == old(entry)
      ensures !old(Fresh(now)) ==>
        var r := Retry(Calls(search, TrendingSearchFor(since))).result;
        if r.Failure? then result == Failure(r.error) && entry == old(entry)
        else
          && result == Success(TrendingTopicsOf(r.value))
          && entry == Some(CacheEntry(TrendingTopicsOf(r.value), storedAt + TRENDING_CACHE_TTL_MS))
    {
      if entry.Some? && now < entry.value.expiresAt {
        return Success(entry.value.data);
      }
      var response, _, _ := WithRetry(Calls(search, TrendingSearchFor(since)));
      if response.Failure? {
        return Failure(response.error);
      }
      var counts := TopicRanking.CountTopics(TopicLists(response.value));
      var topics := TopicRanking.Rank(counts, TRENDING_TOPIC_LIMIT);
      entry := Some(CacheEntry(topics, storedAt + TRENDING_CACHE_TTL_MS));
      result := Success(topics);
    }
  }
}
