/**
 * `src/app/api/trending/route.ts`: the trending endpoint ranks the topics of
 * last week's most starred new repositories (one search, no retry), keeps the
 * 20 most frequent, falls back to a fixed list when there are none or the
 * search throws, and caches the answer for 15 minutes in a module-level
 * variable. Clock readings are parameters.
 */
module TrendingRoute {
  import opened Wrappers
  import opened Domain
  import Seqs
  import TopicRanking
  import GitHubClient

  const CACHE_TTL_MS: int := 15 * 60 * 1000
  const TOPIC_LIMIT: nat := 20

  const FALLBACK_TOPICS: seq<string> := [
    "machine-learning", "typescript", "react", "rust", "web-assembly",
    "kubernetes", "graphql", "next-js", "tailwindcss", "open-source",
    "cli", "developer-tools", "ai", "llm", "blockchain"]

  /**
   * The search sent to GitHub, most starred first; `since` is the date a week
   * ago (`YYYY-MM-DD`).
   */
  datatype TrendingSearch = TrendingSearch(q: string, sort: GitHubClient.SortField,
                                           order: GitHubClient.SortOrder, perPage: nat)

  function SearchFor(since: string): TrendingSearch {
    TrendingSearch("created:>" + since + " stars:>50", GitHubClient.Stars, GitHubClient.Desc, 50)
  }

  datatype CacheEntry = CacheEntry(topics: seq<string>, fetchedAt: int)

  /** The topics of each repository, `repo.topics ?? []`. */
  function TopicLists(items: seq<GitHubRepository>): seq<seq<string>> {
    Seqs.Map(items, (r: GitHubRepository) => r.topics.GetOr([]))
  }

  function AllTopics(items: seq<GitHubRepository>): seq<string> {
    TopicRanking.Flatten(TopicLists(items))
  }

  /** What `fetchTrendingTopics` returns for the outcome of its search. */
  function TopicsFor(response: Result<seq<GitHubRepository>, string>): seq<string> {
    match response
    case Failure(_) => FALLBACK_TOPICS
    case Success(items) =>
      var sorted := TopicRanking.Rank(TopicRanking.Tally(AllTopics(items)), TOPIC_LIMIT);
      if |sorted| > 0 then sorted else FALLBACK_TOPICS
  }

  /** `fetchTrendingTopics`, with the GitHub search as the oracle `search`. */
  method FetchTrendingTopics(since: string, search: TrendingSearch -> Result<seq<GitHubRepository>, string>)
    returns (topics: seq<string>)
    ensures topics == TopicsFor(search(SearchFor(since)))
  {
    var response := search(SearchFor(since));
    if response.Failure? {
      return FALLBACK_TOPICS;
    }
    var counts := TopicRanking.CountTopics(TopicLists(response.value));
    var sorted := TopicRanking.Rank(counts, TOPIC_LIMIT);
    topics := if |sorted| > 0 then sorted else FALLBACK_TOPICS;
  }

  /**
   * The fallback list is returned when the search throws or finds no topic at
   * all; otherwise the answer is at most 20 ranked topics of the repositories
   * found.
   */
  lemma TopicsForCases(response: Result<seq<GitHubRepository>, string>)
    ensures response.Failure? || AllTopics(response.value) == [] ==> TopicsFor(response) == FALLBACK_TOPICS
    ensures response.Success? && AllTopics(response.value) != [] ==>
      && |TopicsFor(response)| <= TOPIC_LIMIT
      && TopicRanking.RankedTopics(AllTopics(response.value), TopicsFor(response))
  {
    if response.Success? {
      var ts := AllTopics(response.value);
      TopicRanking.RankProperties(ts, TOPIC_LIMIT);
      TopicRanking.RankEmptyIff(ts, TOPIC_LIMIT);
    }
  }

  /** The endpoint always answers with between 1 and 20 topics. */
  lemma TopicsNeverEmpty(response: Result<seq<GitHubRepository>, string>)
    ensures 0 < |TopicsFor(response)| <= TOPIC_LIMIT
  {
    TopicsForCases(response);
    if response.Success? && AllTopics(response.value) != [] {
      TopicRanking.RankEmptyIff(AllTopics(response.value), TOPIC_LIMIT);
    }
  }

  /** The module-level `cache` of the route. */
  class TopicsCache {
    var cache: Option<CacheEntry>

    constructor()
      ensures cache == None
    {
      cache := None;
    }

    /** `isCacheValid()` at time `now`. */
    predicate IsCacheValid(now: int)
      reads this
    {
      cache.Some? && now - cache.value.fetchedAt < CACHE_TTL_MS
    }

    /**
     * `GET`: a valid cache answers without a search; otherwise the topics
     * fetched, the fallback included, are stored with the time `fetchedAt`
     * and returned.
     */
    method Get(now: int, since: string, fetchedAt: int,
               search: TrendingSearch -> Result<seq<GitHubRepository>, string>)
      returns (topics: seq<string>, searched: bool)
      modifies this
      ensures old(IsCacheValid(now)) ==> !searched && topics == old(cache).value.topics && cache == old(cache)
      ensures !old(IsCacheValid(now)) ==>
        && searched
        && topics == TopicsFor(search(SearchFor(since)))
        && cache == Some(CacheEntry(topics, fetchedAt))
    {
      if cache.Some? && now - cache.value.fetchedAt < CACHE_TTL_MS {
        return cache.value.topics, false;
      }
      topics := FetchTrendingTopics(since, search);
      searched := true;
      cache := Some(CacheEntry(topics, fetchedAt));
    }
  }
}
