/**
 * The discovery orchestrator of `src/lib/query/discover.ts`. The embedding
 * service and the two vector indexes are oracles; the relational store is
 * given as its two tables, and `findMany` is the table filtered by the `where`
 * clause, in table order.
 */
module Discover {
  import opened Wrappers
  import opened Domain
  import opened Sorting
  import Seqs
  import QE = QueryEmbeddings
  import opened QueryVectorDb

  const TOP_REPOS: nat := 20
  const TOP_ISSUES_PER_SEARCH: nat := 50
  const MAX_ISSUES_PER_REPO: nat := 5
  const ISSUE_AVAILABILITY_BONUS: real := 0.02

  datatype IssueMatch = IssueMatch(
    id: string,
    number: nat,
    title: string,
    url: string,
    labels: seq<string>,
    difficulty: Option<Difficulty>,
    score: real)

  datatype RepoMatch = RepoMatch(
    id: string,
    fullName: string,
    description: Option<string>,
    url: string,
    stars: nat,
    primaryLanguage: Option<string>,
    topics: seq<string>,
    size: RepoSize,
    score: real,
    matchedIssues: seq<IssueMatch>)

  datatype DiscoveryResult = DiscoveryResult(
    repos: seq<RepoMatch>,
    query: DiscoveryQuery,
    totalReposSearched: nat)

  /** The external services seen by the orchestrator. */
  datatype Services = Services(
    embed: string -> seq<real>,
    repoIndex: VectorQuery<RepoFilter> -> Option<seq<RawMatch>>,
    issueIndex: VectorQuery<IssueFilter> -> Option<seq<RawMatch>>,
    repositories: seq<RepositoryRecord>,
    issues: seq<IssueRecord>)

  /** One call to an external service, for the record of what was asked. */
  datatype Call =
    | EmbedQuery(text: string)
    | QueryRepoIndex(repoQuery: VectorQuery<RepoFilter>)
    | QueryIssueIndex(issueQuery: VectorQuery<IssueFilter>)
    | FindRepositories(repoIds: seq<string>)
    | FindOpenIssues(issueIds: seq<string>)

  // ---------------------------------------------------------------------------
  // Issue search parameters
  // ---------------------------------------------------------------------------

  /** `buildIssueSearchParams`: the issue filter chosen by experience level. */
  function BuildIssueSearchParams(embedding: seq<real>, repoIds: seq<string>,
                                  level: ExperienceLevel): (p: IssueSearchParams)
    ensures p.embedding == embedding && p.topK == TOP_ISSUES_PER_SEARCH && p.repoIds == repoIds
  {
    var base := IssueSearchParams(embedding, TOP_ISSUES_PER_SEARCH, repoIds, None, None);
    match level
    case Beginner => base.(isGoodFirstIssue := Some(true))
    case Intermediate => base.(difficulties := Some([BEGINNER, INTERMEDIATE]))
    case Expert => base
  }

  predicate InRepos(repoIds: seq<string>, meta: IssueMetadata) {
    |repoIds| == 0 || meta.repoId in repoIds
  }

  /** A beginner sees only good first issues of the matched repositories. */
  lemma BeginnerIssueFilter(embedding: seq<real>, repoIds: seq<string>, meta: IssueMetadata)
    ensures IssueAdmits(IssueFilterFor(BuildIssueSearchParams(embedding, repoIds, Beginner)), meta)
        <==> InRepos(repoIds, meta) && meta.isGoodFirstIssue
  {
    IssueFilterAdmitsIff(BuildIssueSearchParams(embedding, repoIds, Beginner), meta);
  }

  /** An intermediate user sees issues classified BEGINNER or INTERMEDIATE. */
  lemma IntermediateIssueFilter(embedding: seq<real>, repoIds: seq<string>, meta: IssueMetadata)
    ensures IssueAdmits(IssueFilterFor(BuildIssueSearchParams(embedding, repoIds, Intermediate)), meta)
        <==> InRepos(repoIds, meta) && meta.difficulty in {"BEGINNER", "INTERMEDIATE"}
  {
    var p := BuildIssueSearchParams(embedding, repoIds, Intermediate);
    IssueFilterAdmitsIff(p, meta);
    assert DifficultyIn(meta.difficulty, [BEGINNER, INTERMEDIATE])
       <==> meta.difficulty in {"BEGINNER", "INTERMEDIATE"} by {
      if meta.difficulty == "BEGINNER" {
        assert DifficultyName(BEGINNER) == meta.difficulty;
      } else if meta.difficulty == "INTERMEDIATE" {
        assert DifficultyName(INTERMEDIATE) == meta.difficulty;
      }
    }
  }

  /** An expert sees every issue of the matched repositories. */
  lemma ExpertIssueFilter(embedding: seq<real>, repoIds: seq<string>, meta: IssueMetadata)
    ensures IssueAdmits(IssueFilterFor(BuildIssueSearchParams(embedding, repoIds, Expert)), meta)
        <==> InRepos(repoIds, meta)
  {
    IssueFilterAdmitsIff(BuildIssueSearchParams(embedding, repoIds, Expert), meta);
  }

  // ---------------------------------------------------------------------------
  // Score maps, hydration and grouping
  // ---------------------------------------------------------------------------

  function ResultId(r: VectorSearchResult): string {
    r.id
  }

  function Ids(results: seq<VectorSearchResult>): (ids: seq<string>)
    ensures |ids| == |results|
    ensures forall i :: 0 <= i < |results| ==> ids[i] == results[i].id
  {
    Seqs.Map(results, ResultId)
  }

  /**
   * `new Map(results.map(r => [r.id, r.score])).get(id)`: the score of the
   * last result with that id, since a later entry overwrites an earlier one.
   */
  function ScoreOf(results: seq<VectorSearchResult>, id: string): (s: Option<real>)
    ensures s.Some? <==> exists i :: 0 <= i < |results| && results[i].id == id
    ensures s.Some? ==> exists i :: 0 <= i < |results| && results[i] == VectorSearchResult(id, s.value)
  {
    if results == [] then None
    else if results[|results| - 1].id == id then Some(results[|results| - 1].score)
    else ScoreOf(results[..|results| - 1], id)
  }

  function RepoIdIn(ids: seq<string>): RepositoryRecord -> bool {
    (r: RepositoryRecord) => r.id in ids
  }

  function OpenIssueIdIn(ids: seq<string>): IssueRecord -> bool {
    (r: IssueRecord) => r.id in ids && r.state == OPEN
  }

  function ForRepo(repoId: string): IssueRecord -> bool {
    (r: IssueRecord) => r.repoId == repoId
  }

  /** The issue row as an `IssueMatch`, scored from the issue search (default 0). */
  function IssueMatchOf(issueResults: seq<VectorSearchResult>, r: IssueRecord): IssueMatch {
    IssueMatch(r.id, r.number, r.title, r.url, r.labels, r.difficulty,
               ScoreOf(issueResults, r.id).GetOr(0.0))
  }

  function ToIssueMatch(issueResults: seq<VectorSearchResult>): IssueRecord -> IssueMatch {
    (r: IssueRecord) => IssueMatchOf(issueResults, r)
  }

  function IssueMatchScore(m: IssueMatch): real {
    m.score
  }

  /** The matches of one repository, in row order (what the grouping loop collects). */
  function MatchesFor(issueRows: seq<IssueRecord>, issueResults: seq<VectorSearchResult>,
                      repoId: string): seq<IssueMatch> {
    Seqs.Map(Seqs.Filter(issueRows, ForRepo(repoId)), ToIssueMatch(issueResults))
  }

  /** Sorted by score, largest first, and cut to five. */
  function KeptOf(matches: seq<IssueMatch>): seq<IssueMatch> {
    Seqs.Take(SortDesc(matches, IssueMatchScore), MAX_ISSUES_PER_REPO)
  }

  function KeptIssues(issueRows: seq<IssueRecord>, issueResults: seq<VectorSearchResult>,
                      repoId: string): seq<IssueMatch> {
    KeptOf(MatchesFor(issueRows, issueResults, repoId))
  }

  function RepoMatchOf(row: RepositoryRecord, semanticScore: real, matched: seq<IssueMatch>): RepoMatch {
    RepoMatch(row.id, row.fullName, row.description, row.url, row.stars, row.primaryLanguage,
              row.topics, row.size, semanticScore + |matched| as real * ISSUE_AVAILABILITY_BONUS,
              matched)
  }

  function RepoMatchFor(repoResults: seq<VectorSearchResult>, issueRows: seq<IssueRecord>,
                        issueResults: seq<VectorSearchResult>): RepositoryRecord -> RepoMatch {
    (row: RepositoryRecord) =>
      RepoMatchOf(row, ScoreOf(repoResults, row.id).GetOr(0.0), KeptIssues(issueRows, issueResults, row.id))
  }

  function RepoMatchScore(m: RepoMatch): real {
    m.score
  }

  function RankedRepos(repoRows: seq<RepositoryRecord>, repoResults: seq<VectorSearchResult>,
                       issueRows: seq<IssueRecord>, issueResults: seq<VectorSearchResult>): seq<RepoMatch> {
    SortDesc(Seqs.Map(repoRows, RepoMatchFor(repoResults, issueRows, issueResults)), RepoMatchScore)
  }

  // ---------------------------------------------------------------------------
  // The orchestration as a specification
  // ---------------------------------------------------------------------------

  function Embedding(query: DiscoveryQuery, s: Services): seq<real> {
    s.embed(QE.QueryText(query))
  }

  function RepoQueryOf(query: DiscoveryQuery, s: Services): VectorQuery<RepoFilter> {
    var params := RepoSearchParams(Embedding(query, s), TOP_REPOS, Some(query.languages), Some(query.repoSizes));
    VectorQuery(params.embedding, params.topK, RepoFilterFor(params))
  }

  function RepoResultsOf(query: DiscoveryQuery, s: Services): seq<VectorSearchResult> {
    MapMatches(s.repoIndex(RepoQueryOf(query, s)))
  }

  function IssueQueryOf(query: DiscoveryQuery, s: Services): VectorQuery<IssueFilter> {
    var params := BuildIssueSearchParams(Embedding(query, s), Ids(RepoResultsOf(query, s)), query.experienceLevel);
    VectorQuery(params.embedding, params.topK, IssueFilterFor(params))
  }

  function IssueResultsOf(query: DiscoveryQuery, s: Services): seq<VectorSearchResult> {
    MapMatches(s.issueIndex(IssueQueryOf(query, s)))
  }

  function RepoRowsOf(query: DiscoveryQuery, s: Services): seq<RepositoryRecord> {
    Seqs.Filter(s.repositories, RepoIdIn(Ids(RepoResultsOf(query, s))))
  }

  /** The OPEN issue rows among the matched ids; no lookup at all for no ids. */
  function IssueRowsOf(query: DiscoveryQuery, s: Services): seq<IssueRecord> {
    var issueIds := Ids(IssueResultsOf(query, s));
    if |issueIds| > 0 then Seqs.Filter(s.issues, OpenIssueIdIn(issueIds)) else []
  }

  function Discovery(query: DiscoveryQuery, s: Services): DiscoveryResult {
    var repoResults := RepoResultsOf(query, s);
    if |repoResults| == 0 then DiscoveryResult([], query, 0)
    else
      DiscoveryResult(
        RankedRepos(RepoRowsOf(query, s), repoResults, IssueRowsOf(query, s), IssueResultsOf(query, s)),
        query,
        |repoResults|)
  }

  /** The external calls, in order. */
  function DiscoveryCalls(query: DiscoveryQuery, s: Services): seq<Call> {
    CallsFor(QE.QueryText(query), RepoQueryOf(query, s), RepoResultsOf(query, s),
             IssueQueryOf(query, s), IssueResultsOf(query, s))
  }

  /** The calls for given intermediate values: the issue steps only after a repository match. */
  function CallsFor(text: string, repoQuery: VectorQuery<RepoFilter>, repoResults: seq<VectorSearchResult>,
                    issueQuery: VectorQuery<IssueFilter>, issueResults: seq<VectorSearchResult>): seq<Call> {
    var head := [EmbedQuery(text), QueryRepoIndex(repoQuery)];
    if |repoResults| == 0 then head
    else
      var issueIds := Ids(issueResults);
      head + [QueryIssueIndex(issueQuery), FindRepositories(Ids(repoResults))]
      + (if |issueIds| > 0 then [FindOpenIssues(issueIds)] else [])
  }

  // ---------------------------------------------------------------------------
  // The orchestration as it runs
  // ---------------------------------------------------------------------------

  /** After the first `i` rows there is one entry per repository seen so far. */
  ghost predicate GroupedKeys(issueRows: seq<IssueRecord>, i: nat, issuesByRepo: map<string, seq<IssueMatch>>)
    requires i <= |issueRows|
  {
    forall k :: k in issuesByRepo <==> exists j :: 0 <= j < i && issueRows[j].repoId == k
  }

  /** After the first `i` rows each entry holds its repository's matches so far, in row order. */
  ghost predicate GroupedValues(issueRows: seq<IssueRecord>, issueResults: seq<VectorSearchResult>, i: nat,
                                issuesByRepo: map<string, seq<IssueMatch>>)
    requires i <= |issueRows|
  {
    forall k :: k in issuesByRepo ==> issuesByRepo[k] == MatchesFor(issueRows[..i], issueResults, k)
  }

  /** The entry of row `i`'s repository after that row is added. */
  function GroupedAfter(issueRows: seq<IssueRecord>, issueResults: seq<VectorSearchResult>, i: nat,
                        issuesByRepo: map<string, seq<IssueMatch>>): map<string, seq<IssueMatch>>
    requires i < |issueRows|
  {
    var id := issueRows[i].repoId;
    var existing := if id in issuesByRepo then issuesByRepo[id] else [];
    issuesByRepo[id := existing + [IssueMatchOf(issueResults, issueRows[i])]]
  }

  lemma GroupedKeysStep(issueRows: seq<IssueRecord>, issueResults: seq<VectorSearchResult>, i: nat,
                        issuesByRepo: map<string, seq<IssueMatch>>)
    requires i < |issueRows| && GroupedKeys(issueRows, i, issuesByRepo)
    ensures GroupedKeys(issueRows, i + 1, GroupedAfter(issueRows, issueResults, i, issuesByRepo))
  {
    var grouped := GroupedAfter(issueRows, issueResults, i, issuesByRepo);
    forall k ensures k in grouped <==> exists j :: 0 <= j < i + 1 && issueRows[j].repoId == k {
      if k != issueRows[i].repoId && k in grouped {
        assert k in issuesByRepo;
      }
    }
  }

  lemma GroupedValuesStep(issueRows: seq<IssueRecord>, issueResults: seq<VectorSearchResult>, i: nat,
                          issuesByRepo: map<string, seq<IssueMatch>>)
    requires i < |issueRows| && GroupedKeys(issueRows, i, issuesByRepo)
    requires GroupedValues(issueRows, issueResults, i, issuesByRepo)
    ensures GroupedValues(issueRows, issueResults, i + 1, GroupedAfter(issueRows, issueResults, i, issuesByRepo))
  {
    var grouped := GroupedAfter(issueRows, issueResults, i, issuesByRepo);
    forall k | k in grouped ensures grouped[k] == MatchesFor(issueRows[..i + 1], issueResults, k) {
      MatchesForStep(issueRows, issueResults, i, k);
      if k == issueRows[i].repoId && k !in issuesByRepo {
        MatchesForNone(issueRows[..i], issueResults, k);
      }
    }
  }

  /** The grouping loop: issue matches collected per repository id, in row order. */
  method GroupIssues(issueRows: seq<IssueRecord>, issueResults: seq<VectorSearchResult>)
    returns (issuesByRepo: map<string, seq<IssueMatch>>)
    ensures forall k :: k in issuesByRepo <==> exists j :: 0 <= j < |issueRows| && issueRows[j].repoId == k
    ensures forall k :: k in issuesByRepo ==> issuesByRepo[k] == MatchesFor(issueRows, issueResults, k)
  {
    issuesByRepo := map[];
    for i := 0 to |issueRows|
      invariant GroupedKeys(issueRows, i, issuesByRepo)
      invariant GroupedValues(issueRows, issueResults, i, issuesByRepo)
    {
      var issue := issueRows[i];
      var score := ScoreOf(issueResults, issue.id).GetOr(0.0);
      var issueMatch := IssueMatch(issue.id, issue.number, issue.title, issue.url, issue.labels,
                                   issue.difficulty, score);
      var existing := if issue.repoId in issuesByRepo then issuesByRepo[issue.repoId] else [];
      existing := existing + [issueMatch];
      GroupedKeysStep(issueRows, issueResults, i, issuesByRepo);
      GroupedValuesStep(issueRows, issueResults, i, issuesByRepo);
      issuesByRepo := issuesByRepo[issue.repoId := existing];
    }
    assert issueRows[..|issueRows|] == issueRows;
  }

  /** One more row extends exactly its own repository's matches. */
  lemma MatchesForStep(issueRows: seq<IssueRecord>, issueResults: seq<VectorSearchResult>, i: nat, k: string)
    requires i < |issueRows|
    ensures MatchesFor(issueRows[..i + 1], issueResults, k) ==
      MatchesFor(issueRows[..i], issueResults, k)
      + (if issueRows[i].repoId == k then [IssueMatchOf(issueResults, issueRows[i])] else [])
  {
    var prefix := issueRows[..i + 1];
    assert prefix[..|prefix| - 1] == issueRows[..i];
    assert prefix[|prefix| - 1] == issueRows[i];
    var a := Seqs.Filter(issueRows[..i], ForRepo(k));
    var b := if issueRows[i].repoId == k then [issueRows[i]] else [];
    assert Seqs.Filter(prefix, ForRepo(k)) == a + b;
    MapAppend(a, b, ToIssueMatch(issueResults));
  }

  lemma MapAppend<T, U>(a: seq<T>, b: seq<T>, f: T -> U)
    ensures Seqs.Map(a + b, f) == Seqs.Map(a, f) + Seqs.Map(b, f)
  {
  }

  /** A repository without rows so far has no matches so far. */
  lemma MatchesForNone(rows: seq<IssueRecord>, issueResults: seq<VectorSearchResult>, k: string)
    requires forall j :: 0 <= j < |rows| ==> rows[j].repoId != k
    ensures MatchesFor(rows, issueResults, k) == []
  {
    Seqs.FilterNone(rows, ForRepo(k));
  }

  /** The per-repository sort and cut, one key at a time (the order of keys does not matter). */
  method KeepTopIssues(issuesByRepo: map<string, seq<IssueMatch>>)
    returns (kept: map<string, seq<IssueMatch>>)
    ensures kept.Keys == issuesByRepo.Keys
    ensures forall k :: k in kept ==> kept[k] == KeptOf(issuesByRepo[k])
  {
    kept := issuesByRepo;
    var pending := issuesByRepo.Keys;
    while pending != {}
      invariant pending <= kept.Keys && kept.Keys == issuesByRepo.Keys
      invariant forall k :: k in kept && k !in pending ==> kept[k] == KeptOf(issuesByRepo[k])
      invariant forall k :: k in pending ==> kept[k] == issuesByRepo[k]
      decreases |pending|
    {
      var repoId :| repoId in pending;
      var issues := SortDesc(kept[repoId], IssueMatchScore);
      kept := kept[repoId := Seqs.Take(issues, MAX_ISSUES_PER_REPO)];
      pending := pending - {repoId};
    }
  }

  /** Steps 5 and 6: group, sort and cut the issues, score and sort the repositories. */
  method RankRepos(repoRows: seq<RepositoryRecord>, repoResults: seq<VectorSearchResult>,
                   issueRows: seq<IssueRecord>, issueResults: seq<VectorSearchResult>)
    returns (repos: seq<RepoMatch>)
    ensures repos == RankedRepos(repoRows, repoResults, issueRows, issueResults)
  {
    var issuesByRepo := GroupIssues(issueRows, issueResults);
    var kept := KeepTopIssues(issuesByRepo);

    repos := Seqs.Map(repoRows, (row: RepositoryRecord) =>
      RepoMatchOf(row, ScoreOf(repoResults, row.id).GetOr(0.0),
                  if row.id in kept then kept[row.id] else []));
    forall i | 0 <= i < |repoRows|
      ensures repos[i] == RepoMatchFor(repoResults, issueRows, issueResults)(repoRows[i])
    {
      var id := repoRows[i].id;
      if id !in kept {
        MatchesForNone(issueRows, issueResults, id);
      }
    }
    assert repos == Seqs.Map(repoRows, RepoMatchFor(repoResults, issueRows, issueResults));
    repos := SortDesc(repos, RepoMatchScore);
  }

  /** Steps 1 and 2: embed the query text and search the repository index. */
  method SearchMatchingRepos(query: DiscoveryQuery, s: Services)
    returns (embedding: seq<real>, repoResults: seq<VectorSearchResult>, calls: seq<Call>)
    ensures embedding == Embedding(query, s)
    ensures repoResults == RepoResultsOf(query, s)
    ensures calls == [EmbedQuery(QE.QueryText(query)), QueryRepoIndex(RepoQueryOf(query, s))]
  {
    var queryText;
    embedding, queryText := QE.GenerateQueryEmbedding(query, s.embed);
    var repoQuery;
    repoResults, repoQuery := SearchRepos(
      RepoSearchParams(embedding, TOP_REPOS, Some(query.languages), Some(query.repoSizes)), s.repoIndex);
    calls := [EmbedQuery(queryText), QueryRepoIndex(repoQuery)];
  }

  /** Steps 3 and 4: search the issue index, then read the rows from the store. */
  method SearchAndHydrate(query: DiscoveryQuery, s: Services, embedding: seq<real>,
                          repoResults: seq<VectorSearchResult>)
    returns (issueResults: seq<VectorSearchResult>, repoRows: seq<RepositoryRecord>,
             issueRows: seq<IssueRecord>, calls: seq<Call>)
    requires embedding == Embedding(query, s) && repoResults == RepoResultsOf(query, s)
    ensures issueResults == IssueResultsOf(query, s)
    ensures repoRows == RepoRowsOf(query, s) && issueRows == IssueRowsOf(query, s)
    ensures calls == [QueryIssueIndex(IssueQueryOf(query, s)), FindRepositories(Ids(repoResults))]
                     + (if |Ids(issueResults)| > 0 then [FindOpenIssues(Ids(issueResults))] else [])
  {
    var repoIds := Ids(repoResults);
    var issueQuery;
    issueResults, issueQuery := SearchIssues(
      BuildIssueSearchParams(embedding, repoIds, query.experienceLevel), s.issueIndex);
    var issueIds := Ids(issueResults);
    repoRows := Seqs.Filter(s.repositories, RepoIdIn(repoIds));
    calls := [QueryIssueIndex(issueQuery), FindRepositories(repoIds)];
    issueRows := [];
    if |issueIds| > 0 {
      issueRows := Seqs.Filter(s.issues, OpenIssueIdIn(issueIds));
      calls := calls + [FindOpenIssues(issueIds)];
    }
  }

  /** `discoverRepositories`, returning also the calls it made. */
  method DiscoverRepositories(query: DiscoveryQuery, s: Services)
    returns (result: DiscoveryResult, calls: seq<Call>)
    ensures result == Discovery(query, s)
    ensures calls == DiscoveryCalls(query, s)
  {
    var embedding, repoResults;
    embedding, repoResults, calls := SearchMatchingRepos(query, s);
    if |repoResults| == 0 {
      return DiscoveryResult([], query, 0), calls;
    }
    var issueResults, repoRows, issueRows, moreCalls := SearchAndHydrate(query, s, embedding, repoResults);
    Seqs.AppendAssoc(calls, [QueryIssueIndex(IssueQueryOf(query, s)), FindRepositories(Ids(repoResults))],
                     if |Ids(issueResults)| > 0 then [FindOpenIssues(Ids(issueResults))] else []);
    calls := calls + moreCalls;
    var repos := RankRepos(repoRows, repoResults, issueRows, issueResults);
    result := DiscoveryResult(repos, query, |repoResults|);
  }

  // ---------------------------------------------------------------------------
  // Properties
  // ---------------------------------------------------------------------------

  /** No repository match: an empty result, and neither the issue index nor the store is asked. */
  lemma NoRepoMatchesShortCircuits(query: DiscoveryQuery, s: Services)
    requires |RepoResultsOf(query, s)| == 0
    ensures Discovery(query, s) == DiscoveryResult([], query, 0)
    ensures forall c :: c in DiscoveryCalls(query, s) ==> !c.QueryIssueIndex? && !c.FindOpenIssues?
  {
  }

  /** The issue store is consulted exactly when the issue search returned something. */
  lemma IssueLookupOnlyWithIds(query: DiscoveryQuery, s: Services)
    requires |RepoResultsOf(query, s)| > 0
    ensures (exists c :: c in DiscoveryCalls(query, s) && c.FindOpenIssues?)
        <==> |IssueResultsOf(query, s)| > 0
  {
    CallsForIssueLookup(QE.QueryText(query), RepoQueryOf(query, s), RepoResultsOf(query, s),
                        IssueQueryOf(query, s), IssueResultsOf(query, s));
  }

  lemma CallsForIssueLookup(text: string, repoQuery: VectorQuery<RepoFilter>, repoResults: seq<VectorSearchResult>,
                            issueQuery: VectorQuery<IssueFilter>, issueResults: seq<VectorSearchResult>)
    requires |repoResults| > 0
    ensures (exists c :: c in CallsFor(text, repoQuery, repoResults, issueQuery, issueResults) && c.FindOpenIssues?)
        <==> |issueResults| > 0
  {
    var calls := CallsFor(text, repoQuery, repoResults, issueQuery, issueResults);
    if |issueResults| > 0 {
      assert calls[4].FindOpenIssues?;
    }
  }

  /** The issue search always uses the matched repository ids and 50 results. */
  lemma IssueQueryScoped(query: DiscoveryQuery, s: Services)
    ensures IssueQueryOf(query, s).topK == TOP_ISSUES_PER_SEARCH
    ensures |RepoResultsOf(query, s)| > 0 ==>
      var f := IssueQueryOf(query, s).filter;
      f.Some? && f.value.repoId == Some(Ids(RepoResultsOf(query, s)))
  {
  }

  /** Cutting keeps at most five, sorted, drawn from the matches, and only drops lower scores. */
  lemma {:induction false} KeptOfProperties(matches: seq<IssueMatch>)
    ensures var kept := KeptOf(matches);
      && |kept| <= MAX_ISSUES_PER_REPO
      && |kept| == (if |matches| <= MAX_ISSUES_PER_REPO then |matches| else MAX_ISSUES_PER_REPO)
      && SortedDesc(kept, IssueMatchScore)
      && multiset(kept) <= multiset(matches)
      && forall m, k :: m in multiset(matches) - multiset(kept) && k in kept ==> k.score >= m.score
  {
    var n := if |matches| <= MAX_ISSUES_PER_REPO then |matches| else MAX_ISSUES_PER_REPO;
    var sorted := SortDesc(matches, IssueMatchScore);
    assert KeptOf(matches) == sorted[..n];
    SortedPrefix(matches, sorted, IssueMatchScore, n);
  }

  /** Every kept match comes from an OPEN issue row of that repository found by the issue search. */
  lemma KeptIssuesAreOpenAndOwned(query: DiscoveryQuery, s: Services, repoId: string, m: IssueMatch)
    requires m in KeptIssues(IssueRowsOf(query, s), IssueResultsOf(query, s), repoId)
    ensures exists r :: r in s.issues && r.id == m.id && r.repoId == repoId && r.state == OPEN
                        && r.id in Ids(IssueResultsOf(query, s))
  {
    var results := IssueResultsOf(query, s);
    var r := KeptMatchHasRow(IssueRowsOf(query, s), results, repoId, m);
    assert |Ids(results)| > 0;
    assert r in s.issues && OpenIssueIdIn(Ids(results))(r);
  }

  /** A kept match is the match of one of the rows of its repository. */
  lemma KeptMatchHasRow(rows: seq<IssueRecord>, results: seq<VectorSearchResult>, repoId: string, m: IssueMatch)
    returns (r: IssueRecord)
    requires m in KeptIssues(rows, results, repoId)
    ensures r in rows && r.id == m.id && r.repoId == repoId
  {
    var matches := MatchesFor(rows, results, repoId);
    KeptOfProperties(matches);
    var kept := KeptIssues(rows, results, repoId);
    assert m in multiset(kept);
    assert m in multiset(matches);
    var filtered := Seqs.Filter(rows, ForRepo(repoId));
    var j :| 0 <= j < |matches| && matches[j] == m;
    r := filtered[j];
    assert r in filtered;
  }

  /** The final score is the semantic score plus 0.02 per kept issue, a bonus of at most 0.10. */
  lemma ScoreIsSemanticPlusBonus(repoResults: seq<VectorSearchResult>, issueRows: seq<IssueRecord>,
                                 issueResults: seq<VectorSearchResult>, row: RepositoryRecord)
    ensures var m := RepoMatchFor(repoResults, issueRows, issueResults)(row);
      var semantic := ScoreOf(repoResults, row.id).GetOr(0.0);
      && m.matchedIssues == KeptIssues(issueRows, issueResults, row.id)
      && m.score == semantic + |m.matchedIssues| as real * ISSUE_AVAILABILITY_BONUS
      && semantic <= m.score <= semantic + 0.1
  {
    KeptOfProperties(MatchesFor(issueRows, issueResults, row.id));
  }

  /** The output is the hydrated rows' matches, each once, sorted by final score. */
  lemma RankedReposArePermutation(query: DiscoveryQuery, s: Services)
    requires |RepoResultsOf(query, s)| > 0
    ensures var r := Discovery(query, s);
      var all := Seqs.Map(RepoRowsOf(query, s),
                          RepoMatchFor(RepoResultsOf(query, s), IssueRowsOf(query, s), IssueResultsOf(query, s)));
      && multiset(r.repos) == multiset(all)
      && SortedDesc(r.repos, RepoMatchScore)
      && r.totalReposSearched == |RepoResultsOf(query, s)|
  {
  }

  /** Every hydrated repository appears in the output, with or without issues. */
  lemma EveryHydratedRepoAppears(query: DiscoveryQuery, s: Services, row: RepositoryRecord)
    requires |RepoResultsOf(query, s)| > 0
    requires row in RepoRowsOf(query, s)
    ensures exists m :: m in Discovery(query, s).repos && m.id == row.id
  {
    var rows := RepoRowsOf(query, s);
    var f := RepoMatchFor(RepoResultsOf(query, s), IssueRowsOf(query, s), IssueResultsOf(query, s));
    var all := Seqs.Map(rows, f);
    var i :| 0 <= i < |rows| && rows[i] == row;
    assert all[i] in multiset(all);
    assert all[i] in multiset(Discovery(query, s).repos);
  }

  /** Of two output repositories, a strictly higher final score is listed first. */
  lemma HigherFinalScoreFirst(query: DiscoveryQuery, s: Services, i: nat, j: nat)
    requires i < |Discovery(query, s).repos| && j < |Discovery(query, s).repos|
    requires Discovery(query, s).repos[i].score > Discovery(query, s).repos[j].score
    ensures i < j
  {
    if |RepoResultsOf(query, s)| > 0 {
      RankedReposArePermutation(query, s);
    }
    LargerKeyFirst(Discovery(query, s).repos, RepoMatchScore, i, j);
  }

  /**
   * The issue bonus can reorder repositories against their semantic scores:
   * of two output repositories, one whose semantic score plus its issue bonus
   * exceeds the semantic score of another without kept issues is listed first,
   * even when its own semantic score is lower (0.80 with three issues ahead of
   * 0.83 with none).
   */
  lemma IssueBonusCanOutrank(query: DiscoveryQuery, s: Services, a: RepositoryRecord, b: RepositoryRecord,
                             i: nat, j: nat)
    requires i < |Discovery(query, s).repos| && j < |Discovery(query, s).repos|
    requires var f := RepoMatchFor(RepoResultsOf(query, s), IssueRowsOf(query, s), IssueResultsOf(query, s));
      Discovery(query, s).repos[i] == f(a) && Discovery(query, s).repos[j] == f(b)
    requires KeptIssues(IssueRowsOf(query, s), IssueResultsOf(query, s), b.id) == []
    requires ScoreOf(RepoResultsOf(query, s), b.id).GetOr(0.0)
           < ScoreOf(RepoResultsOf(query, s), a.id).GetOr(0.0)
             + |KeptIssues(IssueRowsOf(query, s), IssueResultsOf(query, s), a.id)| as real * ISSUE_AVAILABILITY_BONUS
    ensures i < j
  {
    ScoreIsSemanticPlusBonus(RepoResultsOf(query, s), IssueRowsOf(query, s), IssueResultsOf(query, s), a);
    ScoreIsSemanticPlusBonus(RepoResultsOf(query, s), IssueRowsOf(query, s), IssueResultsOf(query, s), b);
    HigherFinalScoreFirst(query, s, i, j);
  }
}
