/**
 * The query side of the vector store, `src/lib/query/vectordb.ts`: optional
 * allow-lists become a metadata filter (or no filter at all), the store is an
 * oracle, and its matches are mapped to `(id, score)` with a missing score
 * read as 0.
 */
module QueryVectorDb {
  import opened Wrappers
  import opened Domain
  import Seqs

  datatype RepoSearchParams = RepoSearchParams(
    embedding: seq<real>,
    topK: nat,
    languages: Option<seq<string>>,
    sizes: Option<seq<RepoSize>>)

  datatype IssueSearchParams = IssueSearchParams(
    embedding: seq<real>,
    topK: nat,
    repoIds: seq<string>,
    difficulties: Option<seq<Difficulty>>,
    isGoodFirstIssue: Option<bool>)

  /** The filter record: each present field is one `$in` (or equality) constraint. */
  datatype RepoFilter = RepoFilter(
    primaryLanguage: Option<seq<string>>,
    size: Option<seq<RepoSize>>)

  datatype IssueFilter = IssueFilter(
    repoId: Option<seq<string>>,
    difficulty: Option<seq<Difficulty>>,
    isGoodFirstIssue: Option<bool>)

  /** The metadata stored with a repository vector by the ingestion pipeline. */
  datatype RepoMetadata = RepoMetadata(
    primaryLanguage: string,
    size: RepoSize,
    stars: nat,
    topics: seq<string>)

  /** The metadata stored with an issue vector; `difficulty` is a name or "unknown". */
  datatype IssueMetadata = IssueMetadata(
    repoId: string,
    difficulty: string,
    isGoodFirstIssue: bool,
    labels: seq<string>)

  /** What is sent to the store: the query vector, `topK` and the filter, if any. */
  datatype VectorQuery<F> = VectorQuery(vector: seq<real>, topK: nat, filter: Option<F>)

  /** A match as the store returns it; the score may be missing. */
  datatype RawMatch = RawMatch(id: string, score: Option<real>)

  datatype VectorSearchResult = VectorSearchResult(id: string, score: real)

  /** `xs && xs.length > 0`. */
  predicate NonEmptyList<T>(xs: Option<seq<T>>) {
    xs.Some? && |xs.value| > 0
  }

  /** The repository filter, or `None` when it would have no keys. */
  function RepoFilterFor(params: RepoSearchParams): (f: Option<RepoFilter>)
    ensures f.None? <==> !NonEmptyList(params.languages) && !NonEmptyList(params.sizes)
    ensures f.Some? ==>
      && (f.value.primaryLanguage.Some? <==> NonEmptyList(params.languages))
      && (f.value.primaryLanguage.Some? ==> f.value.primaryLanguage == params.languages)
      && (f.value.size.Some? <==> NonEmptyList(params.sizes))
      && (f.value.size.Some? ==> f.value.size == params.sizes)
  {
    var language := if NonEmptyList(params.languages) then params.languages else None;
    var size := if NonEmptyList(params.sizes) then params.sizes else None;
    if language.None? && size.None? then None else Some(RepoFilter(language, size))
  }

  /** The filter assembly of `searchRepos`: fields set one by one, dropped when empty. */
  method BuildRepoFilter(params: RepoSearchParams) returns (f: Option<RepoFilter>)
    ensures f == RepoFilterFor(params)
  {
    var filter := RepoFilter(None, None);
    var keys := 0;
    if params.languages.Some? && |params.languages.value| > 0 {
      filter := filter.(primaryLanguage := params.languages);
      keys := keys + 1;
    }
    if params.sizes.Some? && |params.sizes.value| > 0 {
      filter := filter.(size := params.sizes);
      keys := keys + 1;
    }
    f := if keys > 0 then Some(filter) else None;
  }

  /** Whether the store may return a vector with metadata `meta` under `filter`. */
  predicate RepoAdmits(filter: Option<RepoFilter>, meta: RepoMetadata) {
    match filter
    case None => true
    case Some(f) =>
      && (f.primaryLanguage.Some? ==> meta.primaryLanguage in f.primaryLanguage.value)
      && (f.size.Some? ==> meta.size in f.size.value)
  }

  /** An absent or empty allow-list allows everything; a non-empty one allows its members. */
  predicate AllowedBy<T(==)>(allowList: Option<seq<T>>, x: T) {
    !NonEmptyList(allowList) || x in allowList.value
  }

  /** The repository filter admits exactly the vectors both allow-lists allow. */
  lemma RepoFilterAdmitsIff(params: RepoSearchParams, meta: RepoMetadata)
    ensures RepoAdmits(RepoFilterFor(params), meta) <==>
      AllowedBy(params.languages, meta.primaryLanguage) && AllowedBy(params.sizes, meta.size)
  {
  }

  /** The issue filter, or `None` when it would have no keys. */
  function IssueFilterFor(params: IssueSearchParams): (f: Option<IssueFilter>)
    ensures f.None? <==>
      |params.repoIds| == 0 && !NonEmptyList(params.difficulties) && params.isGoodFirstIssue.None?
    ensures f.Some? ==>
      && (f.value.repoId.Some? <==> |params.repoIds| > 0)
      && (f.value.repoId.Some? ==> f.value.repoId.value == params.repoIds)
      && (f.value.difficulty.Some? <==> NonEmptyList(params.difficulties))
      && (f.value.difficulty.Some? ==> f.value.difficulty == params.difficulties)
      && f.value.isGoodFirstIssue == params.isGoodFirstIssue
  {
    var repoId := if |params.repoIds| > 0 then Some(params.repoIds) else None;
    var difficulty := if NonEmptyList(params.difficulties) then params.difficulties else None;
    if repoId.None? && difficulty.None? && params.isGoodFirstIssue.None? then None
    else Some(IssueFilter(repoId, difficulty, params.isGoodFirstIssue))
  }

  /** The filter assembly of `searchIssues`. */
  method BuildIssueFilter(params: IssueSearchParams) returns (f: Option<IssueFilter>)
    ensures f == IssueFilterFor(params)
  {
    var filter := IssueFilter(None, None, None);
    var keys := 0;
    if |params.repoIds| > 0 {
      filter := filter.(repoId := Some(params.repoIds));
      keys := keys + 1;
    }
    if params.difficulties.Some? && |params.difficulties.value| > 0 {
      filter := filter.(difficulty := params.difficulties);
      keys := keys + 1;
    }
    if params.isGoodFirstIssue.Some? {
      filter := filter.(isGoodFirstIssue := params.isGoodFirstIssue);
      keys := keys + 1;
    }
    f := if keys > 0 then Some(filter) else None;
  }

  /** A stored difficulty string matches an allow-list when it names one of its members. */
  predicate DifficultyIn(stored: string, allowed: seq<Difficulty>) {
    exists d :: d in allowed && DifficultyName(d) == stored
  }

  predicate IssueAdmits(filter: Option<IssueFilter>, meta: IssueMetadata) {
    match filter
    case None => true
    case Some(f) =>
      && (f.repoId.Some? ==> meta.repoId in f.repoId.value)
      && (f.difficulty.Some? ==> DifficultyIn(meta.difficulty, f.difficulty.value))
      && (f.isGoodFirstIssue.Some? ==> meta.isGoodFirstIssue == f.isGoodFirstIssue.value)
  }

  /**
   * The issue filter admits exactly what the three parameters allow: an empty
   * repository list is no repository constraint, an absent flag no flag constraint.
   */
  lemma IssueFilterAdmitsIff(params: IssueSearchParams, meta: IssueMetadata)
    ensures IssueAdmits(IssueFilterFor(params), meta) <==>
      && (|params.repoIds| == 0 || meta.repoId in params.repoIds)
      && (!NonEmptyList(params.difficulties) || DifficultyIn(meta.difficulty, params.difficulties.value))
      && (params.isGoodFirstIssue.None? || meta.isGoodFirstIssue == params.isGoodFirstIssue.value)
  {
  }

  /** A vector stored with difficulty "unknown" never passes a difficulty allow-list. */
  lemma UnknownDifficultyExcluded(allowed: seq<Difficulty>)
    ensures !DifficultyIn("unknown", allowed)
  {
    forall d | d in allowed ensures DifficultyName(d) != "unknown" {
      assert DifficultyName(d)[0] != 'u';
    }
  }

  /** `(results.matches ?? []).map(m => ({id: m.id, score: m.score ?? 0}))`. */
  function MapMatches(matches: Option<seq<RawMatch>>): (r: seq<VectorSearchResult>)
    ensures var ms := matches.GetOr([]);
      && |r| == |ms|
      && forall i :: 0 <= i < |ms| ==>
           r[i].id == ms[i].id && r[i].score == ms[i].score.GetOr(0.0)
  {
    Seqs.Map(matches.GetOr([]), (m: RawMatch) => VectorSearchResult(m.id, m.score.GetOr(0.0)))
  }

  /** Every score the store supplied is kept; the others are exactly 0. */
  lemma MapMatchesScores(matches: seq<RawMatch>, i: nat)
    requires i < |matches|
    ensures matches[i].score.Some? ==> MapMatches(Some(matches))[i].score == matches[i].score.value
    ensures matches[i].score.None? ==> MapMatches(Some(matches))[i].score == 0.0
  {
  }

  /** `searchRepos` with the repository index as the oracle `index`. */
  method SearchRepos(params: RepoSearchParams,
                     index: VectorQuery<RepoFilter> -> Option<seq<RawMatch>>)
    returns (results: seq<VectorSearchResult>, sent: VectorQuery<RepoFilter>)
    ensures sent == VectorQuery(params.embedding, params.topK, RepoFilterFor(params))
    ensures results == MapMatches(index(sent))
  {
    var filter := BuildRepoFilter(params);
    sent := VectorQuery(params.embedding, params.topK, filter);
    results := MapMatches(index(sent));
  }

  /** `searchIssues` with the issue index as the oracle `index`. */
  method SearchIssues(params: IssueSearchParams,
                      index: VectorQuery<IssueFilter> -> Option<seq<RawMatch>>)
    returns (results: seq<VectorSearchResult>, sent: VectorQuery<IssueFilter>)
    ensures sent == VectorQuery(params.embedding, params.topK, IssueFilterFor(params))
    ensures results == MapMatches(index(sent))
  {
    var filter := BuildIssueFilter(params);
    sent := VectorQuery(params.embedding, params.topK, filter);
    results := MapMatches(index(sent));
  }
}
