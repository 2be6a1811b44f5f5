/**
 * The ingestion orchestrator of `src/lib/pipeline/ingest.ts`. Every external
 * effect is an oracle of `IngestServices`: the repository search (already
 * retried by the client), the three per-repository fetches, the embedding
 * service, the upserts into the relational and vector stores, and the
 * sync-log table. Each orchestration step is specified by a recursive
 * function over an event log, and the loops are proved to produce that log.
 */
module Ingest {
  import opened Wrappers
  import opened Domain
  import opened Text
  import Seqs
  import T = Transform
  import PE = PipelineEmbeddings
  import VDB = QueryVectorDb

  const CONFIGURED_LANGUAGES: seq<string> := [
    "typescript", "javascript", "python", "go", "rust", "java",
    "csharp", "cpp", "ruby", "php", "swift", "kotlin"
  ]

  const MIN_STARS: nat := 100
  const MAX_REPOS_PER_LANGUAGE: nat := 25
  const MAX_ISSUES_PER_REPO: nat := 20
  const REPOS_PER_PAGE: nat := 25

  /** The arguments of one `fetchRepositories` call (sorted by stars, descending). */
  datatype SearchRequest = SearchRequest(language: string, minStars: nat, page: nat, perPage: nat)

  datatype SearchPage = SearchPage(items: seq<GitHubRepository>, hasNextPage: bool)

  /** One attempted write, with what was written. */
  datatype Write =
    | RepositoryRow(repo: RepositoryRecord)
    | RepositoryVector(repoId: string, repoEmbedding: seq<real>, repoMeta: VDB.RepoMetadata)
    | IssueRow(issue: IssueRecord)
    | IssueVector(issueId: string, issueEmbedding: seq<real>, issueMeta: VDB.IssueMetadata)

  datatype SyncStatus = RUNNING | COMPLETED | FAILED

  /** The sync-log row as stored. */
  datatype SyncLogRecord = SyncLogRecord(
    id: string, status: SyncStatus, reposProcessed: nat, issuesProcessed: nat, errors: seq<string>)

  /** The data of one `db.syncLog.update` call (the completion time is not modelled). */
  datatype SyncLogUpdate = SyncLogUpdate(
    id: string, status: SyncStatus, reposProcessed: nat, issuesProcessed: nat, errors: seq<string>)

  datatype IngestServices = IngestServices(
    search: SearchRequest -> Result<SearchPage, string>,
    pageLimit: nat,
    readme: (string, string) -> Result<Option<string>, string>,
    languages: (string, string) -> Result<seq<(string, nat)>, string>,
    issues: (string, string, nat) -> Result<seq<GitHubIssue>, string>,
    embed: string -> Result<seq<real>, string>,
    upsert: Write -> Outcome<string>,
    createSyncLog: Result<string, string>,
    updateSyncLog: SyncLogUpdate -> Outcome<string>,
    now: int)

  /** The response ends the language's loop whatever happens to its items. */
  predicate EndsLanguage(r: Result<SearchPage, string>) {
    r.Failure? || |r.value.items| == 0 || !r.value.hasNextPage
  }

  /**
   * The search results are finite: past page `pageLimit` every response ends
   * the language (the search service returns a bounded number of results).
   */
  ghost predicate FiniteSearch(s: IngestServices) {
    forall r: SearchRequest :: r.page > s.pageLimit ==> EndsLanguage(s.search(r))
  }

  /** What the log records: one search, or one `processRepository` call and its writes. */
  datatype Event =
    | Searched(request: SearchRequest, response: Result<SearchPage, string>)
    | Processed(fullName: string, outcome: Result<nat, string>, writes: seq<Write>)

  datatype IngestionResult = IngestionResult(totalRepos: nat, totalIssues: nat, errors: seq<string>)

  // ---------------------------------------------------------------------------
  // processIssue and processRepository
  // ---------------------------------------------------------------------------

  /** The vector metadata of an issue: unknown difficulty is the string "unknown". */
  function IssueVectorMetadata(issue: IssueRecord): (meta: VDB.IssueMetadata)
    ensures meta.repoId == issue.repoId && meta.labels == issue.labels
    ensures meta.isGoodFirstIssue == issue.isGoodFirstIssue
    ensures meta.difficulty == "unknown" <==> issue.difficulty.None?
  {
    var difficulty := match issue.difficulty
      case Some(d) => DifficultyName(d)
      case None => "unknown";
    assert issue.difficulty.Some? ==> difficulty[0] != 'u';
    VDB.IssueMetadata(issue.repoId, difficulty, issue.isGoodFirstIssue, issue.labels)
  }

  /** The vector metadata of a repository: an unknown language is the string "unknown". */
  function RepoVectorMetadata(repo: RepositoryRecord): (meta: VDB.RepoMetadata)
    ensures meta.primaryLanguage == repo.primaryLanguage.GetOr("unknown")
    ensures meta.size == repo.size && meta.stars == repo.stars && meta.topics == repo.topics
  {
    VDB.RepoMetadata(repo.primaryLanguage.GetOr("unknown"), repo.size, repo.stars, repo.topics)
  }

  /**
   * `processIssue`: transform, embed, upsert the row, upsert the vector;
   * the first failure ends it. Returns the outcome and the writes attempted.
   */
  function IssueRun(ghIssue: GitHubIssue, repoId: string, s: IngestServices): (Outcome<string>, seq<Write>) {
    var issueData := T.TransformIssue(ghIssue, repoId);
    var embedding := PE.GenerateEmbedding(IssueText(issueData), s.embed);
    if embedding.Failure? then (Fail(embedding.error), [])
    else
      var row := IssueRow(issueData);
      match s.upsert(row)
      case Fail(e) => (Fail(e), [row])
      case Pass =>
        var vector := IssueVector(issueData.id, embedding.value, IssueVectorMetadata(issueData));
        (s.upsert(vector), [row, vector])
  }

  function IssueText(issueData: IssueRecord): string {
    PE.IssueEmbeddingText(PE.IssueEmbeddingInput(issueData.title, issueData.labels, issueData.body))
  }

  /** `processIssue`. */
  method ProcessIssue(ghIssue: GitHubIssue, repoId: string, s: IngestServices)
    returns (outcome: Outcome<string>, writes: seq<Write>)
    ensures (outcome, writes) == IssueRun(ghIssue, repoId, s)
  {
    var issueData := T.TransformIssue(ghIssue, repoId);
    var issueText := PE.BuildIssueEmbeddingText(PE.IssueEmbeddingInput(issueData.title, issueData.labels, issueData.body));
    var issueEmbedding := PE.GenerateEmbedding(issueText, s.embed);
    if issueEmbedding.Failure? {
      return Fail(issueEmbedding.error), [];
    }
    var row := IssueRow(issueData);
    outcome := s.upsert(row);
    if outcome.Fail? {
      return outcome, [row];
    }
    var vector := IssueVector(issueData.id, issueEmbedding.value, IssueVectorMetadata(issueData));
    outcome := s.upsert(vector);
    writes := [row, vector];
  }

  function IssueSucceeds(repoId: string, s: IngestServices): GitHubIssue -> bool {
    (g: GitHubIssue) => IssueRun(g, repoId, s).0.Pass?
  }

  /** The writes of the issue loop, issue after issue. */
  function IssueWrites(issues: seq<GitHubIssue>, repoId: string, s: IngestServices): seq<Write> {
    if issues == [] then []
    else IssueWrites(issues[..|issues| - 1], repoId, s) + IssueRun(issues[|issues| - 1], repoId, s).1
  }

  /** The three fetches of `Promise.all`; a failure is the first rejection in argument order. */
  function FetchAll(gh: GitHubRepository, s: IngestServices)
    : Result<(Option<string>, seq<(string, nat)>, seq<GitHubIssue>), string>
  {
    var readme := s.readme(gh.ownerLogin, gh.name);
    var languages := s.languages(gh.ownerLogin, gh.name);
    var issues := s.issues(gh.ownerLogin, gh.name, MAX_ISSUES_PER_REPO);
    if readme.Failure? then Failure(readme.error)
    else if languages.Failure? then Failure(languages.error)
    else if issues.Failure? then Failure(issues.error)
    else Success((readme.value, languages.value, issues.value))
  }

  function RepoText(repoData: RepositoryRecord, readme: Option<string>): string {
    PE.RepoEmbeddingText(PE.RepoEmbeddingInput(
      repoData.fullName, repoData.description, repoData.primaryLanguage, repoData.topics, readme))
  }

  /**
   * The live part of `processRepository`, after the fetches and the transform:
   * embed, upsert the row, upsert the vector, then every issue in turn.
   */
  function PersistRun(repoData: RepositoryRecord, readme: Option<string>, ghIssues: seq<GitHubIssue>,
                      s: IngestServices): (Result<nat, string>, seq<Write>)
  {
    var embedding := PE.GenerateEmbedding(RepoText(repoData, readme), s.embed);
    if embedding.Failure? then (Failure(embedding.error), [])
    else
      var row := RepositoryRow(repoData);
      match s.upsert(row)
      case Fail(e) => (Failure(e), [row])
      case Pass =>
        var vector := RepositoryVector(repoData.id, embedding.value, RepoVectorMetadata(repoData));
        match s.upsert(vector)
        case Fail(e) => (Failure(e), [row, vector])
        case Pass =>
          (Success(Seqs.CountWhere(ghIssues, IssueSucceeds(repoData.id, s))),
           [row, vector] + IssueWrites(ghIssues, repoData.id, s))
  }

  /**
   * `processRepository`: its result (issues processed, or the error it throws)
   * and the writes it attempts.
   */
  function RepoRun(gh: GitHubRepository, dryRun: bool, s: IngestServices): (Result<nat, string>, seq<Write>) {
    match FetchAll(gh, s)
    case Failure(e) => (Failure(e), [])
    case Success(fetched) =>
      var (readme, languages, ghIssues) := fetched;
      if dryRun then (Success(|ghIssues|), [])
      else PersistRun(T.TransformRepository(gh, readme, languages, s.now), readme, ghIssues, s)
  }

  /** The issue loop of `processRepository`: a failing issue is skipped, not rethrown. */
  method ProcessIssues(ghIssues: seq<GitHubIssue>, repoId: string, s: IngestServices)
    returns (issuesProcessed: nat, writes: seq<Write>)
    ensures issuesProcessed == Seqs.CountWhere(ghIssues, IssueSucceeds(repoId, s))
    ensures writes == IssueWrites(ghIssues, repoId, s)
  {
    issuesProcessed := 0;
    writes := [];
    for i := 0 to |ghIssues|
      invariant issuesProcessed == Seqs.CountWhere(ghIssues[..i], IssueSucceeds(repoId, s))
      invariant writes == IssueWrites(ghIssues[..i], repoId, s)
    {
      assert ghIssues[..i + 1][..i] == ghIssues[..i];
      var outcome, issueWrites := ProcessIssue(ghIssues[i], repoId, s);
      writes := writes + issueWrites;
      if outcome.Pass? {
        issuesProcessed := issuesProcessed + 1;
      }
    }
    assert ghIssues[..|ghIssues|] == ghIssues;
  }

  /** The live part of `processRepository`. */
  method PersistRepository(repoData: RepositoryRecord, readme: Option<string>, ghIssues: seq<GitHubIssue>,
                           s: IngestServices)
    returns (r: Result<nat, string>, writes: seq<Write>)
    ensures (r, writes) == PersistRun(repoData, readme, ghIssues, s)
  {
    var repoId := repoData.id;
    var repoEmbeddingText := PE.BuildRepoEmbeddingText(PE.RepoEmbeddingInput(
      repoData.fullName, repoData.description, repoData.primaryLanguage, repoData.topics, readme));
    var repoEmbedding := PE.GenerateEmbedding(repoEmbeddingText, s.embed);
    if repoEmbedding.Failure? {
      return Failure(repoEmbedding.error), [];
    }
    var row := RepositoryRow(repoData);
    var upserted := s.upsert(row);
    if upserted.Fail? {
      return Failure(upserted.error), [row];
    }
    var vector := RepositoryVector(repoId, repoEmbedding.value, RepoVectorMetadata(repoData));
    upserted := s.upsert(vector);
    if upserted.Fail? {
      return Failure(upserted.error), [row, vector];
    }
    var issuesProcessed, issueWrites := ProcessIssues(ghIssues, repoId, s);
    writes := [row, vector] + issueWrites;
    r := Success(issuesProcessed);
  }

  /**
   * `processRepository`. The ghost `run` is any runner that agrees with
   * `RepoRun` (see `RunsAs`); the loops above it reason about `run` only.
   */
  method ProcessRepository(gh: GitHubRepository, dryRun: bool, s: IngestServices, ghost run: RepoRunner)
    returns (r: Result<nat, string>, writes: seq<Write>)
    requires RunsAs(run, dryRun, s)
    ensures (r, writes) == run(gh)
  {
    assert run(gh) == RepoRun(gh, dryRun, s);
    var fetched := FetchAll(gh, s);
    if fetched.Failure? {
      return Failure(fetched.error), [];
    }
    var (readme, languages, ghIssues) := fetched.value;
    var repoData := T.TransformRepository(gh, readme, languages, s.now);
    if dryRun {
      return Success(|ghIssues|), [];
    }
    r, writes := PersistRepository(repoData, readme, ghIssues, s);
  }

  /** In a dry run nothing is written and the result is the number of fetched issues. */
  lemma DryRunRepository(gh: GitHubRepository, s: IngestServices)
    ensures RepoRun(gh, true, s).1 == []
    ensures FetchAll(gh, s).Success? ==> RepoRun(gh, true, s).0 == Success(|FetchAll(gh, s).value.2|)
    ensures FetchAll(gh, s).Failure? ==> RepoRun(gh, true, s).0 == Failure(FetchAll(gh, s).error)
  {
  }

  /**
   * A live run fails only through the fetches, the repository embedding or the
   * two repository upserts: a failing issue is never an error of the
   * repository, and the count is the number of issues that went through.
   */
  lemma LiveRunOutcome(gh: GitHubRepository, s: IngestServices)
    requires FetchAll(gh, s).Success?
    ensures var (readme, languages, ghIssues) := FetchAll(gh, s).value;
      var repoData := T.TransformRepository(gh, readme, languages, s.now);
      var embedding := PE.GenerateEmbedding(RepoText(repoData, readme), s.embed);
      var r := RepoRun(gh, false, s).0;
      && (r.Success? <==>
            && embedding.Success?
            && s.upsert(RepositoryRow(repoData)).Pass?
            && s.upsert(RepositoryVector(repoData.id, embedding.value, RepoVectorMetadata(repoData))).Pass?)
      && (r.Success? ==> r.value == Seqs.CountWhere(ghIssues, IssueSucceeds(repoData.id, s)) <= |ghIssues|)
  {
  }

  // ---------------------------------------------------------------------------
  // Counters and errors as functions of the event log
  // ---------------------------------------------------------------------------

  /** The error line an event contributes, if any. */
  function ErrorLine(e: Event): seq<string> {
    match e
    case Searched(req, resp) =>
      if resp.Failure? then
        ["Failed to fetch repos for " + req.language + " (page " + NatToString(req.page) + "): " + resp.error]
      else []
    case Processed(name, outcome, _) =>
      if outcome.Failure? then ["Failed to process repo " + name + ": " + outcome.error] else []
  }

  function ErrorLines(events: seq<Event>): seq<string> {
    if events == [] then [] else ErrorLines(events[..|events| - 1]) + ErrorLine(events[|events| - 1])
  }

  predicate IsSuccess(e: Event) {
    e.Processed? && e.outcome.Success?
  }

  /** Successful `processRepository` calls. */
  function CountSuccess(events: seq<Event>): nat {
    if events == [] then 0
    else CountSuccess(events[..|events| - 1]) + (if IsSuccess(events[|events| - 1]) then 1 else 0)
  }

  /** The sum of the issue counts the successful calls returned. */
  function SumSuccess(events: seq<Event>): nat {
    if events == [] then 0
    else
      var e := events[|events| - 1];
      SumSuccess(events[..|events| - 1]) + (if IsSuccess(e) then e.outcome.value else 0)
  }

  /** The effect of one event on the running result, as the loops apply it. */
  function Apply(r: IngestionResult, e: Event): IngestionResult {
    if IsSuccess(e) then r.(totalRepos := r.totalRepos + 1, totalIssues := r.totalIssues + e.outcome.value)
    else r.(errors := r.errors + ErrorLine(e))
  }

  function ApplyAll(r: IngestionResult, events: seq<Event>): IngestionResult {
    if events == [] then r else Apply(ApplyAll(r, events[..|events| - 1]), events[|events| - 1])
  }

  /** The running result is the log's counts and error lines. */
  lemma {:induction false} ApplyAllCounts(r: IngestionResult, events: seq<Event>)
    ensures ApplyAll(r, events) ==
      IngestionResult(r.totalRepos + CountSuccess(events), r.totalIssues + SumSuccess(events),
                      r.errors + ErrorLines(events))
  {
    if events != [] {
      ApplyAllCounts(r, events[..|events| - 1]);
      var e := events[|events| - 1];
      if IsSuccess(e) {
        assert ErrorLine(e) == [];
      }
    }
  }

  lemma {:induction false} ApplyAllAppend(r: IngestionResult, a: seq<Event>, b: seq<Event>)
    ensures ApplyAll(r, a + b) == ApplyAll(ApplyAll(r, a), b)
  {
    if b == [] {
      assert a + b == a;
    } else {
      assert (a + b)[..|a + b| - 1] == a + b[..|b| - 1];
      ApplyAllAppend(r, a, b[..|b| - 1]);
    }
  }

  lemma {:induction false} CountSuccessAppend(a: seq<Event>, b: seq<Event>)
    ensures CountSuccess(a + b) == CountSuccess(a) + CountSuccess(b)
  {
    if b == [] {
      assert a + b == a;
    } else {
      assert (a + b)[..|a + b| - 1] == a + b[..|b| - 1];
      CountSuccessAppend(a, b[..|b| - 1]);
    }
  }

  // ---------------------------------------------------------------------------
  // One page and one language
  // ---------------------------------------------------------------------------

  function Min(a: nat, b: nat): nat {
    if a < b then a else b
  }

  /**
   * The repositories of one page, in order: each is processed; a success
   * counts towards the cap and the page ends as soon as the cap is reached.
   */
  /** What one `processRepository` call does to a repository: its result and writes. */
  type RepoRunner = GitHubRepository -> (Result<nat, string>, seq<Write>)

  function Runner(dryRun: bool, s: IngestServices): RepoRunner {
    (gh: GitHubRepository) => RepoRun(gh, dryRun, s)
  }

  /**
   * `run` is `processRepository` with these arguments; triggered only by the
   * repositories actually processed, so that the loops' proofs never unfold
   * the other repositories' runs.
   */
  ghost predicate RunsAs(run: RepoRunner, dryRun: bool, s: IngestServices) {
    forall gh {:trigger RepoRun(gh, dryRun, s)} :: run(gh) == RepoRun(gh, dryRun, s)
  }

  lemma RunnerRunsAs(dryRun: bool, s: IngestServices)
    ensures RunsAs(Runner(dryRun, s), dryRun, s)
  {
  }

  function PageRun(items: seq<GitHubRepository>, processed: nat, run: RepoRunner): seq<Event>
    requires processed < MAX_REPOS_PER_LANGUAGE
    decreases |items|
  {
    if items == [] then []
    else
      var (r, writes) := run(items[0]);
      var e := Processed(items[0].fullName, r, writes);
      if r.Success? then
        if processed + 1 >= MAX_REPOS_PER_LANGUAGE then [e]
        else [e] + PageRun(items[1..], processed + 1, run)
      else [e] + PageRun(items[1..], processed, run)
  }

  /**
   * The `while` loop of one language from `page` on, having processed
   * `processed` repositories so far.
   */
  function LangRun(language: string, page: nat, processed: nat, run: RepoRunner, s: IngestServices): seq<Event>
    requires FiniteSearch(s)
    requires 1 <= page <= s.pageLimit + 1 && processed < MAX_REPOS_PER_LANGUAGE
    decreases s.pageLimit + 1 - page
  {
    var perPage := Min(REPOS_PER_PAGE, MAX_REPOS_PER_LANGUAGE - processed);
    var request := SearchRequest(language, MIN_STARS, page, perPage);
    var response := s.search(request);
    var searched := Searched(request, response);
    if response.Failure? || |response.value.items| == 0 then [searched]
    else
      var pageEvents := PageRun(response.value.items, processed, run);
      var now := processed + CountSuccess(pageEvents);
      if !response.value.hasNextPage || now >= MAX_REPOS_PER_LANGUAGE then [searched] + pageEvents
      else [searched] + pageEvents + LangRun(language, page + 1, now, run, s)
  }

  /** All configured languages, one after the other. */
  function LanguagesRun(languages: seq<string>, run: RepoRunner, s: IngestServices): seq<Event>
    requires FiniteSearch(s)
  {
    if languages == [] then []
    else LanguagesRun(languages[..|languages| - 1], run, s) + LangRun(languages[|languages| - 1], 1, 0, run, s)
  }

  lemma ApplyAllSnoc(r: IngestionResult, events: seq<Event>, e: Event)
    ensures ApplyAll(r, events + [e]) == Apply(ApplyAll(r, events), e)
  {
    assert (events + [e])[..|events|] == events;
  }

  lemma CountSuccessSnoc(events: seq<Event>, e: Event)
    ensures CountSuccess(events + [e]) == CountSuccess(events) + (if IsSuccess(e) then 1 else 0)
  {
    assert (events + [e])[..|events|] == events;
  }

  /** One step of `PageRun`, with the repository's run named. */
  lemma PageRunStep(items: seq<GitHubRepository>, processed: nat, run: RepoRunner,
                    r: Result<nat, string>, writes: seq<Write>)
    requires processed < MAX_REPOS_PER_LANGUAGE && items != []
    requires (r, writes) == run(items[0])
    ensures var e := Processed(items[0].fullName, r, writes);
      PageRun(items, processed, run) ==
        if r.Success? && processed + 1 >= MAX_REPOS_PER_LANGUAGE then [e]
        else if r.Success? then [e] + PageRun(items[1..], processed + 1, run)
        else [e] + PageRun(items[1..], processed, run)
  {
  }

  /** The invariant of the page loop after `i` items. */
  ghost predicate PageLoop(items: seq<GitHubRepository>, i: nat, processed0: nat, processed: nat,
                           events: seq<Event>, result0: IngestionResult, result: IngestionResult, run: RepoRunner)
  {
    && i <= |items| && processed < MAX_REPOS_PER_LANGUAGE && processed0 < MAX_REPOS_PER_LANGUAGE
    && events + PageRun(items[i..], processed, run) == PageRun(items, processed0, run)
    && processed == processed0 + CountSuccess(events)
    && result == ApplyAll(result0, events)
  }

  /** One iteration keeps the page invariant, or ends the page at the cap. */
  lemma PageLoopStep(items: seq<GitHubRepository>, i: nat, processed0: nat, processed: nat,
                     events: seq<Event>, result0: IngestionResult, result: IngestionResult, run: RepoRunner,
                     r: Result<nat, string>, writes: seq<Write>)
    requires PageLoop(items, i, processed0, processed, events, result0, result, run)
    requires i < |items| && (r, writes) == run(items[i])
    ensures var e := Processed(items[i].fullName, r, writes);
      var next := if r.Success? then processed + 1 else processed;
      && Apply(result, e) == ApplyAll(result0, events + [e])
      && next == processed0 + CountSuccess(events + [e])
      && (next >= MAX_REPOS_PER_LANGUAGE ==> events + [e] == PageRun(items, processed0, run))
      && (next < MAX_REPOS_PER_LANGUAGE ==>
            PageLoop(items, i + 1, processed0, next, events + [e], result0, Apply(result, e), run))
  {
    var e := Processed(items[i].fullName, r, writes);
    var next := if r.Success? then processed + 1 else processed;
    assert items[i..][0] == items[i] && items[i..][1..] == items[i + 1..];
    PageRunStep(items[i..], processed, run, r, writes);
    ApplyAllSnoc(result0, events, e);
    CountSuccessSnoc(events, e);
    if next >= MAX_REPOS_PER_LANGUAGE {
      assert PageRun(items[i..], processed, run) == [e];
    } else {
      var rest := PageRun(items[i + 1..], next, run);
      assert PageRun(items[i..], processed, run) == [e] + rest;
      Seqs.AppendAssoc(events, [e], rest);
    }
  }

  /** One iteration of the page loop: process the repository, record it, stop at the cap. */
  method ProcessPageItem(items: seq<GitHubRepository>, i: nat, processed0: nat, dryRun: bool, s: IngestServices,
                         result0: IngestionResult, ghost run: RepoRunner,
                         events: seq<Event>, processed: nat, result: IngestionResult)
    returns (eventsAfter: seq<Event>, processedAfter: nat, resultAfter: IngestionResult, stop: bool)
    requires RunsAs(run, dryRun, s)
    requires PageLoop(items, i, processed0, processed, events, result0, result, run) && i < |items|
    ensures stop ==>
      && eventsAfter == PageRun(items, processed0, run)
      && processedAfter == processed0 + CountSuccess(eventsAfter)
      && resultAfter == ApplyAll(result0, eventsAfter)
    ensures !stop ==> PageLoop(items, i + 1, processed0, processedAfter, eventsAfter, result0, resultAfter, run)
  {
    var ghRepo := items[i];
    var issueCount, writes := ProcessRepository(ghRepo, dryRun, s, run);
    PageLoopStep(items, i, processed0, processed, events, result0, result, run, issueCount, writes);
    var e := Processed(ghRepo.fullName, issueCount, writes);
    eventsAfter := events + [e];
    stop := false;
    if issueCount.Success? {
      resultAfter := result.(totalRepos := result.totalRepos + 1,
                             totalIssues := result.totalIssues + issueCount.value);
      processedAfter := processed + 1;
      stop := processedAfter >= MAX_REPOS_PER_LANGUAGE;
    } else {
      resultAfter := result.(errors := result.errors + ["Failed to process repo " + ghRepo.fullName + ": " + issueCount.error]);
      processedAfter := processed;
    }
  }

  /** The `for` loop over one page's items, with its break at the cap. */
  method ProcessPage(items: seq<GitHubRepository>, processed0: nat, dryRun: bool, s: IngestServices,
                     result0: IngestionResult, ghost run: RepoRunner)
    returns (events: seq<Event>, processed: nat, result: IngestionResult)
    requires processed0 < MAX_REPOS_PER_LANGUAGE && RunsAs(run, dryRun, s)
    ensures events == PageRun(items, processed0, run)
    ensures processed == processed0 + CountSuccess(events)
    ensures result == ApplyAll(result0, events)
  {
    events := [];
    processed := processed0;
    result := result0;
    var i := 0;
    while i < |items|
      invariant PageLoop(items, i, processed0, processed, events, result0, result, run)
    {
      var stop;
      events, processed, result, stop := ProcessPageItem(items, i, processed0, dryRun, s, result0, run,
                                                         events, processed, result);
      if stop {
        return;
      }
      i := i + 1;
    }
    assert items[i..] == [];
  }

  /** One step of `LangRun`, with the response named. */
  lemma LangRunStep(language: string, page: nat, processed: nat, run: RepoRunner, s: IngestServices,
                    response: Result<SearchPage, string>)
    requires FiniteSearch(s)
    requires 1 <= page <= s.pageLimit + 1 && processed < MAX_REPOS_PER_LANGUAGE
    requires response == s.search(SearchRequest(language, MIN_STARS, page, MAX_REPOS_PER_LANGUAGE - processed))
    ensures var searched := Searched(SearchRequest(language, MIN_STARS, page, MAX_REPOS_PER_LANGUAGE - processed), response);
      if response.Failure? || |response.value.items| == 0 then
        LangRun(language, page, processed, run, s) == [searched]
      else
        var pageEvents := PageRun(response.value.items, processed, run);
        var now := processed + CountSuccess(pageEvents);
        if !response.value.hasNextPage || now >= MAX_REPOS_PER_LANGUAGE then
          LangRun(language, page, processed, run, s) == [searched] + pageEvents
        else
          page + 1 <= s.pageLimit + 1 &&
          LangRun(language, page, processed, run, s) == [searched] + pageEvents + LangRun(language, page + 1, now, run, s)
  {
    assert Min(REPOS_PER_PAGE, MAX_REPOS_PER_LANGUAGE - processed) == MAX_REPOS_PER_LANGUAGE - processed;
  }

  /**
   * One iteration of the `while` loop of one language: the search, the
   * fetch-error and empty-page breaks, the page's repositories, and the
   * `hasNextPage` break (`stop`). The events are this iteration's prefix of
   * `LangRun`; when the loop goes on, the rest is `LangRun` from the next page.
   */
  method ProcessLanguagePage(language: string, page: nat, processed: nat, dryRun: bool, s: IngestServices,
                             result0: IngestionResult, ghost run: RepoRunner)
    returns (events: seq<Event>, processedAfter: nat, result: IngestionResult, stop: bool)
    requires FiniteSearch(s) && RunsAs(run, dryRun, s)
    requires 1 <= page <= s.pageLimit + 1 && processed < MAX_REPOS_PER_LANGUAGE
    ensures result == ApplyAll(result0, events)
    ensures stop || processedAfter >= MAX_REPOS_PER_LANGUAGE ==> events == LangRun(language, page, processed, run, s)
    ensures !stop && processedAfter < MAX_REPOS_PER_LANGUAGE ==>
      && page + 1 <= s.pageLimit + 1
      && events + LangRun(language, page + 1, processedAfter, run, s) == LangRun(language, page, processed, run, s)
  {
    var remaining: nat := MAX_REPOS_PER_LANGUAGE - processed;
    var perPage := Min(REPOS_PER_PAGE, remaining);
    var request := SearchRequest(language, MIN_STARS, page, perPage);
    var searchResult := s.search(request);
    var searched := Searched(request, searchResult);
    assert perPage == remaining;
    ApplyAllSnoc(result0, [], searched);
    events := [searched];
    processedAfter := processed;
    if searchResult.Failure? {
      assert events == LangRun(language, page, processed, run, s) by {
        LangRunStep(language, page, processed, run, s, searchResult);
      }
      result := result0.(errors := result0.errors + ErrorLine(searched));
      return events, processedAfter, result, true;
    }
    assert result0.errors + ErrorLine(searched) == result0.errors;
    result := result0;
    if |searchResult.value.items| == 0 {
      assert events == LangRun(language, page, processed, run, s) by {
        LangRunStep(language, page, processed, run, s, searchResult);
      }
      return events, processedAfter, result, true;
    }
    var pageEvents;
    pageEvents, processedAfter, result := ProcessPage(searchResult.value.items, processed, dryRun, s, result, run);
    ApplyAllAppend(result0, events, pageEvents);
    events := events + pageEvents;
    stop := !searchResult.value.hasNextPage;
    LangPageEnd(language, page, processed, run, s, pageEvents, processedAfter, stop);
  }

  /** How `LangRun` goes on after a non-empty page, in the terms of the loop. */
  lemma LangPageEnd(language: string, page: nat, processed: nat, run: RepoRunner, s: IngestServices,
                    pageEvents: seq<Event>, processedAfter: nat, stop: bool)
    requires FiniteSearch(s)
    requires 1 <= page <= s.pageLimit + 1 && processed < MAX_REPOS_PER_LANGUAGE
    requires var response := s.search(SearchRequest(language, MIN_STARS, page, MAX_REPOS_PER_LANGUAGE - processed));
      && response.Success? && |response.value.items| > 0
      && pageEvents == PageRun(response.value.items, processed, run)
      && stop == !response.value.hasNextPage
    requires processedAfter == processed + CountSuccess(pageEvents)
    ensures var request := SearchRequest(language, MIN_STARS, page, MAX_REPOS_PER_LANGUAGE - processed);
      var events := [Searched(request, s.search(request))] + pageEvents;
      && (stop || processedAfter >= MAX_REPOS_PER_LANGUAGE ==> events == LangRun(language, page, processed, run, s))
      && (!stop && processedAfter < MAX_REPOS_PER_LANGUAGE ==>
            && page + 1 <= s.pageLimit + 1
            && events + LangRun(language, page + 1, processedAfter, run, s) == LangRun(language, page, processed, run, s))
  {
    var request := SearchRequest(language, MIN_STARS, page, MAX_REPOS_PER_LANGUAGE - processed);
    LangRunStep(language, page, processed, run, s, s.search(request));
  }

  /** The `while` loop of one language. */
  method IngestLanguage(language: string, dryRun: bool, s: IngestServices, result0: IngestionResult,
                        ghost run: RepoRunner)
    returns (events: seq<Event>, result: IngestionResult)
    requires FiniteSearch(s) && RunsAs(run, dryRun, s)
    ensures events == LangRun(language, 1, 0, run, s)
    ensures result == ApplyAll(result0, events)
  {
    var reposProcessedForLang: nat := 0;
    var page: nat := 1;
    events := [];
    result := result0;
    while reposProcessedForLang < MAX_REPOS_PER_LANGUAGE
      invariant 1 <= page <= s.pageLimit + 2
      invariant reposProcessedForLang < MAX_REPOS_PER_LANGUAGE ==>
        page <= s.pageLimit + 1 &&
        events + LangRun(language, page, reposProcessedForLang, run, s)
        == LangRun(language, 1, 0, run, s)
      invariant reposProcessedForLang >= MAX_REPOS_PER_LANGUAGE ==> events == LangRun(language, 1, 0, run, s)
      invariant result == ApplyAll(result0, events)
      decreases s.pageLimit + 2 - page
    {
      var pageEvents, stop;
      ghost var before := events;
      pageEvents, reposProcessedForLang, result, stop :=
        ProcessLanguagePage(language, page, reposProcessedForLang, dryRun, s, result, run);
      ApplyAllAppend(result0, events, pageEvents);
      events := events + pageEvents;
      if stop {
        break;
      }
      if reposProcessedForLang < MAX_REPOS_PER_LANGUAGE {
        Seqs.AppendAssoc(before, pageEvents, LangRun(language, page + 1, reposProcessedForLang, run, s));
      }
      page := page + 1;
    }
  }

  // ---------------------------------------------------------------------------
  // The pipeline
  // ---------------------------------------------------------------------------

  /** `if (syncLogId)`: the id exists and is not empty. */
  predicate Truthy(id: Option<string>) {
    id.Some? && id.value != ""
  }

  function Applied(u: SyncLogUpdate): SyncLogRecord {
    SyncLogRecord(u.id, u.status, u.reposProcessed, u.issuesProcessed, u.errors)
  }

  function UpdateFor(id: string, status: SyncStatus, r: IngestionResult): SyncLogUpdate {
    SyncLogUpdate(id, status, r.totalRepos, r.totalIssues, r.errors)
  }

  /**
   * The end of `runIngestionPipeline`, given the run's events: its result (or
   * the error it throws) and the sync-log row as stored afterwards.
   */
  datatype PipelineRun = PipelineRun(
    outcome: Result<IngestionResult, string>,
    syncLog: Option<SyncLogRecord>,
    events: seq<Event>)

  function Finish(syncLogId: Option<string>, events: seq<Event>, s: IngestServices): PipelineRun {
    var created := if syncLogId.Some? then Some(SyncLogRecord(syncLogId.value, RUNNING, 0, 0, [])) else None;
    var result := ApplyAll(IngestionResult(0, 0, []), events);
    if !Truthy(syncLogId) then PipelineRun(Success(result), created, events)
    else
      var completed := UpdateFor(syncLogId.value, COMPLETED, result);
      match s.updateSyncLog(completed)
      case Pass => PipelineRun(Success(result), Some(Applied(completed)), events)
      case Fail(e) =>
        var withFatal := result.(errors := result.errors + ["Pipeline fatal error: " + e]);
        var failed := UpdateFor(syncLogId.value, FAILED, withFatal);
        match s.updateSyncLog(failed)
        case Pass => PipelineRun(Success(withFatal), Some(Applied(failed)), events)
        case Fail(e2) => PipelineRun(Failure(e2), created, events)
  }

  function Pipeline(dryRun: bool, s: IngestServices): PipelineRun
    requires FiniteSearch(s)
  {
    if !dryRun && s.createSyncLog.Failure? then PipelineRun(Failure(s.createSyncLog.error), None, [])
    else
      var syncLogId := if dryRun then None else Some(s.createSyncLog.value);
      Finish(syncLogId, LanguagesRun(CONFIGURED_LANGUAGES, Runner(dryRun, s), s), s)
  }

  /** `runIngestionPipeline`. */
  method RunIngestionPipeline(dryRun: bool, s: IngestServices)
    returns (outcome: Result<IngestionResult, string>, syncLog: Option<SyncLogRecord>, events: seq<Event>)
    requires FiniteSearch(s)
    ensures PipelineRun(outcome, syncLog, events) == Pipeline(dryRun, s)
  {
    var result := IngestionResult(0, 0, []);
    var syncLogId: Option<string> := None;
    syncLog := None;
    if !dryRun {
      var created := s.createSyncLog;
      if created.Failure? {
        return Failure(created.error), None, [];
      }
      syncLogId := Some(created.value);
      syncLog := Some(SyncLogRecord(created.value, RUNNING, 0, 0, []));
    }

    RunnerRunsAs(dryRun, s);
    events := [];
    for i := 0 to |CONFIGURED_LANGUAGES|
      invariant events == LanguagesRun(CONFIGURED_LANGUAGES[..i], Runner(dryRun, s), s)
      invariant result == ApplyAll(IngestionResult(0, 0, []), events)
    {
      assert CONFIGURED_LANGUAGES[..i + 1][..i] == CONFIGURED_LANGUAGES[..i];
      var languageEvents;
      languageEvents, result := IngestLanguage(CONFIGURED_LANGUAGES[i], dryRun, s, result, Runner(dryRun, s));
      ApplyAllAppend(IngestionResult(0, 0, []), events, languageEvents);
      events := events + languageEvents;
    }
    assert CONFIGURED_LANGUAGES[..|CONFIGURED_LANGUAGES|] == CONFIGURED_LANGUAGES;

    if Truthy(syncLogId) {
      var completed := UpdateFor(syncLogId.value, COMPLETED, result);
      var updated := s.updateSyncLog(completed);
      if updated.Pass? {
        syncLog := Some(Applied(completed));
      } else {
        result := result.(errors := result.errors + ["Pipeline fatal error: " + updated.error]);
        var failed := UpdateFor(syncLogId.value, FAILED, result);
        updated := s.updateSyncLog(failed);
        if updated.Fail? {
          return Failure(updated.error), syncLog, events;
        }
        syncLog := Some(Applied(failed));
      }
    }
    outcome := Success(result);
  }

  // ---------------------------------------------------------------------------
  // Properties
  // ---------------------------------------------------------------------------

  /** The page size asked for is `min(25, 25 - processed)`, hence between 1 and 25. */
  lemma {:induction false} PerPageBounds(language: string, page: nat, processed: nat, run: RepoRunner,
                                         s: IngestServices, e: Event)
    requires FiniteSearch(s)
    requires 1 <= page <= s.pageLimit + 1 && processed < MAX_REPOS_PER_LANGUAGE
    requires e in LangRun(language, page, processed, run, s) && e.Searched?
    ensures 1 <= e.request.perPage <= REPOS_PER_PAGE
    ensures e.request.language == language && e.request.minStars == MIN_STARS
    decreases s.pageLimit + 1 - page
  {
    var request := SearchRequest(language, MIN_STARS, page, Min(REPOS_PER_PAGE, MAX_REPOS_PER_LANGUAGE - processed));
    var response := s.search(request);
    if e != Searched(request, response) {
      assert response.Success? && |response.value.items| > 0;
      var pageEvents := PageRun(response.value.items, processed, run);
      PageRunOnlyProcessed(response.value.items, processed, run);
      var now := processed + CountSuccess(pageEvents);
      if e !in pageEvents {
        PerPageBounds(language, page + 1, now, run, s, e);
      }
    }
  }

  /** A page contributes only `processRepository` events. */
  lemma {:induction false} PageRunOnlyProcessed(items: seq<GitHubRepository>, processed: nat, run: RepoRunner)
    requires processed < MAX_REPOS_PER_LANGUAGE
    ensures forall e :: e in PageRun(items, processed, run) ==> e.Processed?
    decreases |items|
  {
    if items != [] {
      var (r, _) := run(items[0]);
      if !r.Success? {
        PageRunOnlyProcessed(items[1..], processed, run);
      } else if processed + 1 < MAX_REPOS_PER_LANGUAGE {
        PageRunOnlyProcessed(items[1..], processed + 1, run);
      }
    }
  }

  /**
   * A page never pushes the count past the cap, processes its items in order
   * without skipping, and stops early only when the cap is reached.
   */
  /** A page never takes the language past the cap. */
  lemma {:induction false} PageRunCap(items: seq<GitHubRepository>, processed: nat, run: RepoRunner)
    requires processed < MAX_REPOS_PER_LANGUAGE
    ensures processed + CountSuccess(PageRun(items, processed, run)) <= MAX_REPOS_PER_LANGUAGE
    decreases |items|
  {
    if items != [] {
      var (r, writes) := run(items[0]);
      var e := Processed(items[0].fullName, r, writes);
      var next := if r.Success? then processed + 1 else processed;
      assert CountSuccess([e]) == if r.Success? then 1 else 0 by {
        assert [e][..0] == [];
      }
      if r.Success? && processed + 1 >= MAX_REPOS_PER_LANGUAGE {
        assert PageRun(items, processed, run) == [e];
      } else {
        var tail := PageRun(items[1..], next, run);
        PageRunCap(items[1..], next, run);
        assert PageRun(items, processed, run) == [e] + tail;
        CountSuccessAppend([e], tail);
      }
    }
  }

  lemma {:induction false} PageRunProperties(items: seq<GitHubRepository>, processed: nat, run: RepoRunner)
    requires processed < MAX_REPOS_PER_LANGUAGE
    ensures var events := PageRun(items, processed, run);
      && processed + CountSuccess(events) <= MAX_REPOS_PER_LANGUAGE
      && |events| <= |items|
      && (forall k :: 0 <= k < |events| ==>
            events[k] == Processed(items[k].fullName, run(items[k]).0, run(items[k]).1))
      && (|events| < |items| ==> processed + CountSuccess(events) == MAX_REPOS_PER_LANGUAGE)
    decreases |items|
  {
    if items != [] {
      var (r, writes) := run(items[0]);
      var e := Processed(items[0].fullName, r, writes);
      var next := if r.Success? then processed + 1 else processed;
      var events := PageRun(items, processed, run);
      CountSuccessAppend([e], []);
      assert CountSuccess([e]) == if r.Success? then 1 else 0 by {
        assert [e][..0] == [];
      }
      if r.Success? && processed + 1 >= MAX_REPOS_PER_LANGUAGE {
        assert events == [e];
      } else {
        var tail := PageRun(items[1..], next, run);
        PageRunProperties(items[1..], next, run);
        assert events == [e] + tail;
        CountSuccessAppend([e], tail);
      }
    }
  }

  /** Each language processes at most 25 repositories successfully. */
  lemma {:induction false} LanguageCap(language: string, page: nat, processed: nat, run: RepoRunner, s: IngestServices)
    requires FiniteSearch(s)
    requires 1 <= page <= s.pageLimit + 1 && processed < MAX_REPOS_PER_LANGUAGE
    ensures processed + CountSuccess(LangRun(language, page, processed, run, s)) <= MAX_REPOS_PER_LANGUAGE
    decreases s.pageLimit + 1 - page
  {
    var request := SearchRequest(language, MIN_STARS, page, MAX_REPOS_PER_LANGUAGE - processed);
    var response := s.search(request);
    var searched := Searched(request, response);
    assert CountSuccess([searched]) == 0 by {
      assert [searched][..0] == [];
    }
    if response.Success? && |response.value.items| > 0 {
      var pageEvents := PageRun(response.value.items, processed, run);
      PageRunCap(response.value.items, processed, run);
      CountSuccessAppend([searched], pageEvents);
      var now := processed + CountSuccess(pageEvents);
      if response.value.hasNextPage && now < MAX_REPOS_PER_LANGUAGE {
        var rest := LangRun(language, page + 1, now, run, s);
        assert LangRun(language, page, processed, run, s) == [searched] + pageEvents + rest by {
          LangRunStep(language, page, processed, run, s, response);
        }
        LanguageCap(language, page + 1, now, run, s);
        CountSuccessAppend([searched] + pageEvents, rest);
        assert CountSuccess([searched] + pageEvents) == now - processed;
        assert CountSuccess([searched] + pageEvents + rest) == now - processed + CountSuccess(rest);
      } else {
        assert LangRun(language, page, processed, run, s) == [searched] + pageEvents by {
          LangRunStep(language, page, processed, run, s, response);
        }
      }
    } else {
      assert LangRun(language, page, processed, run, s) == [searched] by {
        LangRunStep(language, page, processed, run, s, response);
      }
    }
  }

  /** A failed search records one error and ends that language only. */
  lemma SearchFailureEndsLanguage(language: string, page: nat, processed: nat, run: RepoRunner, s: IngestServices)
    requires FiniteSearch(s)
    requires 1 <= page <= s.pageLimit + 1 && processed < MAX_REPOS_PER_LANGUAGE
    requires s.search(SearchRequest(language, MIN_STARS, page, MAX_REPOS_PER_LANGUAGE - processed)).Failure?
    ensures var events := LangRun(language, page, processed, run, s);
      && |events| == 1
      && |ErrorLines(events)| == 1
      && ApplyAll(IngestionResult(0, 0, []), events).totalRepos == 0
  {
    var events := LangRun(language, page, processed, run, s);
    assert events[..0] == [];
  }

  /** An empty page, or a last page, ends the language after its items. */
  lemma PaginationStops(language: string, page: nat, processed: nat, run: RepoRunner, s: IngestServices)
    requires FiniteSearch(s)
    requires 1 <= page <= s.pageLimit + 1 && processed < MAX_REPOS_PER_LANGUAGE
    requires EndsLanguage(s.search(SearchRequest(language, MIN_STARS, page, MAX_REPOS_PER_LANGUAGE - processed)))
    ensures forall e :: e in LangRun(language, page, processed, run, s) && e.Searched? ==> e.request.page == page
  {
    var request := SearchRequest(language, MIN_STARS, page, MAX_REPOS_PER_LANGUAGE - processed);
    var response := s.search(request);
    if response.Success? && |response.value.items| > 0 {
      PageRunOnlyProcessed(response.value.items, processed, run);
    }
  }

  /** Every configured language is searched from page 1, whatever happened to the others. */
  lemma {:induction false} EveryLanguageSearched(languages: seq<string>, run: RepoRunner, s: IngestServices, i: nat)
    requires FiniteSearch(s) && i < |languages|
    ensures var first := SearchRequest(languages[i], MIN_STARS, 1, REPOS_PER_PAGE);
      Searched(first, s.search(first)) in LanguagesRun(languages, run, s)
  {
    var last := |languages| - 1;
    if i < last {
      EveryLanguageSearched(languages[..last], run, s, i);
    } else {
      var first := SearchRequest(languages[i], MIN_STARS, 1, REPOS_PER_PAGE);
      assert LangRun(languages[i], 1, 0, run, s)[0] == Searched(first, s.search(first));
    }
  }

  /** A runner that writes nothing, as `processRepository` is in a dry run. */
  ghost predicate WritesNothing(run: RepoRunner) {
    forall gh :: run(gh).1 == []
  }

  /** No processed event in the log carries a write. */
  predicate NoWrites(events: seq<Event>) {
    forall i :: 0 <= i < |events| ==> events[i].Processed? ==> events[i].writes == []
  }

  lemma NoWritesAppend(a: seq<Event>, b: seq<Event>)
    requires NoWrites(a) && NoWrites(b)
    ensures NoWrites(a + b)
  {
    forall i | 0 <= i < |a + b| && (a + b)[i].Processed? ensures (a + b)[i].writes == [] {
      if i >= |a| {
        assert (a + b)[i] == b[i - |a|];
      }
    }
  }

  /** The events of a page run by a runner that writes nothing carry no writes. */
  lemma {:induction false} PageWritesNothing(items: seq<GitHubRepository>, processed: nat, run: RepoRunner)
    requires processed < MAX_REPOS_PER_LANGUAGE && WritesNothing(run)
    ensures NoWrites(PageRun(items, processed, run))
    decreases |items|
  {
    if items != [] {
      var (r, _) := run(items[0]);
      if !r.Success? {
        PageWritesNothing(items[1..], processed, run);
      } else if processed + 1 < MAX_REPOS_PER_LANGUAGE {
        PageWritesNothing(items[1..], processed + 1, run);
      }
    }
  }

  lemma {:induction false} LanguageWritesNothing(language: string, page: nat, processed: nat, run: RepoRunner,
                                                 s: IngestServices)
    requires FiniteSearch(s) && WritesNothing(run)
    requires 1 <= page <= s.pageLimit + 1 && processed < MAX_REPOS_PER_LANGUAGE
    ensures NoWrites(LangRun(language, page, processed, run, s))
    decreases s.pageLimit + 1 - page
  {
    var request := SearchRequest(language, MIN_STARS, page, MAX_REPOS_PER_LANGUAGE - processed);
    var response := s.search(request);
    var searched := Searched(request, response);
    assert NoWrites([searched]);
    if response.Success? && |response.value.items| > 0 {
      var pageEvents := PageRun(response.value.items, processed, run);
      PageWritesNothing(response.value.items, processed, run);
      NoWritesAppend([searched], pageEvents);
      var now := processed + CountSuccess(pageEvents);
      if response.value.hasNextPage && now < MAX_REPOS_PER_LANGUAGE {
        var rest := LangRun(language, page + 1, now, run, s);
        assert LangRun(language, page, processed, run, s) == [searched] + pageEvents + rest by {
          LangRunStep(language, page, processed, run, s, response);
        }
        LanguageWritesNothing(language, page + 1, now, run, s);
        NoWritesAppend([searched] + pageEvents, rest);
      } else {
        assert LangRun(language, page, processed, run, s) == [searched] + pageEvents by {
          LangRunStep(language, page, processed, run, s, response);
        }
      }
    } else {
      assert LangRun(language, page, processed, run, s) == [searched] by {
        LangRunStep(language, page, processed, run, s, response);
      }
    }
  }

  lemma {:induction false} LanguagesWriteNothing(languages: seq<string>, run: RepoRunner, s: IngestServices)
    requires FiniteSearch(s) && WritesNothing(run)
    ensures NoWrites(LanguagesRun(languages, run, s))
  {
    if languages != [] {
      LanguagesWriteNothing(languages[..|languages| - 1], run, s);
      LanguageWritesNothing(languages[|languages| - 1], 1, 0, run, s);
      NoWritesAppend(LanguagesRun(languages[..|languages| - 1], run, s), LangRun(languages[|languages| - 1], 1, 0, run, s));
    }
  }

  /** A dry run creates no sync log, writes nothing, and cannot fail. */
  lemma DryRunPipeline(s: IngestServices)
    requires FiniteSearch(s)
    ensures var run := Pipeline(true, s);
      && run.syncLog.None?
      && run.outcome.Success?
      && forall e :: e in run.events && e.Processed? ==> e.writes == []
  {
    forall gh ensures Runner(true, s)(gh).1 == [] {
      DryRunRepository(gh, s);
    }
    LanguagesWriteNothing(CONFIGURED_LANGUAGES, Runner(true, s), s);
  }

  /**
   * The end of a live run with a sync log, for any event log: the row ends
   * COMPLETED with the log's counts and error lines, or FAILED with the same
   * counts and the fatal error appended, or stays RUNNING (counts 0) when even
   * that update throws, and then the run throws the second error.
   */
  lemma {:induction false} SyncLogStatus(id: string, events: seq<Event>, s: IngestServices)
    requires id != ""
    ensures var run := Finish(Some(id), events, s);
      var counts := IngestionResult(CountSuccess(events), SumSuccess(events), ErrorLines(events));
      var completed := UpdateFor(id, COMPLETED, counts);
      && run.events == events
      && run.syncLog.Some? && run.syncLog.value.id == id
      && (s.updateSyncLog(completed).Pass? ==>
            run.outcome == Success(counts) && run.syncLog == Some(Applied(completed)))
      && (s.updateSyncLog(completed).Fail? ==>
            var withFatal := counts.(errors := counts.errors + ["Pipeline fatal error: " + s.updateSyncLog(completed).error]);
            var failed := UpdateFor(id, FAILED, withFatal);
            && (s.updateSyncLog(failed).Pass? ==>
                  run.outcome == Success(withFatal) && run.syncLog == Some(Applied(failed)))
            && (s.updateSyncLog(failed).Fail? ==>
                  run.outcome == Failure(s.updateSyncLog(failed).error)
                  && run.syncLog == Some(SyncLogRecord(id, RUNNING, 0, 0, []))))
  {
    ApplyAllCounts(IngestionResult(0, 0, []), events);
    assert [] + ErrorLines(events) == ErrorLines(events);
  }

  /** A live run whose sync log was created ends through `SyncLogStatus` on the whole log. */
  lemma LiveRunFinishes(s: IngestServices)
    requires FiniteSearch(s) && s.createSyncLog.Success?
    ensures var run := Pipeline(false, s);
      && run.events == LanguagesRun(CONFIGURED_LANGUAGES, Runner(false, s), s)
      && run == Finish(Some(s.createSyncLog.value), run.events, s)
  {
  }

  /** A failing sync-log creation throws before anything is searched. */
  lemma CreateFailureThrows(s: IngestServices)
    requires FiniteSearch(s) && s.createSyncLog.Failure?
    ensures Pipeline(false, s) == PipelineRun(Failure(s.createSyncLog.error), None, [])
  {
  }

  /** The stored vector metadata never admits an unclassified issue to a difficulty allow-list. */
  lemma UnclassifiedIssueNeverMatchesDifficulty(issue: IssueRecord, allowed: seq<Difficulty>)
    requires issue.difficulty.None?
    ensures !VDB.DifficultyIn(IssueVectorMetadata(issue).difficulty, allowed)
  {
    VDB.UnknownDifficultyExcluded(allowed);
  }

  /** A classified issue passes a difficulty allow-list exactly when its difficulty is listed. */
  lemma ClassifiedIssueMatchesDifficulty(issue: IssueRecord, d: Difficulty, allowed: seq<Difficulty>)
    requires issue.difficulty == Some(d)
    ensures VDB.DifficultyIn(IssueVectorMetadata(issue).difficulty, allowed) <==> d in allowed
  {
    if VDB.DifficultyIn(DifficultyName(d), allowed) {
      var d' :| d' in allowed && DifficultyName(d') == DifficultyName(d);
      DifficultyNameInjective(d', d);
    }
  }

  lemma DifficultyNameInjective(a: Difficulty, b: Difficulty)
    requires DifficultyName(a) == DifficultyName(b)
    ensures a == b
  {
    assert DifficultyName(a)[0] == DifficultyName(b)[0];
  }
}
