/**
 * The classifier/transformer of `src/lib/pipeline/transform.ts`: size tiers,
 * difficulty inference from labels, the good-first-issue flag, the health
 * score, and the mapping of GitHub API records to relational records.
 */
module Transform {
  import opened Wrappers
  import opened Domain
  import opened Text
  import Seqs

  // ---------------------------------------------------------------------------
  // Size tier
  // ---------------------------------------------------------------------------

  /** The tier of a star count: below 1 000, 10 000 and 50 000, or above. */
  function CalculateRepoSize(stars: int): (size: RepoSize)
    ensures size == SMALL <==> stars < 1_000
    ensures size == MEDIUM <==> 1_000 <= stars < 10_000
    ensures size == LARGE <==> 10_000 <= stars < 50_000
    ensures size == HUGE <==> 50_000 <= stars
  {
    if stars < 1_000 then SMALL
    else if stars < 10_000 then MEDIUM
    else if stars < 50_000 then LARGE
    else HUGE
  }

  /** Position of a tier in the order SMALL < MEDIUM < LARGE < HUGE. */
  function SizeRank(size: RepoSize): nat {
    match size
    case SMALL => 0
    case MEDIUM => 1
    case LARGE => 2
    case HUGE => 3
  }

  /** More stars never give a smaller tier. */
  lemma CalculateRepoSizeMonotone(a: int, b: int)
    requires a <= b
    ensures SizeRank(CalculateRepoSize(a)) <= SizeRank(CalculateRepoSize(b))
  {
  }

  // ---------------------------------------------------------------------------
  // Difficulty inference
  // ---------------------------------------------------------------------------

  const BEGINNER_LABELS: set<string> := {
    "good first issue", "beginner", "easy", "starter", "good-first-issue",
    "beginner-friendly", "first-timers-only", "low-hanging-fruit"
  }

  const INTERMEDIATE_LABELS: set<string> := {
    "help wanted", "medium", "help-wanted", "intermediate"
  }

  const ADVANCED_LABELS: set<string> := {
    "advanced", "hard", "complex", "expert"
  }

  /** Some label, once lower-cased and trimmed, is in `keywords`. */
  predicate HasLabelIn(labels: seq<string>, keywords: set<string>) {
    exists l :: l in labels && Normalise(l) in keywords
  }

  /**
   * The difficulty the labels imply: a beginner keyword wins over everything,
   * an advanced keyword over an intermediate one, and no keyword gives none.
   */
  function DifficultyOf(labels: seq<string>): Option<Difficulty> {
    if HasLabelIn(labels, BEGINNER_LABELS) then Some(BEGINNER)
    else if HasLabelIn(labels, ADVANCED_LABELS) then Some(ADVANCED)
    else if HasLabelIn(labels, INTERMEDIATE_LABELS) then Some(INTERMEDIATE)
    else None
  }

  /** The first index whose normalised label is in `keywords`, or `|labels|` if none is. */
  method FindLabelIn(labels: seq<string>, keywords: set<string>) returns (i: nat)
    ensures i <= |labels|
    ensures i < |labels| <==> HasLabelIn(labels, keywords)
    ensures i < |labels| ==> Normalise(labels[i]) in keywords
  {
    i := 0;
    while i < |labels|
      invariant i <= |labels|
      invariant forall k :: 0 <= k < i ==> Normalise(labels[k]) !in keywords
    {
      if Normalise(labels[i]) in keywords {
        return;
      }
      i := i + 1;
    }
  }

  /** `inferDifficulty`: three scans of the labels, each returning early on a match. */
  method InferDifficulty(labels: seq<string>) returns (d: Option<Difficulty>)
    ensures d == DifficultyOf(labels)
  {
    var i := FindLabelIn(labels, BEGINNER_LABELS);
    if i < |labels| {
      return Some(BEGINNER);
    }
    i := FindLabelIn(labels, ADVANCED_LABELS);
    if i < |labels| {
      return Some(ADVANCED);
    }
    i := FindLabelIn(labels, INTERMEDIATE_LABELS);
    if i < |labels| {
      return Some(INTERMEDIATE);
    }
    return None;
  }

  /** No difficulty exactly when no label matches any of the three keyword sets. */
  lemma DifficultyNoneIff(labels: seq<string>)
    ensures DifficultyOf(labels) == None <==>
      forall l :: l in labels ==>
        Normalise(l) !in BEGINNER_LABELS + ADVANCED_LABELS + INTERMEDIATE_LABELS
  {
  }

  /** The inferred difficulty depends on which labels are present, not their order. */
  lemma DifficultyOrderIndependent(a: seq<string>, b: seq<string>)
    requires multiset(a) == multiset(b)
    ensures DifficultyOf(a) == DifficultyOf(b)
  {
    forall l ensures l in a <==> l in b {
      assert l in a <==> l in multiset(a);
      assert l in b <==> l in multiset(b);
    }
  }

  /** `isGoodFirstIssue`: some normalised label is a beginner keyword. */
  predicate IsGoodFirstIssue(labels: seq<string>) {
    exists l :: l in labels && Normalise(l) in BEGINNER_LABELS
  }

  /** A good first issue is always classified BEGINNER, whatever else it is labelled. */
  lemma GoodFirstIssueIsBeginner(labels: seq<string>)
    ensures IsGoodFirstIssue(labels) <==> DifficultyOf(labels) == Some(BEGINNER)
  {
  }

  lemma LowerGoodFirstIssue()
    ensures Normalise("good first issue") == "good first issue"
  {
    var s := "good first issue";
    assert Lower(s) == s;
    assert TrimStart(s) == s;
    assert TrimEnd(s) == s;
  }

  /** The worked examples: precedence of the beginner set, the advanced set, and no labels. */
  lemma DifficultyExamples()
    ensures DifficultyOf(["good first issue"]) == Some(BEGINNER)
    ensures DifficultyOf(["good first issue", "expert"]) == Some(BEGINNER)
    ensures DifficultyOf([]) == None
  {
    LowerGoodFirstIssue();
    assert "good first issue" in ["good first issue"];
    assert "good first issue" in ["good first issue", "expert"];
  }

  lemma HardIsAdvanced()
    ensures DifficultyOf(["hard"]) == Some(ADVANCED)
  {
    var s := "hard";
    assert Lower(s) == s;
    assert TrimStart(s) == s;
    assert TrimEnd(s) == s;
    assert Normalise(s) == s;
  }

  /** A label led by an ideographic space (U+3000) is trimmed like any other. */
  lemma UnicodeSpaceTrimmed()
    ensures DifficultyOf(["\U{3000}hard"]) == Some(ADVANCED)
  {
    var s := "\U{3000}hard";
    assert Lower(s) == s;
    assert TrimStart(s) == TrimStart(s[1..]);
    assert s[1..] == "hard";
    assert TrimStart("hard") == "hard";
    assert TrimEnd("hard") == "hard";
    assert Normalise(s) == "hard";
    HardIsAdvanced();
    assert Normalise("hard") == "hard";
  }

  /** Case and surrounding white space do not matter. */
  lemma PaddedUpperCaseLabel()
    ensures DifficultyOf([" Good First Issue "]) == Some(BEGINNER)
  {
    var s := " Good First Issue ";
    NormalisePadded();
    assert s in [s];
  }

  lemma NormalisePadded()
    ensures Normalise(" Good First Issue ") == "good first issue"
  {
    LowerPadded();
    TrimPadded();
  }

  lemma LowerPadded()
    ensures Lower(" Good First Issue ") == " good first issue "
  {
  }

  lemma TrimPadded()
    ensures Trim(" good first issue ") == "good first issue"
  {
    var lower := " good first issue ";
    assert TrimStart(lower) == TrimStart(lower[1..]);
    assert lower[1..] == "good first issue ";
    assert TrimStart("good first issue ") == "good first issue ";
    assert TrimEnd("good first issue ") == TrimEnd("good first issue");
    assert TrimEnd("good first issue") == "good first issue";
  }

  // ---------------------------------------------------------------------------
  // Health score
  // ---------------------------------------------------------------------------

  const DAY_MS: nat := 1000 * 60 * 60 * 24

  /** The inputs of `calculateHealthScore`; `pushedAt` is a timestamp in milliseconds. */
  datatype HealthScoreInput = HealthScoreInput(
    pushedAt: int,
    openIssuesCount: nat,
    stargazersCount: nat,
    hasReadme: bool,
    hasLicense: bool,
    hasDescription: bool)

  function Max(a: real, b: real): real {
    if a < b then b else a
  }

  /** Days since the last push at clock reading `now` (a day is `DAY_MS` = 86 400 000 ms), never negative. */
  function DaysSincePush(pushedAt: int, now: int): (days: real)
    ensures days >= 0.0
  {
    Max(0.0, (now - pushedAt) as real / 86_400_000.0)
  }

  /**
   * Commit recency bucket, 2..40, on the milliseconds elapsed since the push:
   * `days <= n` iff `elapsed <= n * DAY_MS`, and a negative elapsed time is
   * zero days. `RecencyMatchesDays` proves this is the source's day form.
   */
  function RecencyScore(elapsedMs: int): (r: int)
    ensures 2 <= r <= 40
  {
    if elapsedMs <= 7 * DAY_MS then 40
    else if elapsedMs <= 30 * DAY_MS then 35
    else if elapsedMs <= 90 * DAY_MS then 25
    else if elapsedMs <= 180 * DAY_MS then 15
    else if elapsedMs <= 365 * DAY_MS then 8
    else 2
  }

  /** The bucket exactly as the source computes it, on fractional days. */
  function RecencyScoreByDays(days: real): int {
    if days <= 7.0 then 40
    else if days <= 30.0 then 35
    else if days <= 90.0 then 25
    else if days <= 180.0 then 15
    else if days <= 365.0 then 8
    else 2
  }

  /** The millisecond thresholds are the day thresholds, for every push time and clock. */
  lemma RecencyMatchesDays(pushedAt: int, now: int)
    ensures RecencyScore(now - pushedAt) == RecencyScoreByDays(DaysSincePush(pushedAt, now))
  {
    var days := DaysSincePush(pushedAt, now);
    if now - pushedAt > 0 {
      assert days * 86_400_000.0 == (now - pushedAt) as real;
    }
  }

  /**
   * Open-issue ratio bucket, 4..20; 20 when there are no stars. The ratio
   * thresholds are written as integer comparisons (`open/stars > 1/k` iff
   * `k*open > stars`); `IssueScoreMatchesRatio` proves this is the ratio form.
   */
  function IssueScore(openIssues: nat, stars: nat): (r: int)
    ensures 4 <= r <= 20
    ensures stars == 0 ==> r == 20
  {
    if stars == 0 then 20
    else if 2 * openIssues > stars then 4
    else if 5 * openIssues > stars then 8
    else if 10 * openIssues > stars then 12
    else if 20 * openIssues > stars then 16
    else 20
  }

  /** The bucket exactly as the source computes it, on the real ratio. */
  function IssueScoreByRatio(openIssues: nat, stars: nat): int {
    if stars > 0 then
      var ratio := openIssues as real / stars as real;
      if ratio > 0.5 then 4
      else if ratio > 0.2 then 8
      else if ratio > 0.1 then 12
      else if ratio > 0.05 then 16
      else 20
    else 20
  }

  /** Documentation bucket, 0..40. */
  function DocsScore(hasReadme: bool, hasLicense: bool, hasDescription: bool): (r: int)
    ensures 0 <= r <= 40
    ensures r == 40 <==> hasReadme && hasLicense && hasDescription
  {
    (if hasReadme then 20 else 0) + (if hasLicense then 10 else 0) + (if hasDescription then 10 else 0)
  }

  /** The health score: the three buckets added up, always in 6..100. */
  function HealthScore(input: HealthScoreInput, now: int): (score: int)
    ensures 6 <= score <= 100
  {
    RecencyScore(now - input.pushedAt)
    + IssueScore(input.openIssuesCount, input.stargazersCount)
    + DocsScore(input.hasReadme, input.hasLicense, input.hasDescription)
  }

  /** `calculateHealthScore`, assigning the buckets step by step; `now` is `Date.now()`. */
  method CalculateHealthScore(input: HealthScoreInput, now: int) returns (score: int)
    ensures score == HealthScore(input, now)
    ensures 6 <= score <= 100
  {
    var daysSincePush := Max(0.0, (now - input.pushedAt) as real / DAY_MS as real);
    var recencyScore: int;
    if daysSincePush <= 7.0 { recencyScore := 40; }
    else if daysSincePush <= 30.0 { recencyScore := 35; }
    else if daysSincePush <= 90.0 { recencyScore := 25; }
    else if daysSincePush <= 180.0 { recencyScore := 15; }
    else if daysSincePush <= 365.0 { recencyScore := 8; }
    else { recencyScore := 2; }
    assert DAY_MS as real == 86_400_000.0;
    RecencyMatchesDays(input.pushedAt, now);
    assert recencyScore == RecencyScore(now - input.pushedAt);

    var issueScore := 20;
    if input.stargazersCount > 0 {
      var ratio := input.openIssuesCount as real / input.stargazersCount as real;
      if ratio > 0.5 { issueScore := 4; }
      else if ratio > 0.2 { issueScore := 8; }
      else if ratio > 0.1 { issueScore := 12; }
      else if ratio > 0.05 { issueScore := 16; }
    }
    IssueScoreMatchesRatio(input.openIssuesCount, input.stargazersCount);
    assert issueScore == IssueScore(input.openIssuesCount, input.stargazersCount);

    var docsScore := 0;
    if input.hasReadme { docsScore := docsScore + 20; }
    if input.hasLicense { docsScore := docsScore + 10; }
    if input.hasDescription { docsScore := docsScore + 10; }

    assert docsScore == DocsScore(input.hasReadme, input.hasLicense, input.hasDescription);
    // Math.round leaves a sum of integers unchanged.
    score := recencyScore + issueScore + docsScore;
  }

  /** The integer thresholds are the ratio thresholds, for every input. */
  lemma IssueScoreMatchesRatio(openIssues: nat, stars: nat)
    ensures IssueScore(openIssues, stars) == IssueScoreByRatio(openIssues, stars)
  {
    if stars > 0 {
      RatioAbove(openIssues, stars, 2, 0.5);
      RatioAbove(openIssues, stars, 5, 0.2);
      RatioAbove(openIssues, stars, 10, 0.1);
      RatioAbove(openIssues, stars, 20, 0.05);
    }
  }

  lemma RatioAbove(openIssues: nat, stars: nat, k: nat, threshold: real)
    requires stars > 0 && k > 0 && threshold * k as real == 1.0
    ensures openIssues as real / stars as real > threshold <==> k * openIssues > stars
  {
    var ratio := openIssues as real / stars as real;
    assert ratio * stars as real == openIssues as real;
    if ratio > threshold {
      assert ratio * stars as real > threshold * stars as real;
      assert (k * openIssues) as real == k as real * (ratio * stars as real);
      assert k as real * (threshold * stars as real) == stars as real;
    } else {
      assert ratio * stars as real <= threshold * stars as real;
      assert (k * openIssues) as real == k as real * (ratio * stars as real);
      assert k as real * (threshold * stars as real) == stars as real;
    }
  }

  /** A push at or after the clock reading counts as zero days and scores the full 40. */
  lemma FuturePushIsRecent(pushedAt: int, now: int)
    requires pushedAt >= now
    ensures DaysSincePush(pushedAt, now) == 0.0
    ensures RecencyScore(now - pushedAt) == 40
  {
  }

  /** An older push never scores better. */
  lemma RecencyMonotone(pushedAt: int, now: int, later: int)
    requires now <= later
    ensures RecencyScoreByDays(DaysSincePush(pushedAt, later)) <= RecencyScoreByDays(DaysSincePush(pushedAt, now))
  {
    assert (now - pushedAt) as real / 86_400_000.0 <= (later - pushedAt) as real / 86_400_000.0;
  }

  /** More open issues among the same stars never score better. */
  lemma IssueScoreMonotone(fewer: nat, more: nat, stars: nat)
    requires fewer <= more
    ensures IssueScore(more, stars) <= IssueScore(fewer, stars)
  {
  }

  /**
   * Pushed within a week, at most one open issue per twenty stars, and all
   * three documentation items present: the maximum score.
   */
  lemma PerfectHealthScore(input: HealthScoreInput, now: int)
    requires now - input.pushedAt <= 7 * DAY_MS
    requires 20 * input.openIssuesCount <= input.stargazersCount
    requires input.hasReadme && input.hasLicense && input.hasDescription
    ensures HealthScore(input, now) == 100
  {
    assert (now - input.pushedAt) as real / 86_400_000.0 <= 7.0;
  }

  /** The worked example: pushed now, 0 of 1000 stars open, fully documented. */
  lemma HealthScoreExample(now: int)
    ensures HealthScore(HealthScoreInput(now, 0, 1000, true, true, true), now) == 100
  {
    PerfectHealthScore(HealthScoreInput(now, 0, 1000, true, true, true), now);
  }

  // ---------------------------------------------------------------------------
  // Record transforms
  // ---------------------------------------------------------------------------

  /** The names of the languages record, in its key order. */
  function LanguageNames(languages: seq<(string, nat)>): (names: seq<string>)
    ensures |names| == |languages|
    ensures forall i :: 0 <= i < |languages| ==> names[i] == languages[i].0
  {
    Seqs.Map(languages, (p: (string, nat)) => p.0)
  }

  /** `ghRepo.license?.spdx_id ?? null`. */
  function LicenseId(license: Option<License>): Option<string> {
    match license
    case Some(l) => l.spdxId
    case None => None
  }

  /** A present, non-empty string (`s !== null && s.length > 0`). */
  predicate NonEmpty(s: Option<string>) {
    s.Some? && |s.value| > 0
  }

  /** The health-score inputs `transformRepository` derives. */
  function RepoHealthInput(ghRepo: GitHubRepository, readme: Option<string>): HealthScoreInput {
    HealthScoreInput(
      ghRepo.pushedAt,
      ghRepo.openIssuesCount,
      ghRepo.stargazersCount,
      NonEmpty(readme),
      LicenseId(ghRepo.license).Some?,
      NonEmpty(ghRepo.description))
  }

  /** `transformRepository`, with `now` the clock reading used by the health score. */
  function TransformRepository(ghRepo: GitHubRepository, readme: Option<string>,
                               languages: seq<(string, nat)>, now: int): RepositoryRecord
  {
    RepositoryRecord(
      id := NatToString(ghRepo.id),
      name := ghRepo.name,
      fullName := ghRepo.fullName,
      description := ghRepo.description,
      url := ghRepo.htmlUrl,
      stars := ghRepo.stargazersCount,
      forks := ghRepo.forksCount,
      openIssuesCount := ghRepo.openIssuesCount,
      primaryLanguage := ghRepo.language,
      languages := LanguageNames(languages),
      topics := ghRepo.topics.GetOr([]),
      license := LicenseId(ghRepo.license),
      createdAt := ghRepo.createdAt,
      updatedAt := ghRepo.updatedAt,
      pushedAt := ghRepo.pushedAt,
      size := CalculateRepoSize(ghRepo.stargazersCount),
      readme := readme,
      healthScore := HealthScore(RepoHealthInput(ghRepo, readme), now))
  }

  /** What the repository record derives: tier, topics default, health inputs. */
  lemma TransformRepositoryDerived(ghRepo: GitHubRepository, readme: Option<string>,
                                   languages: seq<(string, nat)>, now: int)
    ensures var r := TransformRepository(ghRepo, readme, languages, now);
      && r.size == CalculateRepoSize(r.stars)
      && (ghRepo.topics.None? ==> r.topics == [])
      && 6 <= r.healthScore <= 100
      && (r.healthScore > 60 ==> NonEmpty(readme) || r.license.Some? || NonEmpty(r.description))
  {
  }

  /** An empty README or description scores the same as a missing one. */
  lemma EmptyTextCountsAsMissing(ghRepo: GitHubRepository, languages: seq<(string, nat)>, now: int)
    ensures TransformRepository(ghRepo, Some(""), languages, now).healthScore
         == TransformRepository(ghRepo, None, languages, now).healthScore
    ensures TransformRepository(ghRepo.(description := Some("")), None, languages, now).healthScore
         == TransformRepository(ghRepo.(description := None), None, languages, now).healthScore
  {
  }

  /** `labels.map(l => l.name).filter(name => name !== undefined)`. */
  function LabelNames(labels: seq<GitHubLabel>): (names: seq<string>)
    ensures |names| <= |labels|
    ensures forall n :: n in names <==> GitHubLabel(Some(n)) in labels
  {
    if labels == [] then []
    else
      assert labels == labels[..|labels| - 1] + [labels[|labels| - 1]];
      var last := labels[|labels| - 1];
      LabelNames(labels[..|labels| - 1]) + (if last.name.Some? then [last.name.value] else [])
  }

  /** `transformIssue`. */
  function TransformIssue(ghIssue: GitHubIssue, repoId: string): IssueRecord {
    var labelNames := LabelNames(ghIssue.labels);
    IssueRecord(
      id := NatToString(ghIssue.id),
      number := ghIssue.number,
      title := ghIssue.title,
      body := ghIssue.body,
      url := ghIssue.htmlUrl,
      state := if ghIssue.state == "open" then OPEN else CLOSED,
      labels := labelNames,
      commentCount := ghIssue.comments,
      createdAt := ghIssue.createdAt,
      updatedAt := ghIssue.updatedAt,
      difficulty := DifficultyOf(labelNames),
      isGoodFirstIssue := IsGoodFirstIssue(labelNames),
      repoId := repoId)
  }

  /**
   * The issue record keeps the named labels as given (not normalised), drops
   * nameless ones, maps only "open" to OPEN, and a good first issue is BEGINNER.
   */
  lemma TransformIssueProperties(ghIssue: GitHubIssue, repoId: string)
    ensures var r := TransformIssue(ghIssue, repoId);
      && (forall n :: n in r.labels <==> GitHubLabel(Some(n)) in ghIssue.labels)
      && (r.state == OPEN <==> ghIssue.state == "open")
      && (r.isGoodFirstIssue ==> r.difficulty == Some(BEGINNER))
      && r.repoId == repoId
  {
  }

  /** Nameless labels are dropped and named ones kept in order. */
  lemma {:induction false} LabelNamesAppend(a: seq<GitHubLabel>, b: seq<GitHubLabel>)
    ensures LabelNames(a + b) == LabelNames(a) + LabelNames(b)
  {
    if b != [] {
      var b' := b[..|b| - 1];
      assert (a + b)[..|a + b| - 1] == a + b';
      assert (a + b)[|a + b| - 1] == b[|b| - 1];
      LabelNamesAppend(a, b');
    } else {
      assert a + b == a;
    }
  }

  lemma LabelNamesExample(x: string)
    ensures LabelNames([GitHubLabel(None), GitHubLabel(Some(x)), GitHubLabel(None)]) == [x]
  {
    LabelNamesAppend([GitHubLabel(None)], [GitHubLabel(Some(x))]);
    LabelNamesAppend([GitHubLabel(None), GitHubLabel(Some(x))], [GitHubLabel(None)]);
    assert [GitHubLabel(None)] + [GitHubLabel(Some(x))] + [GitHubLabel(None)]
        == [GitHubLabel(None), GitHubLabel(Some(x)), GitHubLabel(None)];
    assert LabelNames([GitHubLabel(None)]) == [];
    assert LabelNames([GitHubLabel(Some(x))]) == [x];
  }
}
