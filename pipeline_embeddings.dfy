/**
 * The text payloads of `src/lib/pipeline/embeddings.ts`: one line per present
 * part, in a fixed order, joined with a newline; and the 8 000-character
 * truncation applied before the embedding service is called.
 */
module PipelineEmbeddings {
  import opened Wrappers
  import opened Text

  const MAX_INPUT_CHARS: nat := 8_000

  datatype RepoEmbeddingInput = RepoEmbeddingInput(
    fullName: string,
    description: Option<string>,
    primaryLanguage: Option<string>,
    topics: seq<string>,
    readme: Option<string>)

  datatype IssueEmbeddingInput = IssueEmbeddingInput(
    title: string,
    labels: seq<string>,
    body: Option<string>)

  /** JavaScript truthiness of a `string | null`: present and not empty. */
  predicate Truthy(s: Option<string>) {
    s.Some? && s.value != ""
  }

  /** `cond ? [part] : []`. */
  function OptionalPart(cond: bool, part: string): seq<string> {
    if cond then [part] else []
  }

  /** The lines of a repository's text: full name, then each present part in order. */
  function RepoEmbeddingParts(repo: RepoEmbeddingInput): (parts: seq<string>)
    ensures |parts| >= 1 && parts[0] == repo.fullName
  {
    [repo.fullName]
    + OptionalPart(Truthy(repo.description), repo.description.GetOr(""))
    + OptionalPart(Truthy(repo.primaryLanguage), "Language: " + repo.primaryLanguage.GetOr(""))
    + OptionalPart(|repo.topics| > 0, "Topics: " + Join(repo.topics, ", "))
    + OptionalPart(Truthy(repo.readme), "README:\n" + repo.readme.GetOr(""))
  }

  function RepoEmbeddingText(repo: RepoEmbeddingInput): string {
    Join(RepoEmbeddingParts(repo), "\n")
  }

  /** `buildRepoEmbeddingText`: pushes the present parts onto `parts`, then joins. */
  method BuildRepoEmbeddingText(repo: RepoEmbeddingInput) returns (text: string)
    ensures text == RepoEmbeddingText(repo)
  {
    var parts := [repo.fullName];
    if Truthy(repo.description) {
      parts := parts + [repo.description.value];
    }
    if Truthy(repo.primaryLanguage) {
      parts := parts + ["Language: " + repo.primaryLanguage.value];
    }
    if |repo.topics| > 0 {
      parts := parts + ["Topics: " + Join(repo.topics, ", ")];
    }
    if Truthy(repo.readme) {
      parts := parts + ["README:\n" + repo.readme.value];
    }
    assert parts == RepoEmbeddingParts(repo);
    text := Join(parts, "\n");
  }

  /** The repository text always starts with the full name. */
  lemma RepoTextStartsWithFullName(repo: RepoEmbeddingInput)
    ensures repo.fullName <= RepoEmbeddingText(repo)
  {
    JoinStartsWithFirst(RepoEmbeddingParts(repo), "\n");
  }

  /** With nothing optional present the text is the full name alone. */
  lemma RepoTextMinimal(repo: RepoEmbeddingInput)
    requires !Truthy(repo.description) && !Truthy(repo.primaryLanguage)
    requires repo.topics == [] && !Truthy(repo.readme)
    ensures RepoEmbeddingText(repo) == repo.fullName
  {
    assert RepoEmbeddingParts(repo) == [repo.fullName];
  }

  /** With every part present the lines are in the fixed order. */
  lemma RepoTextFull(repo: RepoEmbeddingInput, d: string, l: string, r: string)
    requires repo.description == Some(d) && repo.primaryLanguage == Some(l) && repo.readme == Some(r)
    requires d != "" && l != "" && r != "" && |repo.topics| > 0
    ensures RepoEmbeddingText(repo) ==
      repo.fullName + "\n" + d + "\n" + "Language: " + l + "\n"
      + "Topics: " + Join(repo.topics, ", ") + "\n" + "README:\n" + r
  {
    var t := "Topics: " + Join(repo.topics, ", ");
    var parts := RepoEmbeddingParts(repo);
    assert parts == [repo.fullName, d, "Language: " + l, t, "README:\n" + r];
    JoinPush([repo.fullName], d, "\n");
    JoinPush([repo.fullName, d], "Language: " + l, "\n");
    JoinPush([repo.fullName, d, "Language: " + l], t, "\n");
    JoinPush([repo.fullName, d, "Language: " + l, t], "README:\n" + r, "\n");
    assert [repo.fullName] + [d] == [repo.fullName, d];
    assert [repo.fullName, d] + ["Language: " + l] == [repo.fullName, d, "Language: " + l];
    assert [repo.fullName, d, "Language: " + l] + [t] == [repo.fullName, d, "Language: " + l, t];
    assert [repo.fullName, d, "Language: " + l, t] + ["README:\n" + r] == parts;
  }

  /** An empty description, language or README gives no line, exactly as a missing one. */
  lemma RepoEmptyIsAbsent(repo: RepoEmbeddingInput)
    ensures RepoEmbeddingText(repo.(description := Some(""))) == RepoEmbeddingText(repo.(description := None))
    ensures RepoEmbeddingText(repo.(primaryLanguage := Some(""))) == RepoEmbeddingText(repo.(primaryLanguage := None))
    ensures RepoEmbeddingText(repo.(readme := Some(""))) == RepoEmbeddingText(repo.(readme := None))
  {
  }

  /** The lines of an issue's text. */
  function IssueEmbeddingParts(issue: IssueEmbeddingInput): (parts: seq<string>)
    ensures |parts| >= 1 && parts[0] == issue.title
  {
    [issue.title]
    + OptionalPart(|issue.labels| > 0, "Labels: " + Join(issue.labels, ", "))
    + OptionalPart(Truthy(issue.body), issue.body.GetOr(""))
  }

  function IssueEmbeddingText(issue: IssueEmbeddingInput): string {
    Join(IssueEmbeddingParts(issue), "\n")
  }

  /** `buildIssueEmbeddingText`. */
  method BuildIssueEmbeddingText(issue: IssueEmbeddingInput) returns (text: string)
    ensures text == IssueEmbeddingText(issue)
  {
    var parts := [issue.title];
    if |issue.labels| > 0 {
      parts := parts + ["Labels: " + Join(issue.labels, ", ")];
    }
    if Truthy(issue.body) {
      parts := parts + [issue.body.value];
    }
    assert parts == IssueEmbeddingParts(issue);
    text := Join(parts, "\n");
  }

  /** Title, labels line, body: the three shapes of an issue text. */
  lemma IssueTextShapes(issue: IssueEmbeddingInput)
    ensures var labels := "Labels: " + Join(issue.labels, ", ");
      IssueEmbeddingText(issue) ==
        if |issue.labels| > 0 && Truthy(issue.body) then issue.title + "\n" + labels + "\n" + issue.body.value
        else if |issue.labels| > 0 then issue.title + "\n" + labels
        else if Truthy(issue.body) then issue.title + "\n" + issue.body.value
        else issue.title
  {
    var labels := "Labels: " + Join(issue.labels, ", ");
    var parts := IssueEmbeddingParts(issue);
    if |issue.labels| > 0 && Truthy(issue.body) {
      assert parts == [issue.title, labels] + [issue.body.value];
      JoinPush([issue.title], labels, "\n");
      assert [issue.title] + [labels] == [issue.title, labels];
      JoinPush([issue.title, labels], issue.body.value, "\n");
    } else if |issue.labels| > 0 {
      assert parts == [issue.title] + [labels];
      JoinPush([issue.title], labels, "\n");
    } else if Truthy(issue.body) {
      assert parts == [issue.title] + [issue.body.value];
      JoinPush([issue.title], issue.body.value, "\n");
    } else {
      assert parts == [issue.title];
    }
  }

  /** `text.slice(0, MAX_INPUT_CHARS)`. */
  function Truncate(text: string): (t: string)
    ensures |t| <= MAX_INPUT_CHARS
    ensures t <= text
    ensures |text| <= MAX_INPUT_CHARS ==> t == text
    ensures |text| > MAX_INPUT_CHARS ==> |t| == MAX_INPUT_CHARS
  {
    if |text| <= MAX_INPUT_CHARS then text else text[..MAX_INPUT_CHARS]
  }

  /**
   * `generateEmbedding` with the embedding service as the oracle `embed`: the
   * service sees only the truncated text.
   */
  function GenerateEmbedding<R>(text: string, embed: string -> R): R {
    embed(Truncate(text))
  }

  /** Two texts that agree on their first 8 000 characters get the same embedding. */
  lemma EmbeddingIgnoresTail<R>(a: string, b: string, embed: string -> R)
    requires |a| >= MAX_INPUT_CHARS && |b| >= MAX_INPUT_CHARS
    requires a[..MAX_INPUT_CHARS] == b[..MAX_INPUT_CHARS]
    ensures GenerateEmbedding(a, embed) == GenerateEmbedding(b, embed)
  {
    if |a| == MAX_INPUT_CHARS {
      assert a == a[..MAX_INPUT_CHARS];
    }
    if |b| == MAX_INPUT_CHARS {
      assert b == b[..MAX_INPUT_CHARS];
    }
  }

  /** The full name survives truncation whenever it fits, whatever the README length. */
  lemma TruncatedRepoTextKeepsFullName(repo: RepoEmbeddingInput)
    requires |repo.fullName| <= MAX_INPUT_CHARS
    ensures repo.fullName <= Truncate(RepoEmbeddingText(repo))
  {
    RepoTextStartsWithFullName(repo);
  }
}
