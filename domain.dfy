/**
 * Enumerations and record shapes shared by the pipeline and the query side:
 * the Prisma enums, the GitHub API shapes of `src/lib/github/client.ts`, the
 * relational records written by the transforms and the discovery query of
 * `src/lib/query/types.ts`. Timestamps are milliseconds since the epoch.
 */
module Domain {
  import opened Wrappers

  datatype RepoSize = SMALL | MEDIUM | LARGE | HUGE

  datatype Difficulty = BEGINNER | INTERMEDIATE | ADVANCED

  datatype IssueState = OPEN | CLOSED

  datatype ExperienceLevel = Beginner | Intermediate | Expert

  datatype Interest =
    | WebDevelopment | MobileDevelopment | AiMl | GameDevelopment
    | DevOps | Security | DataScience | EmbeddedSystems

  /** The enum member names as they appear in JSON and in vector metadata. */
  function RepoSizeName(s: RepoSize): string {
    match s
    case SMALL => "SMALL"
    case MEDIUM => "MEDIUM"
    case LARGE => "LARGE"
    case HUGE => "HUGE"
  }

  function DifficultyName(d: Difficulty): string {
    match d
    case BEGINNER => "BEGINNER"
    case INTERMEDIATE => "INTERMEDIATE"
    case ADVANCED => "ADVANCED"
  }

  function ExperienceLevelName(e: ExperienceLevel): string {
    match e
    case Beginner => "beginner"
    case Intermediate => "intermediate"
    case Expert => "expert"
  }

  function InterestName(i: Interest): string {
    match i
    case WebDevelopment => "web-development"
    case MobileDevelopment => "mobile-development"
    case AiMl => "ai-ml"
    case GameDevelopment => "game-development"
    case DevOps => "devops"
    case Security => "security"
    case DataScience => "data-science"
    case EmbeddedSystems => "embedded-systems"
  }

  /** `license: { spdx_id: string | null } | null` of the search API. */
  datatype License = License(spdxId: Option<string>)

  /** A repository as returned by the GitHub search API. */
  datatype GitHubRepository = GitHubRepository(
    id: nat,
    name: string,
    fullName: string,
    description: Option<string>,
    htmlUrl: string,
    stargazersCount: nat,
    forksCount: nat,
    openIssuesCount: nat,
    language: Option<string>,
    topics: Option<seq<string>>,
    license: Option<License>,
    createdAt: int,
    updatedAt: int,
    pushedAt: int,
    ownerLogin: string)

  /** `{ name?: string }`: a label whose name may be missing. */
  datatype GitHubLabel = GitHubLabel(name: Option<string>)

  /** An issue as returned by the GitHub issues API (pull requests already removed). */
  datatype GitHubIssue = GitHubIssue(
    id: nat,
    number: nat,
    title: string,
    body: Option<string>,
    htmlUrl: string,
    state: string,
    labels: seq<GitHubLabel>,
    comments: nat,
    createdAt: int,
    updatedAt: int)

  /** The repository row written to the relational store. */
  datatype RepositoryRecord = RepositoryRecord(
    id: string,
    name: string,
    fullName: string,
    description: Option<string>,
    url: string,
    stars: nat,
    forks: nat,
    openIssuesCount: nat,
    primaryLanguage: Option<string>,
    languages: seq<string>,
    topics: seq<string>,
    license: Option<string>,
    createdAt: int,
    updatedAt: int,
    pushedAt: int,
    size: RepoSize,
    readme: Option<string>,
    healthScore: int)

  /** The issue row written to the relational store. */
  datatype IssueRecord = IssueRecord(
    id: string,
    number: nat,
    title: string,
    body: Option<string>,
    url: string,
    state: IssueState,
    labels: seq<string>,
    commentCount: nat,
    createdAt: int,
    updatedAt: int,
    difficulty: Option<Difficulty>,
    isGoodFirstIssue: bool,
    repoId: string)

  /** What the user asks the discovery endpoint for. */
  datatype DiscoveryQuery = DiscoveryQuery(
    languages: seq<string>,
    experienceLevel: ExperienceLevel,
    interests: seq<Interest>,
    repoSizes: seq<RepoSize>,
    trendingTopics: Option<seq<string>>)
}
