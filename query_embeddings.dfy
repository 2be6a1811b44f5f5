/**
 * The discovery-query serialiser of `src/lib/query/embeddings.ts`: up to four
 * sentences in a fixed order, joined with a single space, and passed to the
 * embedding service untruncated.
 */
module QueryEmbeddings {
  import opened Wrappers
  import opened Domain
  import opened Text
  import Seqs

  /** `INTEREST_KEYWORDS`. */
  function InterestKeywords(i: Interest): string {
    match i
    case WebDevelopment => "web development, frontend, backend, full-stack, React, Vue, Node.js, APIs"
    case MobileDevelopment => "mobile development, iOS, Android, React Native, Flutter"
    case AiMl => "artificial intelligence, machine learning, deep learning, NLP, computer vision"
    case GameDevelopment => "game development, game engine, graphics, Unity, Unreal"
    case DevOps => "DevOps, CI/CD, containers, Kubernetes, Docker, infrastructure"
    case Security => "security, cryptography, authentication, vulnerability, penetration testing"
    case DataScience => "data science, analytics, visualization, pandas, statistics"
    case EmbeddedSystems => "embedded systems, IoT, firmware, hardware, microcontrollers"
  }

  /** `EXPERIENCE_DESCRIPTIONS`. */
  function ExperienceDescription(e: ExperienceLevel): string {
    match e
    case Beginner => "beginner-friendly, well-documented, simple codebase, good first issues"
    case Intermediate => "moderate complexity, some experience required, established patterns"
    case Expert => "complex architecture, advanced patterns, deep domain knowledge"
  }

  function LanguagesSegment(languages: seq<string>): string {
    "Programming languages: " + Join(languages, ", ") + "."
  }

  /** The interests expanded to their phrases, in input order, joined with "; ". */
  function InterestsSegment(interests: seq<Interest>): string {
    "Interests: " + Join(Seqs.Map(interests, InterestKeywords), "; ") + "."
  }

  function ExperienceSegment(e: ExperienceLevel): string {
    "Experience level: " + ExperienceDescription(e) + "."
  }

  function TrendingSegment(topics: seq<string>): string {
    "Trending topics: " + Join(topics, ", ") + "."
  }

  /** `query.trendingTopics && query.trendingTopics.length > 0`. */
  predicate HasTrending(query: DiscoveryQuery) {
    query.trendingTopics.Some? && |query.trendingTopics.value| > 0
  }

  /** The sentences of the query text, in the fixed order. */
  function QuerySegments(query: DiscoveryQuery): seq<string> {
    var withLanguages := Optional(|query.languages| > 0, LanguagesSegment(query.languages));
    var withInterests := withLanguages + Optional(|query.interests| > 0, InterestsSegment(query.interests));
    var withExperience := withInterests + [ExperienceSegment(query.experienceLevel)];
    withExperience + Optional(HasTrending(query), TrendingSegment(TrendingOf(query)))
  }

  /** The trending topics given, or none. */
  function TrendingOf(query: DiscoveryQuery): seq<string> {
    query.trendingTopics.GetOr([])
  }

  /** A sentence pushed only when `present`. */
  function Optional(present: bool, sentence: string): seq<string> {
    if present then [sentence] else []
  }

  function QueryText(query: DiscoveryQuery): string {
    Join(QuerySegments(query), " ")
  }

  /** `buildQueryText`: pushes the sentences onto `parts`, then joins with a space. */
  method BuildQueryText(query: DiscoveryQuery) returns (text: string)
    ensures text == QueryText(query)
  {
    var parts: seq<string> := [];
    if |query.languages| > 0 {
      parts := parts + [LanguagesSegment(query.languages)];
    }
    assert parts == Optional(|query.languages| > 0, LanguagesSegment(query.languages));
    ghost var before := parts;
    if |query.interests| > 0 {
      parts := parts + [InterestsSegment(query.interests)];
    }
    assert parts == before + Optional(|query.interests| > 0, InterestsSegment(query.interests));
    parts := parts + [ExperienceSegment(query.experienceLevel)];
    before := parts;
    if HasTrending(query) {
      parts := parts + [TrendingSegment(query.trendingTopics.value)];
    }
    assert parts == before + Optional(HasTrending(query), TrendingSegment(TrendingOf(query)));
    text := Join(parts, " ");
  }

  /** Each sentence is recognisable by its first character. */
  lemma SegmentHeads(query: DiscoveryQuery)
    ensures LanguagesSegment(query.languages)[0] == 'P'
    ensures InterestsSegment(query.interests)[0] == 'I'
    ensures ExperienceSegment(query.experienceLevel)[0] == 'E'
    ensures TrendingSegment(TrendingOf(query))[0] == 'T'
  {
  }

  /** The experience sentence is always there. */
  lemma ExperienceAlwaysPresent(query: DiscoveryQuery)
    ensures ExperienceSegment(query.experienceLevel) in QuerySegments(query)
  {
  }

  /** The sentences in the order they are pushed, each optional one present or not. */
  lemma SegmentsUnfold(query: DiscoveryQuery)
    ensures QuerySegments(query) ==
      Optional(|query.languages| > 0, LanguagesSegment(query.languages))
      + Optional(|query.interests| > 0, InterestsSegment(query.interests))
      + [ExperienceSegment(query.experienceLevel)]
      + Optional(HasTrending(query), TrendingSegment(TrendingOf(query)))
  {
  }

  /**
   * Where each sentence sits: the languages sentence first when there are
   * languages, then the interests sentence when there are interests, then the
   * experience sentence, and the trending sentence last when there are
   * trending topics; nothing else is in the text.
   */
  lemma SegmentPositions(query: DiscoveryQuery)
    ensures var nl := if |query.languages| > 0 then 1 else 0;
      var ni := if |query.interests| > 0 then 1 else 0;
      var nt := if HasTrending(query) then 1 else 0;
      var segments := QuerySegments(query);
      && |segments| == nl + ni + 1 + nt
      && (nl == 1 ==> segments[0] == LanguagesSegment(query.languages))
      && (ni == 1 ==> segments[nl] == InterestsSegment(query.interests))
      && segments[nl + ni] == ExperienceSegment(query.experienceLevel)
      && (nt == 1 ==> segments[nl + ni + 1] == TrendingSegment(query.trendingTopics.value))
  {
    SegmentsUnfold(query);
  }

  /** The four sentences differ from each other, since each starts with its own letter. */
  lemma SegmentsDiffer(query: DiscoveryQuery)
    ensures var l, i, e, t := LanguagesSegment(query.languages), InterestsSegment(query.interests),
                              ExperienceSegment(query.experienceLevel), TrendingSegment(TrendingOf(query));
      l != i && l != e && l != t && i != e && i != t && e != t
  {
    SegmentHeads(query);
  }

  /** The languages sentence is there exactly when languages were given. */
  lemma LanguagesPresentIff(query: DiscoveryQuery)
    ensures LanguagesSegment(query.languages) in QuerySegments(query) <==> |query.languages| > 0
  {
    SegmentsUnfold(query);
    SegmentsDiffer(query);
  }

  /** The interests sentence is there exactly when interests were given. */
  lemma InterestsPresentIff(query: DiscoveryQuery)
    ensures InterestsSegment(query.interests) in QuerySegments(query) <==> |query.interests| > 0
  {
    SegmentsUnfold(query);
    SegmentsDiffer(query);
  }

  /** The trending sentence is there exactly when trending topics were given and non-empty. */
  lemma TrendingPresentIff(query: DiscoveryQuery, topics: seq<string>)
    requires query.trendingTopics == Some(topics)
    ensures TrendingSegment(topics) in QuerySegments(query) <==> |topics| > 0
  {
    SegmentsUnfold(query);
    SegmentsDiffer(query);
  }

  /** Only the experience sentence for a query with no lists. */
  lemma QueryTextExperienceOnly(query: DiscoveryQuery)
    requires query.languages == [] && query.interests == [] && !HasTrending(query)
    ensures QueryText(query) == ExperienceSegment(query.experienceLevel)
  {
    assert QuerySegments(query) == [] + [] + [ExperienceSegment(query.experienceLevel)] + [];
    assert [] + [] + [ExperienceSegment(query.experienceLevel)] + [] == [ExperienceSegment(query.experienceLevel)];
  }

  /** All four sentences, in order, separated by single spaces. */
  lemma QueryTextFull(query: DiscoveryQuery)
    requires |query.languages| > 0 && |query.interests| > 0 && HasTrending(query)
    ensures QueryText(query) ==
      LanguagesSegment(query.languages) + " " + InterestsSegment(query.interests) + " "
      + ExperienceSegment(query.experienceLevel) + " " + TrendingSegment(query.trendingTopics.value)
  {
    var l := LanguagesSegment(query.languages);
    var i := InterestsSegment(query.interests);
    var e := ExperienceSegment(query.experienceLevel);
    var t := TrendingSegment(query.trendingTopics.value);
    assert QuerySegments(query) == [l] + [i] + [e] + [t];
    JoinSingle(l, " ");
    JoinPush([l], i, " ");
    JoinPush([l] + [i], e, " ");
    JoinPush([l] + [i] + [e], t, " ");
  }

  /**
   * `generateQueryEmbedding` with the embedding service as the oracle `embed`;
   * `input` is what the service receives: the whole query text, untruncated.
   */
  method GenerateQueryEmbedding(query: DiscoveryQuery, embed: string -> seq<real>)
    returns (embedding: seq<real>, input: string)
    ensures input == QueryText(query)
    ensures embedding == embed(QueryText(query))
  {
    input := BuildQueryText(query);
    embedding := embed(input);
  }
}
