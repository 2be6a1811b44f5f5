/**
 * `src/app/api/discover/route.ts`: the request schema as a validator over
 * parsed JSON, and the status-code branching of `POST`. The body text's JSON
 * parsing and zod's error reporting are not modelled; a body that is not
 * valid JSON arrives as `InvalidJson`, and whether the discovery services
 * throw (and with what kind of error) is the parameter `fault`.
 */
module DiscoverRoute {
  import opened Wrappers
  import opened Domain
  import Seqs
  import Discover

  /** A JSON value as `request.json()` produces it. */
  datatype Json =
    | JNull
    | JBool(b: bool)
    | JNumber(n: real)
    | JString(s: string)
    | JArray(items: seq<Json>)
    | JObject(fields: map<string, Json>)

  function Field(body: Json, key: string): Option<Json> {
    if body.JObject? && key in body.fields then Some(body.fields[key]) else None
  }

  function ParseString(j: Json): Option<string> {
    if j.JString? then Some(j.s) else None
  }

  /** `z.enum(["beginner", "intermediate", "expert"])`. */
  function ParseExperienceLevel(j: Json): Option<ExperienceLevel> {
    if j == JString("beginner") then Some(Beginner)
    else if j == JString("intermediate") then Some(Intermediate)
    else if j == JString("expert") then Some(Expert)
    else None
  }

  /** `z.enum(VALID_INTERESTS)`, in the order listed. */
  function ParseInterest(j: Json): Option<Interest> {
    if j == JString("web-development") then Some(WebDevelopment)
    else if j == JString("mobile-development") then Some(MobileDevelopment)
    else if j == JString("ai-ml") then Some(AiMl)
    else if j == JString("game-development") then Some(GameDevelopment)
    else if j == JString("devops") then Some(DevOps)
    else if j == JString("security") then Some(Security)
    else if j == JString("data-science") then Some(DataScience)
    else if j == JString("embedded-systems") then Some(EmbeddedSystems)
    else None
  }

  /** `z.enum(Object.values(RepoSize))`. */
  function ParseRepoSize(j: Json): Option<RepoSize> {
    if j == JString("SMALL") then Some(SMALL)
    else if j == JString("MEDIUM") then Some(MEDIUM)
    else if j == JString("LARGE") then Some(LARGE)
    else if j == JString("HUGE") then Some(HUGE)
    else None
  }

  /** `z.array(item)`: an array every element of which `item` accepts. */
  function ParseArray<T>(j: Option<Json>, item: Json -> Option<T>): Option<seq<T>> {
    if j.Some? && j.value.JArray? then ParseAll(j.value.items, item) else None
  }

  function ParseAll<T>(items: seq<Json>, item: Json -> Option<T>): (r: Option<seq<T>>)
    ensures r.Some? ==> |r.value| == |items|
  {
    if items == [] then Some([])
    else
      var rest := ParseAll(items[1..], item);
      if item(items[0]).Some? && rest.Some? then Some([item(items[0]).value] + rest.value) else None
  }

  /** `z.array(item).min(1)`. */
  function ParseNonEmptyArray<T>(j: Option<Json>, item: Json -> Option<T>): Option<seq<T>> {
    var r := ParseArray(j, item);
    if r.Some? && |r.value| >= 1 then r else None
  }

  /**
   * `discoverRequestSchema.safeParse(body)`: the parsed query, or `None` for a
   * validation failure. Keys the schema does not name are ignored.
   */
  function ParseDiscoverRequest(body: Json): Option<DiscoveryQuery> {
    if !body.JObject? then None
    else
      var languages := ParseNonEmptyArray(Field(body, "languages"), ParseString);
      var level := if Field(body, "experienceLevel").Some? then ParseExperienceLevel(Field(body, "experienceLevel").value) else None;
      var interests := ParseNonEmptyArray(Field(body, "interests"), ParseInterest);
      var sizes := ParseNonEmptyArray(Field(body, "repoSizes"), ParseRepoSize);
      var trending := Field(body, "trendingTopics");
      var topics := if trending.None? then Some(None) else
        var ts := ParseArray(trending, ParseString);
        if ts.Some? then Some(Some(ts.value)) else None;
      if languages.Some? && level.Some? && interests.Some? && sizes.Some? && topics.Some? then
        Some(DiscoveryQuery(languages.value, level.value, interests.value, sizes.value, topics.value))
      else None
  }

  // ---------------------------------------------------------------------------
  // The schema's rules, stated directly
  // ---------------------------------------------------------------------------

  predicate IsStringArray(j: Json) {
    j.JArray? && forall i :: 0 <= i < |j.items| ==> j.items[i].JString?
  }

  predicate IsEnumArray<T>(j: Json, item: Json -> Option<T>) {
    j.JArray? && forall i :: 0 <= i < |j.items| ==> item(j.items[i]).Some?
  }

  /**
   * The rules of `discoverRequestSchema`: an object whose `languages` is a
   * non-empty array of strings, whose `experienceLevel` is one of the three
   * levels, whose `interests` and `repoSizes` are non-empty arrays of their
   * enumerations, and whose `trendingTopics`, if present, is an array of strings.
   */
  predicate IsValidRequest(body: Json) {
    && body.JObject?
    && "languages" in body.fields && IsStringArray(body.fields["languages"])
    && |body.fields["languages"].items| >= 1
    && "experienceLevel" in body.fields && ParseExperienceLevel(body.fields["experienceLevel"]).Some?
    && "interests" in body.fields && IsEnumArray(body.fields["interests"], ParseInterest)
    && |body.fields["interests"].items| >= 1
    && "repoSizes" in body.fields && IsEnumArray(body.fields["repoSizes"], ParseRepoSize)
    && |body.fields["repoSizes"].items| >= 1
    && ("trendingTopics" in body.fields ==> IsStringArray(body.fields["trendingTopics"]))
  }

  /** An array parses exactly when every element does. */
  lemma {:induction false} ParseAllIff<T>(items: seq<Json>, item: Json -> Option<T>)
    ensures ParseAll(items, item).Some? <==> forall i :: 0 <= i < |items| ==> item(items[i]).Some?
    ensures ParseAll(items, item).Some? ==>
      forall i :: 0 <= i < |items| ==> ParseAll(items, item).value[i] == item(items[i]).value
  {
    if items != [] {
      ParseAllIff(items[1..], item);
      if forall i :: 0 <= i < |items| ==> item(items[i]).Some? {
        assert forall i :: 0 <= i < |items[1..]| ==> item(items[1..][i]).Some? by {
          forall i | 0 <= i < |items[1..]| ensures item(items[1..][i]).Some? {
            assert items[1..][i] == items[i + 1];
          }
        }
      }
      if ParseAll(items, item).Some? {
        forall i | 0 <= i < |items| ensures ParseAll(items, item).value[i] == item(items[i]).value {
          if i > 0 {
            assert items[1..][i - 1] == items[i];
          }
        }
      }
    }
  }

  lemma StringArrayIff(j: Json)
    ensures ParseArray(Some(j), ParseString).Some? <==> IsStringArray(j)
  {
    if j.JArray? {
      ParseAllIff(j.items, ParseString);
    }
  }

  lemma EnumArrayIff<T>(j: Json, item: Json -> Option<T>)
    ensures ParseArray(Some(j), item).Some? <==> IsEnumArray(j, item)
  {
    if j.JArray? {
      ParseAllIff(j.items, item);
    }
  }

  /** The validator accepts exactly the bodies that follow the schema's rules. */
  lemma ParseIffValid(body: Json)
    ensures ParseDiscoverRequest(body).Some? <==> IsValidRequest(body)
  {
    if body.JObject? {
      var f := body.fields;
      if "languages" in f { StringArrayIff(f["languages"]); }
      if "interests" in f { EnumArrayIff(f["interests"], ParseInterest); }
      if "repoSizes" in f { EnumArrayIff(f["repoSizes"], ParseRepoSize); }
      if "trendingTopics" in f { StringArrayIff(f["trendingTopics"]); }
    }
  }

  // ---------------------------------------------------------------------------
  // Round trip: what a client sends for a query
  // ---------------------------------------------------------------------------

  function StringJson(x: string): Json {
    JString(x)
  }

  function InterestJson(x: Interest): Json {
    JString(InterestName(x))
  }

  function RepoSizeJson(x: RepoSize): Json {
    JString(RepoSizeName(x))
  }

  function EncodeStrings(xs: seq<string>): Json {
    JArray(Seqs.Map(xs, StringJson))
  }

  function EncodeInterests(xs: seq<Interest>): Json {
    JArray(Seqs.Map(xs, InterestJson))
  }

  function EncodeRepoSizes(xs: seq<RepoSize>): Json {
    JArray(Seqs.Map(xs, RepoSizeJson))
  }

  /** `JSON.stringify(query)` read back as JSON: an absent `trendingTopics` is no key. */
  function EncodeQuery(q: DiscoveryQuery): Json {
    var base := map[
      "languages" := EncodeStrings(q.languages),
      "experienceLevel" := JString(ExperienceLevelName(q.experienceLevel)),
      "interests" := EncodeInterests(q.interests),
      "repoSizes" := EncodeRepoSizes(q.repoSizes)];
    JObject(if q.trendingTopics.Some? then base["trendingTopics" := EncodeStrings(q.trendingTopics.value)] else base)
  }

  lemma InterestNameParses(i: Interest)
    ensures ParseInterest(JString(InterestName(i))) == Some(i)
  {
  }

  lemma RepoSizeNameParses(s: RepoSize)
    ensures ParseRepoSize(JString(RepoSizeName(s))) == Some(s)
  {
  }

  lemma ExperienceLevelNameParses(e: ExperienceLevel)
    ensures ParseExperienceLevel(JString(ExperienceLevelName(e))) == Some(e)
  {
  }

  /** Encoding each element with `enc` and parsing it back with `item` gives the list back. */
  lemma {:induction false} ParseAllEncoded<T>(xs: seq<T>, enc: T -> Json, item: Json -> Option<T>)
    requires forall x :: item(enc(x)) == Some(x)
    ensures ParseAll(Seqs.Map(xs, enc), item) == Some(xs)
  {
    if xs != [] {
      assert Seqs.Map(xs, enc)[1..] == Seqs.Map(xs[1..], enc);
      ParseAllEncoded(xs[1..], enc, item);
      assert xs == [xs[0]] + xs[1..];
    }
  }

  lemma EncodedFields(q: DiscoveryQuery)
    ensures EncodeQuery(q).JObject?
    ensures Field(EncodeQuery(q), "languages") == Some(EncodeStrings(q.languages))
    ensures Field(EncodeQuery(q), "experienceLevel") == Some(JString(ExperienceLevelName(q.experienceLevel)))
    ensures Field(EncodeQuery(q), "interests") == Some(EncodeInterests(q.interests))
    ensures Field(EncodeQuery(q), "repoSizes") == Some(EncodeRepoSizes(q.repoSizes))
    ensures Field(EncodeQuery(q), "trendingTopics") ==
      if q.trendingTopics.Some? then Some(EncodeStrings(q.trendingTopics.value)) else None
  {
  }

  lemma StringsRoundTrip(xs: seq<string>)
    ensures ParseArray(Some(EncodeStrings(xs)), ParseString) == Some(xs)
  {
    ParseAllEncoded(xs, StringJson, ParseString);
  }

  lemma InterestsRoundTrip(xs: seq<Interest>)
    ensures ParseArray(Some(EncodeInterests(xs)), ParseInterest) == Some(xs)
  {
    forall x: Interest ensures ParseInterest(InterestJson(x)) == Some(x) {
      InterestNameParses(x);
    }
    ParseAllEncoded(xs, InterestJson, ParseInterest);
  }

  lemma RepoSizesRoundTrip(xs: seq<RepoSize>)
    ensures ParseArray(Some(EncodeRepoSizes(xs)), ParseRepoSize) == Some(xs)
  {
    forall x: RepoSize ensures ParseRepoSize(RepoSizeJson(x)) == Some(x) {
      RepoSizeNameParses(x);
    }
    ParseAllEncoded(xs, RepoSizeJson, ParseRepoSize);
  }

  /**
   * A query with at least one language, interest and repository size is
   * accepted and parsed back to itself; one with none of some of them is
   * refused.
   */
  lemma EncodeQueryRoundTrip(q: DiscoveryQuery)
    ensures ParseDiscoverRequest(EncodeQuery(q)) ==
      if |q.languages| >= 1 && |q.interests| >= 1 && |q.repoSizes| >= 1 then Some(q) else None
  {
    EncodedFields(q);
    StringsRoundTrip(q.languages);
    InterestsRoundTrip(q.interests);
    RepoSizesRoundTrip(q.repoSizes);
    ExperienceLevelNameParses(q.experienceLevel);
    if q.trendingTopics.Some? {
      StringsRoundTrip(q.trendingTopics.value);
    }
  }

  /**
   * The wizard lets the user skip interests, but the endpoint refuses a query
   * without any: a wizard query with languages and sizes is accepted exactly
   * when it has an interest.
   */
  lemma WizardQueryAcceptedIff(q: DiscoveryQuery)
    requires |q.languages| >= 1 && |q.repoSizes| >= 1
    ensures ParseDiscoverRequest(EncodeQuery(q)).Some? <==> |q.interests| >= 1
  {
    EncodeQueryRoundTrip(q);
  }

  // ---------------------------------------------------------------------------
  // POST
  // ---------------------------------------------------------------------------

  /** The body as `request.json()` leaves it: a `SyntaxError`, or a JSON value. */
  datatype RequestBody = InvalidJson | Parsed(json: Json)

  /** The kind of an error thrown while discovering. */
  datatype Thrown = SyntaxError | OtherError

  datatype ResponseBody =
    | Discovered(result: Discover.DiscoveryResult)
    | ValidationFailed
    | InvalidJsonBody
    | InternalError

  datatype Response = Response(status: nat, body: ResponseBody)

  /**
   * The response of `POST`: the discovery runs only on a valid body; any
   * `SyntaxError` that reaches the `catch` is a 400, any other error a 500.
   */
  function PostResponse(body: RequestBody, s: Discover.Services, fault: Option<Thrown>): Response {
    match body
    case InvalidJson => Response(400, InvalidJsonBody)
    case Parsed(json) =>
      match ParseDiscoverRequest(json)
      case None => Response(400, ValidationFailed)
      case Some(query) =>
        match fault
        case None => Response(200, Discovered(Discover.Discovery(query, s)))
        case Some(SyntaxError) => Response(400, InvalidJsonBody)
        case Some(OtherError) => Response(500, InternalError)
  }

  method Post(body: RequestBody, s: Discover.Services, fault: Option<Thrown>)
    returns (response: Response, discoveryCalled: bool)
    ensures response == PostResponse(body, s, fault)
    ensures discoveryCalled <==> body.Parsed? && IsValidRequest(body.json)
  {
    if body.InvalidJson? {
      return Response(400, InvalidJsonBody), false;
    }
    ParseIffValid(body.json);
    var parseResult := ParseDiscoverRequest(body.json);
    if parseResult.None? {
      return Response(400, ValidationFailed), false;
    }
    discoveryCalled := true;
    if fault.Some? {
      response := if fault.value == SyntaxError then Response(400, InvalidJsonBody) else Response(500, InternalError);
      return;
    }
    var result, _ := Discover.DiscoverRepositories(parseResult.value, s);
    response := Response(200, Discovered(result));
  }

  /**
   * 200 exactly for a valid body whose discovery succeeds; 500 exactly for a
   * valid body whose discovery throws something other than a `SyntaxError`;
   * 400 in every other case.
   */
  lemma PostStatuses(body: RequestBody, s: Discover.Services, fault: Option<Thrown>)
    ensures var valid := body.Parsed? && IsValidRequest(body.json);
      && (PostResponse(body, s, fault).status == 200 <==> valid && fault.None?)
      && (PostResponse(body, s, fault).status == 500 <==> valid && fault == Some(OtherError))
      && (PostResponse(body, s, fault).status == 400 <==> !valid || fault == Some(SyntaxError))
  {
    if body.Parsed? {
      ParseIffValid(body.json);
    }
  }

  /** A body without languages is refused, whatever else it holds. */
  lemma MissingLanguagesRefused(fields: map<string, Json>)
    requires "languages" !in fields || fields["languages"] == JArray([])
    ensures ParseDiscoverRequest(JObject(fields)).None?
  {
  }
}
