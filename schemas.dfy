/**
 * The records the pipeline passes between its stages, the review verdict
 * enumeration, the query options with their defaults and the query
 * validator. Fields that the services copy unchecked out of a model's JSON
 * keep the type `Json`.
 */
module Schemas {
  import opened Wrappers
  import opened PyText
  import opened JsonValue

  /** The three review verdicts; nothing else is a verdict. */
  datatype Verdict = CORRECT | INCORRECT | UNCERTAIN

  /** The enumeration's string value. */
  function VerdictName(v: Verdict): string {
    match v
    case CORRECT => "CORRECT"
    case INCORRECT => "INCORRECT"
    case UNCERTAIN => "UNCERTAIN"
  }

  /** `Verdict(s)`: the member whose value is `s`, if any. */
  function ParseVerdict(s: string): (r: Option<Verdict>)
    ensures r.Some? <==> s == "CORRECT" || s == "INCORRECT" || s == "UNCERTAIN"
  {
    if s == "CORRECT" then Some(CORRECT)
    else if s == "INCORRECT" then Some(INCORRECT)
    else if s == "UNCERTAIN" then Some(UNCERTAIN)
    else None
  }

  /** Names and members correspond one to one. */
  lemma VerdictRoundTrip(v: Verdict, s: string)
    ensures ParseVerdict(VerdictName(v)) == Some(v)
    ensures ParseVerdict(s) == Some(v) <==> VerdictName(v) == s
  {
  }

  /** The per-request options and their defaults. */
  datatype QueryOptions = QueryOptions(useCache: bool, timeout: int, enableParallel: bool, skipFailedModels: bool)

  const DefaultQueryOptions := QueryOptions(true, 120, true, true)

  /** The options as the dict the orchestrator and the cache receive. */
  function OptionsDict(o: QueryOptions): JsonObject {
    map[
      "use_cache" := JBool(o.useCache),
      "timeout" := JNum(o.timeout as real),
      "enable_parallel" := JBool(o.enableParallel),
      "skip_failed_models" := JBool(o.skipFailedModels)
    ]
  }

  /** `bool(options.get(name, default))` */
  predicate OptionFlag(options: JsonObject, name: string, default: bool) {
    Truthy(Get(options, name, JBool(default)))
  }

  /**
   * The orchestrator's fallbacks for a missing option agree with the
   * record's defaults, and a dict built from a record reads back its flags.
   */
  lemma OptionFlagsAgreeWithDefaults(o: QueryOptions)
    ensures OptionFlag(map[], "use_cache", true) == DefaultQueryOptions.useCache
    ensures OptionFlag(map[], "enable_parallel", true) == DefaultQueryOptions.enableParallel
    ensures OptionFlag(map[], "skip_failed_models", true) == DefaultQueryOptions.skipFailedModels
    ensures OptionFlag(OptionsDict(o), "use_cache", true) == o.useCache
    ensures OptionFlag(OptionsDict(o), "enable_parallel", true) == o.enableParallel
    ensures OptionFlag(OptionsDict(o), "skip_failed_models", true) == o.skipFailedModels
  {
  }

  const MinQueryLength := 5
  const MaxQueryLength := 1000

  /** The outcome of validating the `query` field of a request. */
  datatype QueryCheck = Accepted(query: string) | TooShort | TooLong | Blank

  /**
   * The length bounds are checked on the raw value; the validator then
   * rejects a blank value and returns the stripped one.
   */
  function ValidateQuery(v: string): (r: QueryCheck)
    ensures r.Accepted? <==> MinQueryLength <= |v| <= MaxQueryLength && !AllSpace(v)
    ensures r.TooShort? <==> |v| < MinQueryLength
    ensures r.TooLong? <==> |v| > MaxQueryLength
    ensures r.Accepted? ==> r.query != [] && Strip(r.query) == r.query && |r.query| <= |v|
    ensures r.Accepted? ==> exists a, b :: 0 <= a <= b <= |v| && r.query == v[a..b]
  {
    StripEmptyIffAllSpace(v);
    StripIdempotent(v);
    StripIsSlice(v);
    StripEnds(v);
    if |v| < MinQueryLength then TooShort
    else if |v| > MaxQueryLength then TooLong
    else if v == [] || Strip(v) == [] then Blank
    else Accepted(Strip(v))
  }

  /** A validated query of at least five characters validates to itself. */
  lemma ValidateQueryIdempotent(v: string)
    requires ValidateQuery(v).Accepted? && |ValidateQuery(v).query| >= MinQueryLength
    ensures ValidateQuery(ValidateQuery(v).query) == ValidateQuery(v)
  {
    var q := ValidateQuery(v).query;
    StripEmptyIffAllSpace(q);
  }

  /** Padding counts towards the minimum length, so an accepted query can be shorter than five characters. */
  lemma AcceptedQueryCanBeShort()
    ensures ValidateQuery("  a  ") == Accepted("a")
  {
    var v := "  a  ";
    assert Leading(v) == 2 by {
      assert v[1..] == " a  " && v[1..][1..] == "a  ";
    }
    assert LStrip(v) == "a  ";
    assert Trailing("a  ") == 2 by {
      assert "a  "[..2] == "a " && "a "[..1] == "a";
    }
    assert Strip(v) == "a";
    StripEmptyIffAllSpace(v);
  }

  /** `ReviewItem.confidence`, `consensus_score` and `FinalAnswer.confidence` lie in [0, 1]. */
  predicate InUnitRange(x: real) {
    0.0 <= x <= 1.0
  }

  /** A Stage-1 opinion; `parseError` is the `{"parse_error": True}` metadata of the raw-text fallback. */
  datatype Opinion = Opinion(modelName: string, answerText: Json, claims: Json, citations: Json, parseError: bool)

  /** A canonical claim produced by the paraphrase stage. */
  datatype Claim = Claim(claimId: string, originalModel: string, originalText: Json, canonicalText: string, wordCount: nat)

  /** One review of one claim; the id, reason and evidence flag are the model's values, unchecked. */
  datatype Review = Review(claimId: Json, verdict: Verdict, reason: Json, evidenceNeeded: Json, confidence: real)

  /** Where a reviewer's reviews came from: the named model, or the all-UNCERTAIN fallback. */
  datatype ReviewSource = ModelRun(model: string) | FallbackRun

  /** A reviewer's verdict with its `metadata` (`total_reviewed`, and `model` or `fallback`). */
  datatype ReviewerVerdict = ReviewerVerdict(reviewerName: string, reviews: seq<Review>, totalReviewed: nat, source: ReviewSource)

  /** The aggregation result; the four buckets hold canonical texts. */
  datatype Aggregation = Aggregation(
    totalClaims: nat,
    supported: seq<string>,
    rejected: seq<string>,
    disputed: seq<string>,
    uncertain: seq<string>,
    consensus: real,
    evidenceNeeded: nat)

  /** The chairman's answer; every field but the confidence is the model's value, unchecked. */
  datatype FinalAnswer = FinalAnswer(
    finalAnswer: Json,
    supportingClaims: Json,
    uncertainPoints: Json,
    rejectedClaims: Json,
    citations: Json,
    confidence: real,
    reasoningSummary: Json)

  /** A list of strings as a JSON list. */
  function StrList(ss: seq<string>): (r: Json)
    ensures r.JArr? && |r.items| == |ss|
    ensures forall i :: 0 <= i < |ss| ==> r.items[i] == JStr(ss[i])
  {
    JArr(seq(|ss|, i requires 0 <= i < |ss| => JStr(ss[i])))
  }

  /** The response metadata; `cachedAt` is added when the response is cached. */
  datatype Metadata = Metadata(
    requestId: string,
    processingTime: real,
    modelsUsed: seq<string>,
    cacheHit: bool,
    errors: seq<string>,
    warnings: seq<string>,
    stageTimings: map<string, real>,
    timestamp: string,
    cachedAt: Option<string>)

  datatype QueryResponse = QueryResponse(
    query: string,
    stage1Opinions: seq<Opinion>,
    paraphrasedClaims: seq<Claim>,
    reviewerVerdicts: seq<ReviewerVerdict>,
    aggregation: Aggregation,
    finalAnswer: FinalAnswer,
    metadata: Metadata)
}
