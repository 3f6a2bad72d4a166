/**
 * The pipeline orchestrator (backend/app/services/orchestrator.py): the
 * cache check, the five stages in a fixed order, the filtering of each
 * stage's per-model outcomes, the statistics counters, the stage-1 reply
 * parser, the fallback chairman, the models-used list and the health rule.
 * Every model call is an outcome supplied by the caller; `asyncio.gather`
 * keeps the order of its tasks, so a stage's outcomes are a sequence in
 * configuration order whether it runs in parallel or not.
 */
module Orchestrator {
  import opened Wrappers
  import opened PyText
  import opened JsonValue
  import opened Errors
  import opened Schemas
  import opened Aggregator
  import opened Paraphrase
  import opened Reviewers
  import opened Chairman
  import opened Cache

  /** The feature flags of the configuration that the orchestrator reads. */
  datatype Settings = Settings(stage1Llama: bool, stage1Hf: bool, reviewerA: bool, reviewerB: bool, chairman: bool)

  /**
   * The outcome of every model call one query makes: the two stage-1 models,
   * the paraphrase model once per stage-1 opinion (by position), the two
   * reviewers and the chairman.
   */
  datatype ModelCalls = ModelCalls(
    llama: Outcome<string>,
    hf: Outcome<string>,
    paraphrase: nat -> Outcome<string>,
    reviewerA: Outcome<string>,
    reviewerB: Outcome<string>,
    chairman: Outcome<string>)

  /** The clock readings of one run: the five stage durations, the total, the time and its ISO stamp. */
  datatype Timing = Timing(stage1: real, paraphrase: real, review: real, aggregation: real, chairman: real,
                           total: real, now: real, stamp: string)

  /** Everything a run takes from outside: model calls, parsers, clock and the cache store's failures. */
  datatype Env = Env(calls: ModelCalls, rt: Runtime, timing: Timing, cacheReadFails: bool, cacheWriteFails: bool)

  const LlamaName := "Llama-7B"
  const HfName := "GPT-OSS-20B"
  const Stage1AnswerLimit := 500

  // ---------------------------------------------------------------------
  // _parse_stage1_response
  // ---------------------------------------------------------------------

  /**
   * `_parse_stage1_response`: the fields of the brace slice of the stripped
   * reply, or, when there is no slice or it does not load, the first 500
   * characters of the stripped reply as the answer.
   */
  function ParseStage1Response(response: string, modelName: string, rt: Runtime): (o: Opinion)
    ensures o.modelName == modelName
    ensures o.parseError <==> ParseResponse(response, rt).None?
  {
    match ParseResponse(response, rt)
    case Some(parsed) =>
      Opinion(modelName, Get(parsed, "answer_text", JStr("")), Get(parsed, "claims", JArr([])),
              Get(parsed, "citations", JArr([])), false)
    case None =>
      Opinion(modelName, JStr(Take(Strip(response), Stage1AnswerLimit)), JArr([]), JArr([]), true)
  }

  /**
   * The raw-text fallback keeps the start of the stripped reply, up to 500
   * characters, with no claims or citations; a parsed reply contributes its
   * own fields, with "" and [] for missing ones.
   */
  lemma Stage1ParseShape(response: string, modelName: string, rt: Runtime)
    ensures var o := ParseStage1Response(response, modelName, rt);
      o.parseError ==> (o.answerText.JStr? && o.answerText.s <= Strip(response)
        && |o.answerText.s| == (if |Strip(response)| < Stage1AnswerLimit then |Strip(response)| else Stage1AnswerLimit)
        && o.claims == JArr([]) && o.citations == JArr([]))
    ensures var o := ParseStage1Response(response, modelName, rt);
      !o.parseError ==> var parsed := ParseResponse(response, rt).value;
        ("answer_text" in parsed ==> o.answerText == parsed["answer_text"])
        && ("answer_text" !in parsed ==> o.answerText == JStr(""))
        && ("claims" in parsed ==> o.claims == parsed["claims"])
        && ("claims" !in parsed ==> o.claims == JArr([]))
        && ("citations" in parsed ==> o.citations == parsed["citations"])
        && ("citations" !in parsed ==> o.citations == JArr([]))
    ensures !OpenBeforeClose(Strip(response)) ==> ParseStage1Response(response, modelName, rt).parseError
  {
  }

  // ---------------------------------------------------------------------
  // Filtering a stage's outcomes
  // ---------------------------------------------------------------------

  /**
   * The results a stage keeps, left to right: a success is kept; a failure
   * is dropped when `skip` holds and raised otherwise. (A stage result is a
   * non-empty dict, so the truthiness test never drops a success.)
   */
  function Filtered<T>(results: seq<Outcome<T>>, skip: bool): Outcome<seq<T>> {
    if results == [] then Success([])
    else
      match Filtered(results[..|results| - 1], skip)
      case Failure(e) => Failure(e)
      case Success(kept) =>
        match results[|results| - 1]
        case Success(x) => Success(kept + [x])
        case Failure(e) => if skip then Success(kept) else Failure(e)
  }

  /** The values of the successes, in order. */
  function Successes<T>(results: seq<Outcome<T>>): (r: seq<T>)
    ensures |r| <= |results|
  {
    if results == [] then []
    else
      var rest := Successes(results[..|results| - 1]);
      match results[|results| - 1]
      case Success(x) => rest + [x]
      case Failure(_) => rest
  }

  /** The processing loop of `_run_stage1` and `_run_review`. */
  method FilterResults<T>(results: seq<Outcome<T>>, skip: bool) returns (r: Outcome<seq<T>>)
    ensures r == Filtered(results, skip)
  {
    var kept: seq<T> := [];
    var i := 0;
    while i < |results|
      invariant 0 <= i <= |results|
      invariant Filtered(results[..i], skip) == Success(kept)
    {
      assert results[..i + 1][..i] == results[..i];
      if results[i].Failure? {
        if !skip {
          FailureIsFinal(results, i + 1, skip);
          return Failure(results[i].error);
        }
      } else {
        kept := kept + [results[i].value];
      }
      i := i + 1;
    }
    assert results[..i] == results;
    r := Success(kept);
  }

  /** Once a prefix has raised, the whole sequence raises the same error. */
  lemma {:induction false} FailureIsFinal<T>(results: seq<Outcome<T>>, n: nat, skip: bool)
    requires n <= |results| && Filtered(results[..n], skip).Failure?
    ensures Filtered(results, skip) == Filtered(results[..n], skip)
    decreases |results| - n
  {
    if n < |results| {
      assert results[..n + 1][..n] == results[..n];
      FailureIsFinal(results, n + 1, skip);
    } else {
      assert results[..n] == results;
    }
  }

  /** With `skip_failed_models`, a stage keeps exactly its successes, in order, and never raises. */
  lemma {:induction false} SkippingKeepsSuccesses<T>(results: seq<Outcome<T>>)
    ensures Filtered(results, true) == Success(Successes(results))
  {
    if results != [] {
      SkippingKeepsSuccesses(results[..|results| - 1]);
    }
  }

  /**
   * Without `skip_failed_models`, a stage raises exactly when one of its
   * results is a failure, and then the first failure's error; otherwise it
   * keeps every result.
   */
  lemma {:induction false} StrictRaisesFirstFailure<T>(results: seq<Outcome<T>>)
    ensures Filtered(results, false).Failure? <==> exists i :: 0 <= i < |results| && results[i].Failure?
    ensures Filtered(results, false).Failure? ==>
      exists i :: 0 <= i < |results| && results[i] == Failure(Filtered(results, false).error)
        && forall j :: 0 <= j < i ==> results[j].Success?
    ensures Filtered(results, false).Success? ==> |Filtered(results, false).value| == |results|
  {
    if results != [] {
      var n := |results| - 1;
      var prefix := results[..n];
      StrictRaisesFirstFailure(prefix);
      if Filtered(prefix, false).Failure? {
        var i :| 0 <= i < n && prefix[i] == Failure(Filtered(prefix, false).error)
          && forall j :: 0 <= j < i ==> prefix[j].Success?;
        assert results[i] == prefix[i];
        forall j | 0 <= j < i ensures results[j].Success? {
          assert results[j] == prefix[j];
        }
      } else {
        forall j | 0 <= j < n ensures results[j].Success? {
          assert prefix[j] == results[j];
        }
      }
    }
  }

  // ---------------------------------------------------------------------
  // The stages
  // ---------------------------------------------------------------------

  /** `bool(options.get("skip_failed_models", True))` */
  predicate SkipFailed(opts: JsonObject) {
    OptionFlag(opts, "skip_failed_models", true)
  }

  /** A stage-1 task: the model call, then the reply parser, which does not raise. */
  function Stage1Task(call: Outcome<string>, modelName: string, rt: Runtime): (r: Outcome<Opinion>)
    ensures r.Failure? <==> call.Failure?
    ensures r.Failure? ==> r.error == call.error
    ensures r.Success? ==> r.value.modelName == modelName
  {
    match call
    case Failure(e) => Failure(e)
    case Success(text) => Success(ParseStage1Response(text, modelName, rt))
  }

  /** The stage-1 outcomes of the enabled models, Llama first. */
  function Stage1Results(s: Settings, calls: ModelCalls, rt: Runtime): (r: seq<Outcome<Opinion>>)
    ensures |r| == (if s.stage1Llama then 1 else 0) + (if s.stage1Hf then 1 else 0)
  {
    (if s.stage1Llama then [Stage1Task(calls.llama, LlamaName, rt)] else [])
    + (if s.stage1Hf then [Stage1Task(calls.hf, HfName, rt)] else [])
  }

  function AllStage1Failed(): Exc {
    Exc(PipelineError, "All Stage-1 models failed")
  }

  function AllReviewersFailed(): Exc {
    Exc(PipelineError, "All reviewers failed")
  }

  /** A stage's kept results, or the stage's error when it keeps none. */
  function NonEmpty<T>(r: Outcome<seq<T>>, none: Exc): (o: Outcome<seq<T>>)
    ensures o.Success? ==> o.value != []
  {
    match r
    case Failure(e) => Failure(e)
    case Success(kept) => if kept == [] then Failure(none) else Success(kept)
  }

  /** What `_run_stage1` returns or raises. */
  function Stage1Spec(s: Settings, opts: JsonObject, calls: ModelCalls, rt: Runtime): Outcome<seq<Opinion>> {
    NonEmpty(Filtered(Stage1Results(s, calls, rt), SkipFailed(opts)), AllStage1Failed())
  }

  /** `_run_stage1` */
  method RunStage1(s: Settings, opts: JsonObject, calls: ModelCalls, rt: Runtime) returns (r: Outcome<seq<Opinion>>)
    ensures r == Stage1Spec(s, opts, calls, rt)
  {
    var results := Stage1Results(s, calls, rt);
    var kept := FilterResults(results, SkipFailed(opts));
    if kept.Failure? {
      return Failure(kept.error);
    }
    if kept.value == [] {
      return Failure(AllStage1Failed());
    }
    r := kept;
  }

  /**
   * With skipping on, stage 1 raises only when every enabled model's call
   * failed (or none is enabled); its opinions come from the models in
   * configuration order.
   */
  lemma Stage1FailsOnlyWhenAllFail(s: Settings, opts: JsonObject, calls: ModelCalls, rt: Runtime)
    requires SkipFailed(opts)
    ensures var results := Stage1Results(s, calls, rt);
      Stage1Spec(s, opts, calls, rt).Failure? <==> forall i :: 0 <= i < |results| ==> results[i].Failure?
    ensures Stage1Spec(s, opts, calls, rt).Failure? ==> Stage1Spec(s, opts, calls, rt).error == AllStage1Failed()
    ensures Stage1Spec(s, opts, calls, rt).Success? ==>
      Stage1Spec(s, opts, calls, rt).value == Successes(Stage1Results(s, calls, rt))
  {
    var results := Stage1Results(s, calls, rt);
    SkippingKeepsSuccesses(results);
    SuccessesEmpty(results);
  }

  /** No successes means every result failed. */
  lemma {:induction false} SuccessesEmpty<T>(results: seq<Outcome<T>>)
    ensures Successes(results) == [] <==> forall i :: 0 <= i < |results| ==> results[i].Failure?
  {
    if results != [] {
      var n := |results| - 1;
      SuccessesEmpty(results[..n]);
      assert forall i :: 0 <= i < n ==> results[..n][i] == results[i];
    }
  }

  /** The claims the paraphrase stage keeps from the first `n` opinions. */
  function ParaphraseSpec(opinions: seq<Opinion>, calls: ModelCalls, rt: Runtime): seq<Claim> {
    if opinions == [] then []
    else
      var n := |opinions| - 1;
      ParaphraseSpec(opinions[..n], calls, rt)
      + match ExtractSpec(opinions[n].modelName, opinions[n].answerText, calls.paraphrase(n), rt)
        case Success(claims) => claims
        case Failure(_) => []
  }

  /** `_run_paraphrase`: an extraction that raises contributes nothing. */
  method RunParaphrase(opinions: seq<Opinion>, calls: ModelCalls, rt: Runtime) returns (all: seq<Claim>)
    ensures all == ParaphraseSpec(opinions, calls, rt)
  {
    all := [];
    var i := 0;
    while i < |opinions|
      invariant 0 <= i <= |opinions|
      invariant all == ParaphraseSpec(opinions[..i], calls, rt)
    {
      assert opinions[..i + 1][..i] == opinions[..i];
      var claims := ExtractClaims(opinions[i].modelName, opinions[i].answerText, calls.paraphrase(i), rt);
      if claims.Success? {
        all := all + claims.value;
      }
      i := i + 1;
    }
    assert opinions[..i] == opinions;
  }

  /** Every paraphrased claim names the opinion it came from and counts its own words. */
  lemma {:induction false} ParaphrasedClaimsTraceBack(opinions: seq<Opinion>, calls: ModelCalls, rt: Runtime)
    ensures forall c :: c in ParaphraseSpec(opinions, calls, rt) ==>
      exists i :: 0 <= i < |opinions| && c.originalModel == opinions[i].modelName && c.originalText == opinions[i].answerText
    ensures forall c :: c in ParaphraseSpec(opinions, calls, rt) ==> c.wordCount == WordCount(c.canonicalText)
  {
    if opinions != [] {
      var n := |opinions| - 1;
      var o := opinions[n];
      ParaphrasedClaimsTraceBack(opinions[..n], calls, rt);
      ExtractClaimsShape(o.modelName, o.answerText, calls.paraphrase(n), rt);
      forall c | c in ParaphraseSpec(opinions, calls, rt)
        ensures exists i :: 0 <= i < |opinions| && c.originalModel == opinions[i].modelName && c.originalText == opinions[i].answerText
      {
        if c in ParaphraseSpec(opinions[..n], calls, rt) {
          var i :| 0 <= i < n && c.originalModel == opinions[..n][i].modelName && c.originalText == opinions[..n][i].answerText;
          assert opinions[..n][i] == opinions[i];
        }
      }
    }
  }

  /** The reviewer outcomes of the enabled reviewers, A first; `review_claims` does not raise. */
  function ReviewResults(s: Settings, claims: seq<Claim>, calls: ModelCalls, rt: Runtime): (r: seq<Outcome<ReviewerVerdict>>)
    ensures |r| == (if s.reviewerA then 1 else 0) + (if s.reviewerB then 1 else 0)
  {
    (if s.reviewerA then [Success(ReviewClaimsSpec("Reviewer_A", claims, calls.reviewerA, rt))] else [])
    + (if s.reviewerB then [Success(ReviewClaimsSpec("Reviewer_B", claims, calls.reviewerB, rt))] else [])
  }

  /** What `_run_review` returns or raises. */
  function ReviewSpec(s: Settings, opts: JsonObject, claims: seq<Claim>, calls: ModelCalls, rt: Runtime): Outcome<seq<ReviewerVerdict>> {
    NonEmpty(Filtered(ReviewResults(s, claims, calls, rt), SkipFailed(opts)), AllReviewersFailed())
  }

  /** `_run_review` */
  method RunReview(s: Settings, opts: JsonObject, claims: seq<Claim>, calls: ModelCalls, rt: Runtime)
    returns (r: Outcome<seq<ReviewerVerdict>>)
    ensures r == ReviewSpec(s, opts, claims, calls, rt)
  {
    var results: seq<Outcome<ReviewerVerdict>> := [];
    if s.reviewerA {
      var v := ReviewClaims("Reviewer_A", claims, calls.reviewerA, rt);
      results := results + [Success(v)];
    }
    if s.reviewerB {
      var v := ReviewClaims("Reviewer_B", claims, calls.reviewerB, rt);
      results := results + [Success(v)];
    }
    var kept := FilterResults(results, SkipFailed(opts));
    if kept.Failure? {
      return Failure(kept.error);
    }
    if kept.value == [] {
      return Failure(AllReviewersFailed());
    }
    r := kept;
  }

  /**
   * Reviewers never fail, so the review stage raises exactly when both
   * reviewers are disabled, and otherwise returns one verdict per enabled
   * reviewer.
   */
  lemma ReviewFailsIffNoReviewer(s: Settings, opts: JsonObject, claims: seq<Claim>, calls: ModelCalls, rt: Runtime)
    ensures ReviewSpec(s, opts, claims, calls, rt).Failure? <==> !s.reviewerA && !s.reviewerB
    ensures ReviewSpec(s, opts, claims, calls, rt).Failure? ==> ReviewSpec(s, opts, claims, calls, rt).error == AllReviewersFailed()
    ensures ReviewSpec(s, opts, claims, calls, rt).Success? ==>
      |ReviewSpec(s, opts, claims, calls, rt).value| == |ReviewResults(s, claims, calls, rt)|
  {
    var results := ReviewResults(s, claims, calls, rt);
    assert forall i :: 0 <= i < |results| ==> results[i].Success?;
    NoFailureKeepsAll(results, SkipFailed(opts));
  }

  /** Results without a failure are kept whole, with or without `skip_failed_models`. */
  lemma NoFailureKeepsAll<T>(results: seq<Outcome<T>>, skip: bool)
    requires forall i :: 0 <= i < |results| ==> results[i].Success?
    ensures Filtered(results, skip) == Success(Successes(results)) && |Successes(results)| == |results|
  {
    SkippingKeepsSuccesses(results);
    StrictRaisesFirstFailure(results);
    AllSuccesses(results);
    if !skip {
      assert Filtered(results, false).Success?;
      assert |Filtered(results, false).value| == |Successes(results)|;
    }
  }

  /** Without failures, the successes are all the results. */
  lemma {:induction false} AllSuccesses<T>(results: seq<Outcome<T>>)
    requires forall i :: 0 <= i < |results| ==> results[i].Success?
    ensures |Successes(results)| == |results|
  {
    if results != [] {
      var n := |results| - 1;
      assert forall i :: 0 <= i < n ==> results[..n][i] == results[i];
      AllSuccesses(results[..n]);
    }
  }

  /** `_fallback_chairman`, used when the chairman is disabled. */
  function FallbackChairman(a: Aggregation): (r: FinalAnswer)
    ensures r.finalAnswer.JStr?
    ensures a.supported != [] ==> a.supported[0] <= r.finalAnswer.s
    ensures Len(r.supportingClaims) <= 5 && Len(r.uncertainPoints) <= 3 && Len(r.rejectedClaims) <= 3
    ensures r.citations == JArr([]) && r.confidence == 0.5
  {
    var answer := if a.supported != [] then Join(Take(a.supported, 3), " ") else "Unable to synthesize answer.";
    assert a.supported != [] ==> a.supported[0] <= answer by {
      if a.supported != [] {
        JoinStartsWithFirst(Take(a.supported, 3), " ");
      }
    }
    FinalAnswer(
      JStr(answer),
      StrList(Take(a.supported, 5)), StrList(Take(a.uncertain, 3)), StrList(Take(a.rejected, 3)),
      JArr([]), 0.5, JStr("Fallback synthesis (Chairman unavailable)"))
  }

  /**
   * The orchestrator's fallback differs from the chairman service's own
   * fallback only in the answer's prefix and in the reasoning sentence.
   */
  lemma FallbacksAgreeOnLists(a: Aggregation)
    ensures FallbackChairman(a).(finalAnswer := JNull, reasoningSummary := JNull)
      == FallbackSynthesis(a).(finalAnswer := JNull, reasoningSummary := JNull)
    ensures a.supported != [] ==> FallbackSynthesis(a).finalAnswer.s == FallbackAnswerPrefix + FallbackChairman(a).finalAnswer.s
  {
  }

  /** `_run_chairman` */
  function ChairmanSpec(s: Settings, a: Aggregation, calls: ModelCalls, rt: Runtime): FinalAnswer {
    if s.chairman then SynthesizeSpec(a, calls.chairman, rt) else FallbackChairman(a)
  }

  /** `_get_models_used` */
  function ModelsUsed(s: Settings): (r: seq<string>)
    ensures "GPT-J-6B" in r
    ensures LlamaName in r <==> s.stage1Llama
    ensures HfName in r <==> s.stage1Hf
    ensures "Mistral-7B" in r <==> s.reviewerA
    ensures "DeepSeek-7B" in r <==> s.reviewerB
    ensures "Gemini-1.5-Pro" in r <==> s.chairman
  {
    (if s.stage1Llama then [LlamaName] else [])
    + (if s.stage1Hf then [HfName] else [])
    + ["GPT-J-6B"]
    + (if s.reviewerA then ["Mistral-7B"] else [])
    + (if s.reviewerB then ["DeepSeek-7B"] else [])
    + (if s.chairman then ["Gemini-1.5-Pro"] else [])
  }

  /** The stage outputs of a run that got past the cache. */
  datatype Stages = Stages(opinions: seq<Opinion>, claims: seq<Claim>, verdicts: seq<ReviewerVerdict>,
                           aggregation: Aggregation, answer: FinalAnswer)

  /** The five stages in order; the first one that raises ends the run. */
  function StagesSpec(s: Settings, opts: JsonObject, calls: ModelCalls, rt: Runtime): Outcome<Stages> {
    match Stage1Spec(s, opts, calls, rt)
    case Failure(e) => Failure(e)
    case Success(opinions) =>
      var claims := ParaphraseSpec(opinions, calls, rt);
      match ReviewSpec(s, opts, claims, calls, rt)
      case Failure(e) => Failure(e)
      case Success(verdicts) =>
        match AggregateSpec(claims, verdicts)
        case Failure(e) => Failure(e)
        case Success(a) => Success(Stages(opinions, claims, verdicts, a, ChairmanSpec(s, a, calls, rt)))
  }

  /** The stages of `run_pipeline`. */
  method RunStages(s: Settings, opts: JsonObject, calls: ModelCalls, rt: Runtime) returns (r: Outcome<Stages>)
    ensures r == StagesSpec(s, opts, calls, rt)
  {
    var opinions := RunStage1(s, opts, calls, rt);
    if opinions.Failure? {
      return Failure(opinions.error);
    }
    var claims := RunParaphrase(opinions.value, calls, rt);
    var verdicts := RunReview(s, opts, claims, calls, rt);
    if verdicts.Failure? {
      return Failure(verdicts.error);
    }
    var aggregation := Aggregate(claims, verdicts.value);
    if aggregation.Failure? {
      return Failure(aggregation.error);
    }
    var answer: FinalAnswer;
    if s.chairman {
      answer := Synthesize(aggregation.value, calls.chairman, rt);
    } else {
      answer := FallbackChairman(aggregation.value);
    }
    r := Success(Stages(opinions.value, claims, verdicts.value, aggregation.value, answer));
  }

  /** The names of the stage timings. */
  const StageNames: set<string> := {"stage1", "paraphrase", "review", "aggregation", "chairman"}

  function StageTimings(t: Timing): (m: map<string, real>)
    ensures m.Keys == StageNames
  {
    map["stage1" := t.stage1, "paraphrase" := t.paraphrase, "review" := t.review,
        "aggregation" := t.aggregation, "chairman" := t.chairman]
  }

  /** The response of a run that completed its stages (before the cache stamps it). */
  function BuildResponse(s: Settings, query: string, requestId: string, st: Stages, t: Timing): (r: QueryResponse)
    ensures !r.metadata.cacheHit && r.metadata.errors == [] && r.metadata.warnings == []
    ensures r.metadata.stageTimings.Keys == StageNames && r.metadata.cachedAt.None?
    ensures r.query == query && r.metadata.requestId == requestId
  {
    QueryResponse(query, st.opinions, st.claims, st.verdicts, st.aggregation, st.answer,
      Metadata(requestId, t.total, ModelsUsed(s), false, [], [], StageTimings(t), t.stamp, None))
  }

  /** The error `run_pipeline` raises for any failure inside it. */
  function Wrapped(e: Exc): (r: Exc)
    ensures r.kind == PipelineError
  {
    Exc(PipelineError, "Pipeline execution failed: " + e.message)
  }

  /**
   * What a run that did not hit the cache returns: the stages' failure
   * wrapped as a PipelineError, or the response, stamped by the cache's
   * `set` when `use_cache` holds and the cache is enabled.
   */
  function RunResult(s: Settings, query: string, opts: JsonObject, requestId: string, env: Env, cacheEnabled: bool): Outcome<QueryResponse> {
    ResultOf(StagesSpec(s, opts, env.calls, env.rt), s, query, opts, requestId, env, cacheEnabled)
  }

  /** The run's result once the stages have produced `stages`. */
  function ResultOf(stages: Outcome<Stages>, s: Settings, query: string, opts: JsonObject, requestId: string, env: Env, cacheEnabled: bool): Outcome<QueryResponse> {
    match stages
    case Failure(e) => Failure(Wrapped(e))
    case Success(st) =>
      var response := BuildResponse(s, query, requestId, st, env.timing);
      Success(if OptionFlag(opts, "use_cache", true) && cacheEnabled then Stamped(response, env.timing.stamp) else response)
  }

  /** Whether a successful run writes its response to the cache. */
  predicate Writes(opts: JsonObject, env: Env, cacheEnabled: bool) {
    OptionFlag(opts, "use_cache", true) && cacheEnabled && !env.cacheWriteFails
  }

  /**
   * The cache's store after a run that produced `r`, from the store before
   * it: the response is written under the query's key, to expire `ttl`
   * seconds from now, exactly when the run succeeded and `Writes` holds.
   */
  predicate Updated(before: map<CacheKey, Cache.Entry>, after: map<CacheKey, Cache.Entry>, query: string, opts: JsonObject,
                    r: Outcome<QueryResponse>, env: Env, cacheEnabled: bool, ttl: int) {
    if r.Success? && Writes(opts, env, cacheEnabled)
    then after == before[GenerateKey(query, Some(opts)) := Cache.Entry(r.value, env.timing.now + ttl as real)]
    else after == before
  }

  /**
   * A run that does not hit the cache fails exactly when a stage raises, and
   * then with a PipelineError (which `handle_pipeline_error` answers with
   * 500); a successful run reports no cache hit, no errors or warnings and
   * the five stage timings, and carries `cached_at` exactly when the cache
   * wrote into it.
   */
  lemma RunResultShape(s: Settings, query: string, opts: JsonObject, requestId: string, env: Env, cacheEnabled: bool)
    ensures var r := RunResult(s, query, opts, requestId, env, cacheEnabled);
      r.Failure? <==> StagesSpec(s, opts, env.calls, env.rt).Failure?
    ensures var r := RunResult(s, query, opts, requestId, env, cacheEnabled);
      r.Failure? ==> r.error.kind == PipelineError && HandlePipelineError(r.error, requestId, env.timing.total).statusCode == 500
    ensures var r := RunResult(s, query, opts, requestId, env, cacheEnabled);
      r.Success? ==> (!r.value.metadata.cacheHit && r.value.metadata.errors == [] && r.value.metadata.warnings == []
        && r.value.metadata.stageTimings.Keys == StageNames && r.value.query == query
        && (r.value.metadata.cachedAt.Some? <==> OptionFlag(opts, "use_cache", true) && cacheEnabled))
  {
  }

  /** The part of `run_pipeline` after the cache check: the stages, the response and the cache write. */
  method Serve(s: Settings, cache: ResponseCache, query: string, opts: JsonObject, requestId: string, env: Env)
    returns (r: Outcome<QueryResponse>)
    modifies cache
    ensures cache.enabled == old(cache.enabled) && cache.ttl == old(cache.ttl) && cache.directory == old(cache.directory)
    ensures r == RunResult(s, query, opts, requestId, env, cache.enabled)
    ensures Updated(old(cache.store), cache.store, query, opts, r, env, cache.enabled, cache.ttl)
  {
    var stages := RunStages(s, opts, env.calls, env.rt);
    r := Respond(s, cache, query, opts, requestId, env, stages);
  }

  /** The response to stages that produced `stages`, written to the cache when `use_cache` holds. */
  method Respond(s: Settings, cache: ResponseCache, query: string, opts: JsonObject, requestId: string, env: Env,
                 stages: Outcome<Stages>)
    returns (r: Outcome<QueryResponse>)
    modifies cache
    ensures cache.enabled == old(cache.enabled) && cache.ttl == old(cache.ttl) && cache.directory == old(cache.directory)
    ensures r == ResultOf(stages, s, query, opts, requestId, env, cache.enabled)
    ensures Updated(old(cache.store), cache.store, query, opts, r, env, cache.enabled, cache.ttl)
  {
    if stages.Failure? {
      return Failure(Wrapped(stages.error));
    }
    var response := BuildResponse(s, query, requestId, stages.value, env.timing);
    if OptionFlag(opts, "use_cache", true) {
      response := cache.Set(query, response, Some(opts), env.timing.now, env.timing.stamp, env.cacheWriteFails);
    }
    r := Success(response);
  }

  /**
   * The `options` argument of `run_pipeline`: a decoded JSON value (`None`
   * is `JNull`), or a `QueryOptions` record, which is what the HTTP layer
   * passes.
   */
  datatype OptionsArg = JsonOptions(given: Json) | RecordOptions(record: QueryOptions)

  /** The `AttributeError` of calling `get` on a value of type `typeName`. */
  function NoGetError(typeName: string): Exc {
    Exc(OtherError("AttributeError"), "'" + typeName + "' object has no attribute 'get'")
  }

  /**
   * `options = options or {}` followed by the first `options.get(...)`: the
   * dict the run reads its flags from, or the AttributeError that `get`
   * raises on a truthy value that is not a dict. A pydantic record is truthy
   * and has no `get`.
   */
  function OptionsOrEmpty(options: OptionsArg): (r: Outcome<JsonObject>)
    ensures r.Failure? <==> options.RecordOptions? || (Truthy(options.given) && !options.given.JObj?)
    ensures r.Success? && options.given.JObj? ==> r.value == options.given.fields
    ensures r.Success? && !options.given.JObj? ==> r.value == map[]
    ensures r.Failure? ==> r.error.kind == OtherError("AttributeError")
  {
    match options
    case RecordOptions(_) => Failure(NoGetError("QueryOptions"))
    case JsonOptions(j) =>
      if !Truthy(j) then Success(map[])
      else if j.JObj? then Success(j.fields)
      else Failure(NoGetError(JsonTypeName(j)))
  }

  /** The options can be read with `get`. */
  predicate Readable(options: OptionsArg) {
    OptionsOrEmpty(options).Success?
  }

  /** The dict of readable options. */
  function Opts(options: OptionsArg): JsonObject {
    match OptionsOrEmpty(options)
    case Success(m) => m
    case Failure(_) => map[]
  }

  /**
   * A record passed as the options, as the HTTP layer does, can never be
   * read: the run fails with a PipelineError, which is answered with 500.
   */
  lemma RecordOptionsRejected(record: QueryOptions, requestId: string, t: real)
    ensures !Readable(RecordOptions(record))
    ensures HandlePipelineError(Wrapped(OptionsOrEmpty(RecordOptions(record)).error), requestId, t).statusCode == 500
  {
  }

  /** `PipelineOrchestrator` */
  class PipelineOrchestrator {
    const settings: Settings
    const cache: ResponseCache
    var totalQueries: nat
    var successfulQueries: nat
    var failedQueries: nat
    var cacheHits: nat
    var totalProcessingTime: real

    /** Every query is counted once, as a cache hit, a success or a failure. */
    predicate Valid()
      reads this
    {
      totalQueries == cacheHits + successfulQueries + failedQueries
    }

    constructor (settings: Settings, cache: ResponseCache)
      ensures this.settings == settings && this.cache == cache
      ensures totalQueries == 0 && successfulQueries == 0 && failedQueries == 0 && cacheHits == 0
      ensures totalProcessingTime == 0.0
      ensures Valid()
    {
      this.settings := settings;
      this.cache := cache;
      totalQueries := 0;
      successfulQueries := 0;
      failedQueries := 0;
      cacheHits := 0;
      totalProcessingTime := 0.0;
    }

    /** The cached response a run returns, if the cache is consulted and has one. */
    function CacheHit(query: string, opts: JsonObject, env: Env): Option<QueryResponse>
      reads this, cache
    {
      if OptionFlag(opts, "use_cache", true) then cache.Lookup(query, Some(opts), env.timing.now, env.cacheReadFails) else None
    }

    /**
     * `run_pipeline`. Options that have no `get` make the run fail before the
     * cache is consulted, and the failure is counted. A cache hit is returned
     * as stored and counted as a hit. Otherwise the run's result is
     * `RunResult`: a failure is counted, a success is counted with its
     * processing time and, when `use_cache` holds, written to the cache.
     */
    method RunPipeline(query: string, options: OptionsArg, requestId: string, env: Env)
      returns (r: Outcome<QueryResponse>)
      requires Valid()
      modifies this, cache
      ensures Valid() && totalQueries == old(totalQueries) + 1
      ensures cache.enabled == old(cache.enabled) && cache.ttl == old(cache.ttl) && cache.directory == old(cache.directory)
      ensures !Readable(options) ==>
        r == Failure(Wrapped(OptionsOrEmpty(options).error)) && failedQueries == old(failedQueries) + 1
        && successfulQueries == old(successfulQueries) && cacheHits == old(cacheHits)
        && totalProcessingTime == old(totalProcessingTime) && cache.store == old(cache.store)
      ensures Readable(options) && old(CacheHit(query, Opts(options), env)).Some? ==>
        r == Success(old(CacheHit(query, Opts(options), env)).value) && cacheHits == old(cacheHits) + 1
        && successfulQueries == old(successfulQueries) && failedQueries == old(failedQueries)
        && totalProcessingTime == old(totalProcessingTime) && cache.store == old(cache.store)
      ensures Readable(options) && old(CacheHit(query, Opts(options), env)).None? ==>
        r == RunResult(settings, query, Opts(options), requestId, env, cache.enabled) && cacheHits == old(cacheHits)
      ensures Readable(options) && old(CacheHit(query, Opts(options), env)).None? && r.Failure? ==>
        failedQueries == old(failedQueries) + 1 && successfulQueries == old(successfulQueries)
        && totalProcessingTime == old(totalProcessingTime)
      ensures Readable(options) && old(CacheHit(query, Opts(options), env)).None? && r.Success? ==>
        successfulQueries == old(successfulQueries) + 1 && failedQueries == old(failedQueries)
        && totalProcessingTime == old(totalProcessingTime) + env.timing.total
      ensures Readable(options) && old(CacheHit(query, Opts(options), env)).None? ==>
        Updated(old(cache.store), cache.store, query, Opts(options), r, env, cache.enabled, cache.ttl)
    {
      totalQueries := totalQueries + 1;
      var read := OptionsOrEmpty(options);
      if read.Failure? {
        failedQueries := failedQueries + 1;
        return Failure(Wrapped(read.error));
      }
      var opts := read.value;
      var useCache := OptionFlag(opts, "use_cache", true);
      if useCache {
        var cached := cache.Get(query, Some(opts), env.timing.now, env.cacheReadFails);
        if cached.Some? {
          cacheHits := cacheHits + 1;
          return Success(cached.value);
        }
      }
      r := Miss(query, opts, requestId, env);
    }

    /** The rest of `run_pipeline` once the cache has not answered: serve the query and count the outcome. */
    method Miss(query: string, opts: JsonObject, requestId: string, env: Env) returns (r: Outcome<QueryResponse>)
      modifies this, cache
      ensures cacheHits == old(cacheHits) && totalQueries == old(totalQueries)
      ensures cache.enabled == old(cache.enabled) && cache.ttl == old(cache.ttl) && cache.directory == old(cache.directory)
      ensures r == RunResult(settings, query, opts, requestId, env, cache.enabled)
      ensures r.Failure? ==>
        failedQueries == old(failedQueries) + 1 && successfulQueries == old(successfulQueries)
        && totalProcessingTime == old(totalProcessingTime)
      ensures r.Success? ==>
        successfulQueries == old(successfulQueries) + 1 && failedQueries == old(failedQueries)
        && totalProcessingTime == old(totalProcessingTime) + env.timing.total
      ensures Updated(old(cache.store), cache.store, query, opts, r, env, cache.enabled, cache.ttl)
    {
      r := Serve(settings, cache, query, opts, requestId, env);
      Record(r, env.timing.total);
    }

    /** Counts a run that did not hit the cache: a failure, or a success taking `elapsed` seconds. */
    method Record(r: Outcome<QueryResponse>, elapsed: real)
      modifies this
      ensures cacheHits == old(cacheHits) && totalQueries == old(totalQueries)
      ensures r.Failure? ==>
        failedQueries == old(failedQueries) + 1 && successfulQueries == old(successfulQueries)
        && totalProcessingTime == old(totalProcessingTime)
      ensures r.Success? ==>
        successfulQueries == old(successfulQueries) + 1 && failedQueries == old(failedQueries)
        && totalProcessingTime == old(totalProcessingTime) + elapsed
    {
      if r.Failure? {
        failedQueries := failedQueries + 1;
      } else {
        successfulQueries := successfulQueries + 1;
        totalProcessingTime := totalProcessingTime + elapsed;
      }
    }

    /**
     * `get_statistics`, without the rounding of the average. The cache
     * statistics are this orchestrator's own cache's, or `None` (the `{}` of
     * `get_stats`) when its store cannot be read.
     */
    function Statistics(cacheReadFails: bool): (r: PipelineStats)
      reads this, cache
      ensures r.totalQueries == r.successfulQueries + r.failedQueries + r.cacheHits <== Valid()
      ensures r.successfulQueries > 0 ==> r.averageTime * r.successfulQueries as real == totalProcessingTime
      ensures r.successfulQueries == 0 ==> r.averageTime == 0.0
      ensures r.cacheStats.None? <==> cacheReadFails
      ensures r.cacheStats.Some? ==> r.cacheStats.value == CacheStats(|cache.store|, cache.enabled, cache.ttl, cache.directory)
    {
      PipelineStats(totalQueries, successfulQueries, failedQueries, cacheHits,
        if successfulQueries > 0 then totalProcessingTime / successfulQueries as real else 0.0,
        if cacheReadFails then None else Some(CacheStats(|cache.store|, cache.enabled, cache.ttl, cache.directory)))
    }
  }

  /** What `get_statistics` reports; `cacheStats` is `None` when the cache could not report. */
  datatype PipelineStats = PipelineStats(totalQueries: nat, successfulQueries: nat, failedQueries: nat, cacheHits: nat,
                                         averageTime: real, cacheStats: Option<CacheStats>)

  /**
   * A run whose options turn the cache off neither reads nor writes it: it
   * returns the stages' result and leaves the store as it was.
   */
  method UncachedRun(o: PipelineOrchestrator, query: string, options: JsonObject, requestId: string, env: Env)
    returns (r: Outcome<QueryResponse>)
    requires o.Valid() && !OptionFlag(options, "use_cache", true)
    modifies o, o.cache
    ensures r == RunResult(o.settings, query, options, requestId, env, o.cache.enabled)
    ensures o.cache.store == old(o.cache.store)
  {
    assert Readable(JsonOptions(JObj(options))) && Opts(JsonOptions(JObj(options))) == options;
    r := o.RunPipeline(query, JsonOptions(JObj(options)), requestId, env);
  }

  /**
   * A query as the HTTP layer submits it, with its `QueryOptions` record:
   * the run fails before the cache or any stage is reached, is counted as
   * failed, and is answered with 500.
   */
  method RecordOptionsRunFails(o: PipelineOrchestrator, query: string, record: QueryOptions, requestId: string, env: Env)
    returns (r: Outcome<QueryResponse>)
    requires o.Valid()
    modifies o, o.cache
    ensures r.Failure? && HandlePipelineError(r.error, requestId, env.timing.total).statusCode == 500
    ensures o.failedQueries == old(o.failedQueries) + 1 && o.successfulQueries == old(o.successfulQueries)
    ensures o.cacheHits == old(o.cacheHits) && o.cache.store == old(o.cache.store)
  {
    r := o.RunPipeline(query, RecordOptions(record), requestId, env);
    RecordOptionsRejected(record, requestId, env.timing.total);
  }

  /**
   * Asking twice within the time to live: the second run is a cache hit
   * that returns the first run's response, which still says `cache_hit`
   * False.
   */
  method RepeatedQueryIsServedFromCache(o: PipelineOrchestrator, query: string, requestId: string, env: Env, later: Env)
    returns (first: Outcome<QueryResponse>, second: Outcome<QueryResponse>)
    requires o.Valid() && o.cache.enabled
    requires !env.cacheReadFails && !env.cacheWriteFails && !later.cacheReadFails
    requires env.timing.now <= later.timing.now < env.timing.now + o.cache.ttl as real
    requires o.CacheHit(query, map[], env).None?
    requires StagesSpec(o.settings, map[], env.calls, env.rt).Success?
    modifies o, o.cache
    ensures first.Success? && second == first
    ensures !second.value.metadata.cacheHit && second.value.metadata.cachedAt == Some(env.timing.stamp)
    ensures o.cacheHits == old(o.cacheHits) + 1 && o.successfulQueries == old(o.successfulQueries) + 1
  {
    assert Readable(JsonOptions(JNull)) && Opts(JsonOptions(JNull)) == map[];
    first := o.RunPipeline(query, JsonOptions(JNull), requestId, env);
    RunResultShape(o.settings, query, map[], requestId, env, true);
    assert o.cache.store[GenerateKey(query, Some(map[]))] == Cache.Entry(first.value, env.timing.now + o.cache.ttl as real);
    assert o.CacheHit(query, map[], later) == Some(first.value);
    second := o.RunPipeline(query, JsonOptions(JNull), requestId, later);
  }

  // ---------------------------------------------------------------------
  // check_health
  // ---------------------------------------------------------------------

  /** The health checks, in the order they are gathered. */
  const HealthNames: seq<string> := ["llama_7b", "gptj_6b", "mistral_7b", "deepseek_7b", "hf_api", "gemini_api"]

  /** A check is online when it returned a true value; one that raised is offline. */
  predicate Online(check: Outcome<bool>) {
    check.Success? && check.value
  }

  function OnlineCount(checks: seq<Outcome<bool>>): (n: nat)
    ensures n <= |checks|
  {
    if checks == [] then 0 else OnlineCount(checks[..|checks| - 1]) + (if Online(checks[|checks| - 1]) then 1 else 0)
  }

  /** The overall status for `online` of `total` checks; `total / 2` is a true division. */
  function OverallStatus(online: nat, total: nat): string {
    if online == total then "healthy"
    else if (online as real) >= (total as real) / 2.0 then "degraded"
    else "unhealthy"
  }

  /** Every check is online exactly when the online count is the number of checks. */
  lemma {:induction false} AllOnlineIffCount(checks: seq<Outcome<bool>>)
    ensures OnlineCount(checks) == |checks| <==> forall i :: 0 <= i < |checks| ==> Online(checks[i])
  {
    if checks != [] {
      var n := |checks| - 1;
      AllOnlineIffCount(checks[..n]);
      assert forall i :: 0 <= i < n ==> checks[..n][i] == checks[i];
    }
  }

  /**
   * The status rule of `check_health`: healthy iff every check is online,
   * degraded iff not all but at least half are, unhealthy otherwise.
   */
  lemma HealthRule(checks: seq<Outcome<bool>>)
    ensures var s := OverallStatus(OnlineCount(checks), |checks|);
      (s == "healthy" <==> forall i :: 0 <= i < |checks| ==> Online(checks[i]))
      && (s == "degraded" <==> OnlineCount(checks) < |checks| && 2 * OnlineCount(checks) >= |checks|)
      && (s == "unhealthy" <==> 2 * OnlineCount(checks) < |checks|)
  {
    AllOnlineIffCount(checks);
  }

  /** `"online"` or `"offline"` */
  function StatusName(check: Outcome<bool>): string {
    if Online(check) then "online" else "offline"
  }

  /** What `check_health` reports. */
  datatype HealthReport = HealthReport(status: string, models: map<string, string>, timestamp: string)

  /**
   * `check_health` over the outcomes of the six checks, gathered in the
   * order llama_7b, gptj_6b, mistral_7b, deepseek_7b, hf_api, gemini_api.
   */
  function CheckHealth(checks: seq<Outcome<bool>>, timestamp: string): (r: HealthReport)
    requires |checks| == |HealthNames|
    ensures forall i :: 0 <= i < |HealthNames| ==> HealthNames[i] in r.models && r.models[HealthNames[i]] == StatusName(checks[i])
    ensures r.status == OverallStatus(OnlineCount(checks), |checks|)
  {
    HealthReport(OverallStatus(OnlineCount(checks), |checks|),
      map[HealthNames[0] := StatusName(checks[0]), HealthNames[1] := StatusName(checks[1]),
          HealthNames[2] := StatusName(checks[2]), HealthNames[3] := StatusName(checks[3]),
          HealthNames[4] := StatusName(checks[4]), HealthNames[5] := StatusName(checks[5])],
      timestamp)
  }
}
