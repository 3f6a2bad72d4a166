# LLM Council pipeline core in Dafny

This project models the deterministic core of the LLM Council back end. A user
query goes through five stages:

1. **Stage 1.** Up to two models (Llama-7B, GPT-OSS-20B) give first opinions.
   A JSON object is cut out of each reply, or the raw text is kept as the answer.
2. **Paraphrase.** GPT-J-6B turns each opinion into canonical claims with ids
   `<model>_claim_<i>`. If that fails, the answer is split into sentences instead.
3. **Review.** Two reviewers (Mistral-7B, DeepSeek-7B) judge the claims. Each
   reply is validated review by review. If a reply fails, every claim is marked
   UNCERTAIN.
4. **Aggregation.** Reviews are grouped by claim id. Each known claim's text is
   put into the supported, rejected, uncertain or disputed list. The claims that
   ask for evidence are counted, and a consensus ratio is computed.
5. **Chairman.** Gemini synthesises the final answer. Missing fields get
   defaults and lists are truncated. If anything fails, a fallback answer is
   built from the aggregation.

Around the stages the model covers the rest of the core:

- The orchestrator:
  - the response cache (look-up, then write-back);
  - filtering of the per-model outcomes under `skip_failed_models`;
  - the fatal "nothing left" errors and their wrapping as `PipelineError`;
  - the statistics counters;
  - the models-used list and the health-status rule.
- The cache itself: key normalisation, time to live, `set` stamping the
  caller's response, and `delete`/`clear`.
- The error-to-HTTP-status mapping and `safe_execute`.
- The record types and the query validator.
- The reviewer and chairman prompt formatters.

How the model is built:

- Every model call is an `Outcome`: the reply text, or the exception the call
  raised.
- `json.loads` and `float(str)` are given as a `Runtime` parameter.
- Timings, time stamps and cache-store failures are given as an `Env`
  parameter.
- Loops in the code are methods with loop invariants. Each is proved equal to
  a recursive specification function, and the properties are proved as lemmas
  about those functions.
- The cache (`Cache.ResponseCache`) and the orchestrator's counters
  (`Orchestrator.PipelineOrchestrator`) are classes whose methods update their
  fields.

Facts about the code that the model keeps, where a comment or a first
reading suggests otherwise:

- A claim is supported when CORRECT outnumbers each other verdict (a
  plurality), although the comments at
  `backend/app/services/aggregator.py:82` and `:86` say "Majority".
  `Aggregator.PluralityIsNotMajority` shows a claim supported by two CORRECT
  reviews out of four.
- The four lists hold canonical texts, not claim ids
  (`backend/app/services/aggregator.py:53`).
- The consensus ratio is taken over the groups reviewed at least twice, unknown
  ids included, and is 0.5 when there are none
  (`backend/app/services/aggregator.py:140-152`).
- The orchestrator's own fallback chairman joins the first three supported
  claims without a prefix, with confidence 0.5
  (`backend/app/services/orchestrator.py:398-410`). It differs from the chairman
  service's fallback only in that prefix and in the reasoning sentence.
- `errors` and `warnings` in the response metadata are always empty
  (`backend/app/services/orchestrator.py:155-156`).
- If both reviewers are disabled, the review stage raises "All reviewers
  failed" and the run fails (`backend/app/services/orchestrator.py:363-364`).
- `run_pipeline` reads its options with `options.get` inside its `try`
  (`backend/app/services/orchestrator.py:85-90`). The HTTP layer passes the
  request's `QueryOptions` record (`backend/app/main.py:114-117`), and a record
  is truthy but has no `get`. So every query submitted through the HTTP layer
  fails with an AttributeError before the cache or any stage is reached. It is
  counted as failed and answered with status 500
  (`Orchestrator.RecordOptionsRunFails`). The options argument is therefore
  modelled as `Orchestrator.OptionsArg`: a decoded JSON value, or such a
  record.

Modules:

- `wrappers.dfy`: `Option`.
- `py_text.dfy`: the Python string operations used: `strip`, `lower`, `upper`,
  `find`, `rfind`, `replace`, `split`, `join` and integer formatting.
- `json_value.dfy`: decoded JSON values, truthiness, slicing, and the shared
  brace-slice extractor with its cleanup retry.
- One module per core source file: `errors.dfy`, `schemas.dfy`,
  `aggregator.dfy`, `paraphrase.dfy`, `reviewers.dfy`, `chairman.dfy`,
  `reviewer_prompts.dfy`, `chairman_prompts.dfy`, `cache.dfy` and
  `orchestrator.dfy`.

## Model

| member | source | states |
|---|---|---|
| Aggregator.FirstUnhashable | backend/app/services/aggregator.py:34-36 | the id that stops the grouping is a list or a dict, the only values Python cannot use as a dictionary key |
| Aggregator.FirstUnhashableNone | backend/app/services/aggregator.py:34-36 | the grouping gets through every review exactly when every claim id is hashable |
| Aggregator.ClaimIndexLastWins | backend/app/services/aggregator.py:46 | the claim lookup holds exactly the ids of the claims, and under a repeated id the last claim with that id |
| Aggregator.AgreeCount | backend/app/services/aggregator.py:140-149 | the number of unanimous groups never exceeds the number of groups compared |
| Aggregator.Consensus | backend/app/services/aggregator.py:124-155 | the score lies in [0, 1]; it is 0 without groups or claims and 0.5 when no group has two reviews; otherwise it is 1 exactly when every group reviewed at least twice is unanimous |
| Aggregator.Aggregate | backend/app/services/aggregator.py:28-122 | `aggregate` returns the specified aggregation, or raises the TypeError of the first unhashable claim id |
| Aggregator.GroupByClaim | backend/app/services/aggregator.py:32-36 | the grouping fails exactly at the first unhashable id; otherwise its keys are the distinct ids in first-appearance order, and each group holds that id's reviews in order |
| Aggregator.GroupReviews | backend/app/services/aggregator.py:35-36 | over one reviewer's reviews, the grouping stops at the first unhashable id, or extends every group and the key order with these reviews |
| Aggregator.Categorize | backend/app/services/aggregator.py:39-91 | the four lists and the evidence count are those of the entries of the known claims, taken in key order |
| Aggregator.CategorizeOne | backend/app/services/aggregator.py:49-91 | a key naming no claim changes nothing; a known claim's text joins exactly the list of its category, and the count grows by one exactly when some review asks for evidence |
| Aggregator.Place | backend/app/services/aggregator.py:63-91 | the if/elif chain appends the claim text to the list its classification names, and to no other list |
| Aggregator.CalculateConsensus | backend/app/services/aggregator.py:124-155 | the counting loop computes the consensus of the grouped reviews |
| Aggregator.KeysAreReviewedIds | backend/app/services/aggregator.py:32-36 | a key is grouped exactly when some review carries that id |
| Aggregator.KeysDistinct | backend/app/services/aggregator.py:32-36 | no id is grouped twice |
| Aggregator.ClassifyIsPlurality | backend/app/services/aggregator.py:69-91 | a group is supported iff CORRECT outnumbers both other verdicts, rejected iff INCORRECT does, uncertain iff every review is UNCERTAIN, and disputed otherwise |
| Aggregator.TwoDissentingReviewsDisputed | backend/app/services/aggregator.py:81-91 | two reviews that disagree leave a claim disputed |
| Aggregator.PluralityIsNotMajority | backend/app/services/aggregator.py:81-83 | two CORRECT, one INCORRECT and one UNCERTAIN review support a claim, although CORRECT is only half of the reviews |
| Aggregator.AggregatePartition | backend/app/services/aggregator.py:49-101 | the total is the number of claims; the four lists together hold one text per distinct reviewed id that names a known claim; the evidence count is at most that number |
| Aggregator.AggregateFailsIffUnhashable | backend/app/services/aggregator.py:34-36 | aggregation fails exactly when some review's claim id is a list or a dict |
| Aggregator.UnknownIdsIgnored | backend/app/services/aggregator.py:46-51 | reviews of unknown ids change neither the four lists nor the evidence count |
| Aggregator.ConsensusCountsUnknownIds | backend/app/services/aggregator.py:140-149 | two agreeing reviews of an unknown id classify nothing, yet make the consensus 1.0 |
| Cache.GenerateKey | backend/app/utils/cache.py:31-43 | the key is made of the stripped, lower-cased query and the options, with absent options read as `{}` |
| Cache.KeyNormalisesQuery | backend/app/utils/cache.py:31-43 | two queries share a key iff their normal forms are equal; a normal form is its own key; absent options and `{}` give the same key |
| Cache.Live | backend/app/utils/cache.py:56-64 | a look-up finds an entry exactly when the key is stored and the entry has not expired, and then returns the stored response |
| Cache.Stamped | backend/app/utils/cache.py:86-87 | stamping sets `cache_hit` False and `cached_at` to the time stamp, and changes nothing else in the response |
| Cache.ResponseCache.constructor | backend/app/utils/cache.py:19-27 | a new cache has the configured switch, time to live and directory, and the entries already in the directory |
| Cache.ResponseCache.Lookup | backend/app/utils/cache.py:45-68 | `get` returns something exactly when the cache is enabled, the store does not fail and a live entry exists; what it returns is the stored response |
| Cache.ResponseCache.Get | backend/app/utils/cache.py:45-68 | `get` answers as `Lookup` specifies |
| Cache.ResponseCache.Set | backend/app/utils/cache.py:70-93 | when enabled, the caller's response is stamped, and stored under the query's key until now + ttl unless the write fails; when disabled, nothing changes; the settings never change |
| Cache.ResponseCache.Clear | backend/app/utils/cache.py:95-102 | the store is emptied, or the store's failure is raised and the store is kept |
| Cache.ResponseCache.Delete | backend/app/utils/cache.py:117-124 | exactly the query's key is removed, enabled or not; a failing store is left as it was |
| Cache.ResponseCache.GetStats | backend/app/utils/cache.py:104-115 | the stats report the number of stored entries and the settings, or nothing when the store fails |
| Cache.SetThenGet | backend/app/utils/cache.py:45-93 | within the time to live, `get` for any query with the same normal form returns the stored response, which says `cache_hit` False |
| Cache.DisabledCacheIsInert | backend/app/utils/cache.py:52-80 | a disabled cache returns nothing and stores nothing |
| Cache.DeleteThenGet | backend/app/utils/cache.py:117-124 | after `delete`, `get` misses for that query |
| Chairman.FillDefaults | backend/app/services/chairman.py:64-79 | the check loop over the required fields does what `FilledIn` specifies |
| Chairman.FilledInShape | backend/app/services/chairman.py:72-79 | the loop fails iff the final answer is required and missing; otherwise it keeps every reply field and adds only the checked fields, a missing confidence as 0.7 and any other missing field as [] |
| Chairman.RequiredFilled | backend/app/services/chairman.py:64-79 | over the five required fields, the loop fails exactly without `final_answer`, and otherwise leaves all five present |
| Chairman.Synthesize | backend/app/services/chairman.py:20-107 | `synthesize` returns the model's formatted answer when nothing on that path raises, and the fallback synthesis otherwise |
| Chairman.SynthesizeBounds | backend/app/services/chairman.py:89-107 | every answer keeps at most 10 supporting claims, 5 uncertain points, 5 rejected claims and 10 citations; a failed model call gives the fallback |
| Chairman.ModelListsKeepFirst | backend/app/services/chairman.py:92-95 | on the model path each list is the reply's list cut to its limit: exactly its first 10, 5, 5 or 10 items in order (all of them when there are fewer), and missing citations become `[]` |
| Chairman.MissingFinalAnswerFallsBack | backend/app/services/chairman.py:72-107 | a reply without `final_answer` always gives the fallback |
| Chairman.CompleteReplyPassedThrough | backend/app/services/chairman.py:81-98 | a complete reply with short lists and a numeric confidence is passed through unchanged; the confidence is not checked against [0, 1] |
| Chairman.MissingFieldsDefaulted | backend/app/services/chairman.py:72-98 | a reply holding only a final answer gets confidence 0.7, empty lists and citations, and the default reasoning sentence |
| Chairman.FallbackShape | backend/app/services/chairman.py:133-159 | the fallback has confidence 0.5 and no citations; its answer is the apology without supported claims, and otherwise the prefix followed by the first one, two or three supported claims separated by single spaces; it lists the first five supported claims, the first three uncertain claims and the first three rejected claims |
| ChairmanPrompts.FormatStage1Opinions | backend/app/prompts/chairman.py:79-84 | one line per opinion, "Expert n: answer", numbered from 1, joined by newlines |
| ChairmanPrompts.FormatCanonicalClaims | backend/app/prompts/chairman.py:87-92 | one line per claim, "- [id] text", in order, joined by newlines |
| ChairmanPrompts.FormatReviewVerdicts | backend/app/prompts/chairman.py:95-105 | each reviewer's header line, then one line per review, reviewer by reviewer, joined by newlines |
| ChairmanPrompts.AppendReviewLines | backend/app/prompts/chairman.py:100-104 | the inner loop appends exactly one reviewer's review lines, in order |
| ChairmanPrompts.SummaryShowsOnlyCounts | backend/app/prompts/chairman.py:108-127 | the prompt ends with the summary and the template's tail; the aggregation enters it only through the total, the four list sizes and the consensus score |
| ChairmanPrompts.OpinionsAreAnonymous | backend/app/prompts/chairman.py:79-84 | opinions that differ only in model name, claims, citations or parse flag give the same Gemini prompt |
| ChairmanPrompts.ClaimLineNamesModel | backend/app/prompts/chairman.py:87-92 | a paraphrased claim's line reveals its model's lower-cased name |
| ChairmanPrompts.VerdictLinesCount | backend/app/prompts/chairman.py:95-105 | the verdict section has one header per reviewer plus one line per review |
| ChairmanPrompts.VerdictLinesShowEveryReview | backend/app/prompts/chairman.py:95-105 | every reviewer's header and every one of its reviews appear in the verdict section |
| Errors.HandlePipelineError | backend/app/utils/error_handler.py:31-67 | the status is 504, 502, 422 or 400 exactly for a timeout, a model API error, a validation error or a value error, and 500 for anything else, a bare PipelineError included; the detail carries the type name, the request id and the processing time unchanged |
| Errors.StatusIgnoresMessage | backend/app/utils/error_handler.py:42-57 | the status depends on the error's class only |
| Errors.SafeExecute | backend/app/utils/error_handler.py:70-80 | a result is returned as is; an exception becomes the fallback when there is one, and is raised again otherwise |
| Errors.SafeExecuteWithFallbackSucceeds | backend/app/utils/error_handler.py:74-79 | with a fallback, `safe_execute` never raises |
| Errors.SafeExecuteIdempotent | backend/app/utils/error_handler.py:70-80 | wrapping twice with the same fallback is the same as wrapping once |
| JsonValue.SliceBetweenBraces | backend/app/services/reviewers.py:108-116 | a slice exists exactly when some `{` comes before some `}`; it is the part of the text from its first `{` to its last `}`, so it starts with `{` and ends with `}` |
| JsonValue.BraceSlice | backend/app/services/reviewers.py:104-116 | the extractor slices the stripped reply, from its first `{` to its last `}`, exactly when such a pair exists |
| JsonValue.ParseWithRetry | backend/app/services/reviewers.py:52-56 | parsing, with or without the cleanup retry, succeeds only on a reply that has a brace pair |
| JsonValue.ReplyList | backend/app/services/reviewers.py:52-60 | a service reads its list only from a reply that has a brace pair |
| JsonValue.CleanupKeepsBracePair | backend/app/services/reviewers.py:118-126 | removing the fences and the prefixes neither creates nor destroys a brace pair |
| Orchestrator.ParseStage1Response | backend/app/services/orchestrator.py:263-295 | the opinion names its model, and is marked as a parse error exactly when the reply has no loadable brace slice |
| Orchestrator.Stage1ParseShape | backend/app/services/orchestrator.py:263-295 | the fallback keeps the first 500 characters of the stripped reply, with no claims or citations; a parsed reply gives its own `answer_text`, `claims` and `citations`, with "" and [] for missing ones; a reply without braces always falls back |
| Orchestrator.FilterResults | backend/app/services/orchestrator.py:207-214 | the processing loop keeps the results `Filtered` specifies |
| Orchestrator.FailureIsFinal | backend/app/services/orchestrator.py:208-212 | once an outcome has raised, later outcomes change nothing |
| Orchestrator.SkippingKeepsSuccesses | backend/app/services/orchestrator.py:207-214 | with `skip_failed_models`, a stage keeps exactly its successes, in order, and never raises |
| Orchestrator.StrictRaisesFirstFailure | backend/app/services/orchestrator.py:207-214 | without `skip_failed_models`, a stage raises iff some outcome failed, and then raises the first failure's error; otherwise it keeps every result |
| Orchestrator.Stage1Task | backend/app/services/orchestrator.py:221-240 | a stage-1 task fails exactly when its model call fails, with that call's error; otherwise its opinion names the model |
| Orchestrator.Stage1Results | backend/app/services/orchestrator.py:184-192 | one outcome per enabled stage-1 model |
| Orchestrator.NonEmpty | backend/app/services/orchestrator.py:216-217 | a stage that succeeds has kept at least one result |
| Orchestrator.RunStage1 | backend/app/services/orchestrator.py:176-219 | `_run_stage1` returns the filtered opinions, or raises the kept failure, or "All Stage-1 models failed" |
| Orchestrator.Stage1FailsOnlyWhenAllFail | backend/app/services/orchestrator.py:207-217 | with skipping on, stage 1 fails iff every enabled model failed, and then with "All Stage-1 models failed"; otherwise its opinions are the successes in configuration order |
| Orchestrator.RunParaphrase | backend/app/services/orchestrator.py:297-316 | the claims of every extraction that did not raise, concatenated in opinion order |
| Orchestrator.ParaphrasedClaimsTraceBack | backend/app/services/orchestrator.py:297-316 | every paraphrased claim names the model and the answer of an opinion, and counts the words of its own canonical text |
| Orchestrator.ReviewResults | backend/app/services/orchestrator.py:327-339 | one outcome per enabled reviewer |
| Orchestrator.RunReview | backend/app/services/orchestrator.py:318-366 | `_run_review` returns the filtered verdicts, or "All reviewers failed" |
| Orchestrator.ReviewFailsIffNoReviewer | backend/app/services/orchestrator.py:327-364 | since reviewers never raise, the review stage fails iff both reviewers are disabled, with "All reviewers failed"; otherwise it returns one verdict per enabled reviewer |
| Orchestrator.NoFailureKeepsAll | backend/app/services/orchestrator.py:354-361 | outcomes without a failure are all kept, with or without skipping |
| Orchestrator.FallbackChairman | backend/app/services/orchestrator.py:398-410 | the fallback's answer starts with the first supported claim; it keeps at most 5 supporting, 3 uncertain and 3 rejected claims, has no citations and confidence 0.5 |
| Orchestrator.FallbacksAgreeOnLists | backend/app/services/orchestrator.py:398-410 | the orchestrator's fallback matches the chairman service's fallback except for the answer's prefix and the reasoning sentence |
| Orchestrator.ModelsUsed | backend/app/services/orchestrator.py:412-431 | GPT-J-6B is always listed; each other model is listed iff its stage or reviewer is enabled |
| Orchestrator.RunStages | backend/app/services/orchestrator.py:97-138 | the five stages run in order, and the first one that raises ends the run |
| Orchestrator.StageTimings | backend/app/services/orchestrator.py:102-137 | the timings have exactly the keys stage1, paraphrase, review, aggregation and chairman |
| Orchestrator.BuildResponse | backend/app/services/orchestrator.py:140-160 | a fresh response echoes the query and the request id, says `cache_hit` False, has no errors, warnings or `cached_at`, and has the five stage timings |
| Orchestrator.Wrapped | backend/app/services/orchestrator.py:171-174 | every failure leaves `run_pipeline` as a PipelineError |
| Orchestrator.RunResultShape | backend/app/services/orchestrator.py:97-174 | a run that misses the cache fails exactly when a stage raises, as a PipelineError answered with 500; a success has no cache hit, errors or warnings, has the five timings, and carries `cached_at` exactly when the cache stamped it |
| Orchestrator.Serve | backend/app/services/orchestrator.py:97-169 | the stages' result is returned, and written to the cache's store exactly when it succeeded, `use_cache` holds, the cache is enabled and the write succeeds |
| Orchestrator.Respond | backend/app/services/orchestrator.py:140-169 | a stage failure is wrapped; a response is built and, with `use_cache`, handed to the cache, whose store changes as `Updated` says |
| Orchestrator.PipelineOrchestrator.constructor | backend/app/services/orchestrator.py:35-55 | all counters start at zero, which satisfies total = hits + successes + failures |
| Orchestrator.PipelineOrchestrator.RunPipeline | backend/app/services/orchestrator.py:65-174 | every call counts once and keeps total = hits + successes + failures; options without `get` fail the run as a PipelineError, counted as failed, before the cache is read; a cache hit returns the stored response and changes neither the store nor the processing time; otherwise the run's result is counted as a success, adding its time, or as a failure, leaving the time; the store is updated as `Updated` says; the cache's settings never change |
| Orchestrator.PipelineOrchestrator.Miss | backend/app/services/orchestrator.py:97-174 | after a cache miss: the stages' result, counted once as a success with its time or as a failure without it, with the cache write |
| Orchestrator.PipelineOrchestrator.Record | backend/app/services/orchestrator.py:166-172 | a failure adds one failed query; a success adds one successful query and its processing time |
| Orchestrator.PipelineOrchestrator.Statistics | backend/app/services/orchestrator.py:471-486 | the reported counts add up; the average time times the successes is the total processing time, and the average is 0 without successes; the cache statistics are the orchestrator's own cache's size and settings, or absent exactly when its store cannot be read |
| Orchestrator.OptionsOrEmpty | backend/app/services/orchestrator.py:85-90 | a falsy value reads as `{}` and a dict as itself; a record, or any other truthy value, raises an AttributeError at the first `get` |
| Orchestrator.RecordOptionsRejected | backend/app/services/orchestrator.py:85-90 | `QueryOptions` record options can never be read, and the run's PipelineError is answered with 500 |
| Orchestrator.RecordOptionsRunFails | backend/app/main.py:114-117 | a query with a `QueryOptions` record, as the HTTP layer submits it, fails with status 500, is counted as failed and leaves the cache as it was |
| Orchestrator.UncachedRun | backend/app/services/orchestrator.py:88-164 | with `use_cache` false the cache is neither read nor written |
| Orchestrator.RepeatedQueryIsServedFromCache | backend/app/services/orchestrator.py:88-169 | the same query asked twice within the time to live is answered the second time from the cache with the first response, counted as one success and one hit |
| Orchestrator.OnlineCount | backend/app/services/orchestrator.py:455-456 | the online count never exceeds the number of checks |
| Orchestrator.AllOnlineIffCount | backend/app/services/orchestrator.py:447-458 | every check is online iff the online count equals the number of checks |
| Orchestrator.HealthRule | backend/app/services/orchestrator.py:447-463 | healthy iff every check is online; degraded iff not all but at least half are; unhealthy iff fewer than half are; a check that raised is offline |
| Orchestrator.CheckHealth | backend/app/services/orchestrator.py:433-469 | each of the six named checks reports online or offline, and the overall status follows the rule |
| Paraphrase.ClaimIdInjective | backend/app/services/paraphrase.py:60 | two claim ids of one model are equal only for equal indices |
| Paraphrase.FormatClaims | backend/app/services/paraphrase.py:55-65 | the formatting loop produces the claims `FormattedClaims` specifies |
| Paraphrase.FormattedClaimsSound | backend/app/services/paraphrase.py:56-65 | every claim is the formatting of a list entry at that entry's own index |
| Paraphrase.FormattedClaimsComplete | backend/app/services/paraphrase.py:57-65 | every non-empty string entry becomes a claim |
| Paraphrase.FormattedClaimsIds | backend/app/services/paraphrase.py:57-60 | the ids are distinct, and numbered below the length of the list |
| Paraphrase.FormattedClaimsFields | backend/app/services/paraphrase.py:59-64 | each claim records its model and answer, and counts the words of its stripped text |
| Paraphrase.BlankItemGivesEmptyClaim | backend/app/services/paraphrase.py:58-64 | a string of blanks is truthy, so it becomes a claim with empty text and no words |
| Paraphrase.SentencesShape | backend/app/services/paraphrase.py:106 | every sentence is non-empty, stripped and free of `.` |
| Paraphrase.FallbackExtraction | backend/app/services/paraphrase.py:101-119 | `_fallback_extraction` raises on a non-string answer, and otherwise returns the claims of the first five sentences |
| Paraphrase.SentenceClaimsIds | backend/app/services/paraphrase.py:108-117 | at most one claim per considered sentence, with distinct ids numbered below the number of sentences |
| Paraphrase.SentenceClaimsFields | backend/app/services/paraphrase.py:110-117 | from sentences, every fallback claim's text has more than 11 characters and ends in its only `.`; its word count is its text's, and it records its model and answer |
| Paraphrase.FallbackShape | backend/app/services/paraphrase.py:101-119 | the fallback fails exactly on a non-string answer; otherwise it gives at most five claims with distinct ids below 5 |
| Paraphrase.ExtractClaims | backend/app/services/paraphrase.py:20-74 | `extract_claims` returns the model's formatted claims, or else the fallback's result |
| Paraphrase.ExtractClaimsShape | backend/app/services/paraphrase.py:20-74 | extraction raises only when the model path failed and the answer is not a string; otherwise the ids are distinct and every claim records its source and counts its words |
| Paraphrase.FailedModelFallsBack | backend/app/services/paraphrase.py:70-74 | a failed model call on a string answer gives the sentence claims |
| Reviewers.ValidateReview | backend/app/services/reviewers.py:92-102 | a review is valid iff it is a dict with `claim_id`, `verdict` and `reason` whose upper-cased verdict is CORRECT, INCORRECT or UNCERTAIN; validation raises exactly when `in` cannot test the value, or when all three names are found in a value whose verdict cannot be upper-cased |
| Reviewers.FormatReviews | backend/app/services/reviewers.py:62-72 | the formatting loop collects the reviews `FormattedReviews` specifies |
| Reviewers.FormattedReviewsRaiseIff | backend/app/services/reviewers.py:64-72 | formatting raises iff some entry raises during validation or in `float` |
| Reviewers.FormattedReviewsExact | backend/app/services/reviewers.py:63-72 | the kept reviews are exactly the formatted valid entries, in input order and with repeats kept (`Reviewers.Kept`, read front to back), and there are no more of them than entries |
| Reviewers.LowerCaseVerdictAccepted | backend/app/services/reviewers.py:64-72 | a lower-case verdict is accepted and upper-cased; evidence defaults to False and confidence to 0.5 |
| Reviewers.MalformedEntries | backend/app/services/reviewers.py:92-102 | an entry missing a field is skipped; a string naming all three fields, or a number, raises |
| Reviewers.FallbackVerdict | backend/app/services/reviewers.py:128-149 | the fallback reviews every claim once and reports that count |
| Reviewers.FallbackReviews | backend/app/services/reviewers.py:128-149 | the fallback loop builds the verdict `FallbackVerdict` specifies |
| Reviewers.FallbackVerdictShape | backend/app/services/reviewers.py:128-149 | fallback reviews keep the real claim ids in order, ask for evidence, have hashable ids, and classify as uncertain |
| Reviewers.ReviewClaims | backend/app/services/reviewers.py:22-90 | `review_claims` returns the model's formatted reviews, or the fallback; it never raises |
| Reviewers.ReviewClaimsShape | backend/app/services/reviewers.py:22-90 | a verdict names its reviewer and counts its reviews; it is the fallback iff the model path failed, and then reviews every claim; otherwise it names the reviewer's model |
| ReviewerPrompts.FormatClaimsForReview | backend/app/prompts/reviewer.py:64-69 | one line "[claim_i]: text" per claim, numbered from 0, joined by newlines |
| ReviewerPrompts.ClaimLineHasNoNewline | backend/app/prompts/reviewer.py:68 | a claim line has no newline when its text has none |
| ReviewerPrompts.ClaimListSplitsIntoLines | backend/app/prompts/reviewer.py:64-69 | when no claim text holds a newline, splitting the list at newlines gives back one labelled line per claim |
| ReviewerPrompts.PromptIsAnonymous | backend/app/prompts/reviewer.py:64-89 | the llama request depends on the claims only through their texts and positions |
| ReviewerPrompts.LabelIsNeverClaimId | backend/app/prompts/reviewer.py:68 | the label "claim_n" shown to the reviewer is never a paraphrased claim's id |
| ReviewerPrompts.LabelledReviewMatchesNoClaim | backend/app/prompts/reviewer.py:68 | a review that answers with its label names no paraphrased claim, so aggregation leaves it out |
| Schemas.ParseVerdict | backend/app/models/__init__.py:10-14 | exactly the three names are verdicts |
| Schemas.VerdictRoundTrip | backend/app/models/__init__.py:10-14 | verdicts and their names correspond one to one |
| Schemas.OptionFlagsAgreeWithDefaults | backend/app/models/__init__.py:17-22 | the orchestrator's fallbacks for missing options agree with the record's defaults, and an options dict reads back its flags |
| Schemas.ValidateQuery | backend/app/models/__init__.py:27-35 | a query is accepted iff it has 5 to 1000 characters and is not blank, and is too short or too long by its raw length otherwise; the accepted value is a non-empty stripped slice of the input |
| Schemas.ValidateQueryIdempotent | backend/app/models/__init__.py:30-35 | an accepted query of at least five characters validates to itself |
| Schemas.AcceptedQueryCanBeShort | backend/app/models/__init__.py:27-35 | the bounds apply before stripping, so "  a  " is accepted as "a" |

## Left out

- Model calls and HTTP: the llama.cpp, Hugging Face and Gemini clients are not
  part of this model. Each call is an `Outcome` parameter: the reply text or the
  raised exception. The prompts are built by the formatters but not fed into
  these parameters.
- Concurrency: `asyncio.gather` keeps the input order, so each stage receives
  its outcomes as an ordered sequence. The `enable_parallel` option and the
  parallel-stage settings therefore change nothing observable, and are not
  modelled.
- Clock: `time.time()`, `datetime.utcnow()`, stage durations and the time
  stamps are `Env` parameters. Expiry is modelled as an entry's expiry time
  compared with the current time. Two pairs of readings are merged into one:
  - one `stamp` is both `metadata.timestamp` (`orchestrator.py:158`) and the
    cache's `cached_at` (`cache.py:87`), two separate `utcnow()` calls, so a
    cached response's `cached_at` equals its metadata timestamp;
  - one `now` is both the time of the cache read (`orchestrator.py:91`) and the
    time the write's expiry is counted from (`orchestrator.py:164`), so an
    entry expires `ttl` after the start of the run rather than after the
    write.
- `json.loads`, `float(str)`, `json.dumps(sort_keys=True)` and SHA-256:
  - `json.loads` and `float(str)` are `Runtime` parameters.
  - The cache key is a SHA-256 digest of the `json.dumps(sort_keys=True)`
    text of the normalised query and the options. The digest is taken to be
    injective and the text is modelled by the values it prints, so two keys
    are equal iff their queries and option values are equal (see the
    `JsonValue.Json` line for numbers).
- JsonValue.Json: every JSON number is one exact `real` (`JNum`), with no
  separate `int` and `float` and no NaN or infinities. Three behaviours
  differ from Python's:
  - `Cache.GenerateKey` gives options `{"t": 1}` and `{"t": 1.0}` one key,
    where `json.dumps` prints `1` and `1.0` and so gives two keys; a response
    stored under one is a hit for the other in the model only.
  - `JsonValue.JsonTypeName` names every number `float`, so the
    AttributeError raised for integer `options` (`Orchestrator.OptionsOrEmpty`)
    says `'float'` where Python says `'int'`.
  - `JsonValue.ToFloat` and the `Runtime.parseFloat` parameter cannot return
    NaN or an infinity, which `json.loads` and `float()` accept
    (`reviewers.py:71`, `chairman.py:96`). Such a reply has to be modelled as
    one that raises, which sends the reviewer or the chairman to its fallback
    where Python keeps the reply.
- Aggregator.Consensus: does not round the ratio to three decimals as
  `round(..., 3)` does, because that rounding acts on binary floats. For the
  same reason `Aggregator.CalculateConsensus` and `Aggregator.Aggregate` return
  the exact ratio.
- Orchestrator.PipelineOrchestrator.Statistics: does not round the average
  processing time to two decimals.
- String rendering: `str()` of non-string JSON values and the `:.2f`/`str`
  float formats in the chairman prompt are `Formatter` parameters.
- Unicode: `lower` and `upper` are modelled for ASCII letters and `strip` for
  ASCII whitespace only.
- Cache.ResponseCache.Get: a stored response is a non-empty dict, so the
  "falsy cached value reads as a miss" branch cannot happen and is not
  modelled.
- Orchestrator.FilterResults: a stage result is a non-empty dict, so the
  truthiness test never drops a success and is not modelled.
- Configuration (`backend/app/config.py`) is not part of this model. The
  feature flags are a `Settings` parameter; the cache's switch, time to live
  and directory are constructor arguments.
- The pydantic range constraints (`ReviewItem.confidence`, `consensus_score`,
  `FinalAnswer.confidence` in [0, 1]) and the `PipelineMetadata` defaults are
  not enforced by the services.
  - The model proves the consensus bound.
  - It shows that a model-supplied confidence passes through unchecked
    (`Chairman.CompleteReplyPassedThrough`).
  - The orchestrator fills every metadata field itself.
- `clear_cache`, `initialize` and `cleanup` in the orchestrator and logging
  are not part of this model. `clear_cache` only calls the cache's `clear`,
  which is `Cache.ResponseCache.Clear`.
- The FastAPI layer (`backend/app/main.py`) is not part of this model. The
  only part of it modelled is the options value it hands to `run_pipeline`
  (`Orchestrator.RecordOptionsRunFails`). Its overwriting of
  `processing_time` and `request_id` and its conversion of the result into a
  `QueryResponse` are left out.
- The `_call_llama7b`/`_call_hf_model` wrappers are modelled only as the call
  followed by `_parse_stage1_response` (`Orchestrator.Stage1Task`); their
  logging is left out.
- The stage-1 and paraphrase prompt texts (`backend/app/prompts/__init__.py`,
  `backend/app/prompts/paraphrase.py`) are not part of this model.
