/**
 * The chairman service (backend/app/services/chairman.py): the chairman
 * model's reply is parsed with the shared extractor, missing fields are
 * defaulted (a missing final answer is an error), the lists are truncated
 * and the confidence converted with `float`. Any failure on the way gives the
 * fallback synthesis built from the aggregation, so synthesis never raises.
 */
module Chairman {
  import opened Wrappers
  import opened PyText
  import opened JsonValue
  import opened Errors
  import opened Schemas

  /** The fields the reply must have, in the order they are checked. */
  const RequiredFields: seq<string> := ["final_answer", "supporting_claims", "uncertain_points", "rejected_claims", "confidence"]

  const DefaultConfidence: real := 0.7
  const DefaultReasoning := "Synthesized based on supported claims and peer review."

  /** One step of the check loop: `None` is the `ValidationError` for a missing final answer. */
  function FillField(parsed: JsonObject, field: string): Option<JsonObject> {
    if field in parsed then Some(parsed)
    else if field == "confidence" then Some(parsed[field := JNum(DefaultConfidence)])
    else if field == "final_answer" then None
    else Some(parsed[field := JArr([])])
  }

  /** The reply after the check loop has run over `fields`. */
  function FilledIn(parsed: JsonObject, fields: seq<string>): Option<JsonObject> {
    if fields == [] then Some(parsed)
    else
      match FilledIn(parsed, fields[..|fields| - 1])
      case None => None
      case Some(p) => FillField(p, fields[|fields| - 1])
  }

  /** The check loop over the required fields. */
  method FillDefaults(parsed: JsonObject) returns (r: Option<JsonObject>)
    ensures r == FilledIn(parsed, RequiredFields)
  {
    var p := parsed;
    var i := 0;
    while i < |RequiredFields|
      invariant 0 <= i <= |RequiredFields|
      invariant FilledIn(parsed, RequiredFields[..i]) == Some(p)
    {
      assert RequiredFields[..i + 1][..i] == RequiredFields[..i];
      var field := RequiredFields[i];
      if field !in p {
        if field == "confidence" {
          p := p[field := JNum(DefaultConfidence)];
        } else if field == "final_answer" {
          FilledInShape(parsed, RequiredFields[..i]);
          RequiredFilled(parsed);
          return None;
        } else {
          p := p[field := JArr([])];
        }
      }
      i := i + 1;
    }
    assert RequiredFields[..i] == RequiredFields;
    r := Some(p);
  }

  /**
   * The check loop fails exactly when the final answer is required and
   * missing; otherwise it keeps every field of the reply, adds every checked
   * field and nothing else, a missing confidence as 0.7 and any other
   * missing field as an empty list.
   */
  lemma {:induction false} FilledInShape(parsed: JsonObject, fields: seq<string>)
    ensures FilledIn(parsed, fields).None? <==> "final_answer" in fields && "final_answer" !in parsed
    ensures FilledIn(parsed, fields).Some? ==>
      var p := FilledIn(parsed, fields).value;
      && (forall k :: k in parsed ==> k in p && p[k] == parsed[k])
      && (forall k :: k in p <==> k in parsed || k in fields)
      && ("confidence" in fields && "confidence" !in parsed ==> p["confidence"] == JNum(DefaultConfidence))
      && (forall f :: f in fields && f != "confidence" && f !in parsed ==> p[f] == JArr([]))
  {
    if fields != [] {
      var pre := fields[..|fields| - 1];
      var last := fields[|fields| - 1];
      FilledInShape(parsed, pre);
      assert fields == pre + [last];
      assert forall f :: f in fields <==> f in pre || f == last;
    }
  }

  /** The required fields are all present. */
  predicate Checked(p: JsonObject) {
    "final_answer" in p && "supporting_claims" in p && "uncertain_points" in p
    && "rejected_claims" in p && "confidence" in p
  }

  /** Over the required fields, the loop fails exactly without a final answer and otherwise leaves them all present. */
  lemma RequiredFilled(parsed: JsonObject)
    ensures FilledIn(parsed, RequiredFields).None? <==> "final_answer" !in parsed
    ensures FilledIn(parsed, RequiredFields).Some? ==> Checked(FilledIn(parsed, RequiredFields).value)
  {
    FilledInShape(parsed, RequiredFields);
    assert RequiredFields[0] == "final_answer" && RequiredFields[1] == "supporting_claims";
    assert RequiredFields[2] == "uncertain_points" && RequiredFields[3] == "rejected_claims";
    assert RequiredFields[4] == "confidence";
  }

  /** The truncation limits of the formatted answer. */
  const MaxSupporting: nat := 10
  const MaxUncertain: nat := 5
  const MaxRejected: nat := 5
  const MaxCitations: nat := 10

  /**
   * The formatted answer from a reply that passed the check loop: citations
   * and reasoning defaulted, lists truncated, confidence converted. `None`
   * when a slice or `float` raises.
   */
  function ModelAnswer(checked: JsonObject, rt: Runtime): Option<FinalAnswer>
    requires Checked(checked)
  {
    var withCitations := if "citations" in checked then checked else checked["citations" := JArr([])];
    var p := if "reasoning_summary" in withCitations then withCitations
             else withCitations["reasoning_summary" := JStr(DefaultReasoning)];
    var supporting := SliceTo(p["supporting_claims"], MaxSupporting);
    var uncertain := SliceTo(p["uncertain_points"], MaxUncertain);
    var rejected := SliceTo(p["rejected_claims"], MaxRejected);
    var citations := SliceTo(Get(p, "citations", JArr([])), MaxCitations);
    var confidence := ToFloat(p["confidence"], rt);
    if supporting.None? || uncertain.None? || rejected.None? || citations.None? || confidence.None? then None
    else Some(FinalAnswer(p["final_answer"], supporting.value, uncertain.value, rejected.value, citations.value,
                          confidence.value, Get(p, "reasoning_summary", JStr(""))))
  }

  const FallbackAnswerPrefix := "Based on verified claims: "
  const NoAnswer := "Unable to provide a confident answer due to insufficient verified claims."
  const FallbackReasoning := "Fallback synthesis due to chairman error."

  /** `_fallback_synthesis`: up to three supported claims joined into the answer. */
  function FallbackSynthesis(aggregation: Aggregation): FinalAnswer {
    var supported := aggregation.supported;
    var answer := if supported != [] then FallbackAnswerPrefix + Join(Take(supported, 3), " ") else NoAnswer;
    FinalAnswer(JStr(answer), StrList(Take(supported, 5)), StrList(Take(aggregation.uncertain, 3)),
                StrList(Take(aggregation.rejected, 3)), JArr([]), 0.5, JStr(FallbackReasoning))
  }

  /** The answer the model path produces, when nothing on it raises. */
  function ModelPath(response: Outcome<string>, rt: Runtime): Option<FinalAnswer> {
    if response.Failure? then None
    else match ParseWithRetry(response.value, rt)
      case None => None
      case Some(parsed) =>
        RequiredFilled(parsed);
        match FilledIn(parsed, RequiredFields)
        case None => None
        case Some(checked) => ModelAnswer(checked, rt)
  }

  /** What `synthesize` returns; `response` is the chairman model call's outcome. */
  function SynthesizeSpec(aggregation: Aggregation, response: Outcome<string>, rt: Runtime): FinalAnswer {
    match ModelPath(response, rt)
    case Some(answer) => answer
    case None => FallbackSynthesis(aggregation)
  }

  /** `synthesize` */
  method Synthesize(aggregation: Aggregation, response: Outcome<string>, rt: Runtime) returns (answer: FinalAnswer)
    ensures answer == SynthesizeSpec(aggregation, response, rt)
  {
    if response.Success? {
      var parsed := ParseWithRetry(response.value, rt);
      if parsed.Some? {
        var checked := FillDefaults(parsed.value);
        if checked.Some? {
          RequiredFilled(parsed.value);
          var formatted := ModelAnswer(checked.value, rt);
          if formatted.Some? {
            return formatted.value;
          }
        }
      }
    }
    answer := FallbackSynthesis(aggregation);
  }

  /**
   * Every answer keeps its lists within the limits (10, 5, 5, 10 from the
   * model; 5, 3, 3 and no citations in the fallback), and an answer without
   * a model reply holding a final answer is the fallback.
   */
  lemma SynthesizeBounds(aggregation: Aggregation, response: Outcome<string>, rt: Runtime)
    ensures var a := SynthesizeSpec(aggregation, response, rt);
      Len(a.supportingClaims) <= MaxSupporting && Len(a.uncertainPoints) <= MaxUncertain
      && Len(a.rejectedClaims) <= MaxRejected && Len(a.citations) <= MaxCitations
    ensures response.Failure? ==> SynthesizeSpec(aggregation, response, rt) == FallbackSynthesis(aggregation)
  {
  }

  /** `kept` is `given[:n]`: its first `n` items, or all of them when there are fewer. */
  predicate KeepsFirst(given: Json, kept: Json, n: nat) {
    var m := if Len(given) <= n then Len(given) else n;
    (given.JArr? ==> kept == JArr(given.items[..m])) && (given.JStr? ==> kept == JStr(given.s[..m]))
  }

  /**
   * On the model path each list is the reply's own list cut to its limit:
   * a longer list keeps exactly its first 10, 5, 5 or 10 items, in order,
   * and citations the reply leaves out become `[]`.
   */
  lemma ModelListsKeepFirst(checked: JsonObject, rt: Runtime)
    requires Checked(checked)
    ensures var a := ModelAnswer(checked, rt);
      a.Some? ==>
        KeepsFirst(checked["supporting_claims"], a.value.supportingClaims, MaxSupporting)
        && KeepsFirst(checked["uncertain_points"], a.value.uncertainPoints, MaxUncertain)
        && KeepsFirst(checked["rejected_claims"], a.value.rejectedClaims, MaxRejected)
        && ("citations" in checked ==> KeepsFirst(checked["citations"], a.value.citations, MaxCitations))
        && ("citations" !in checked ==> a.value.citations == JArr([]))
  {
  }

  /** A reply without `final_answer` always gives the fallback. */
  lemma MissingFinalAnswerFallsBack(aggregation: Aggregation, reply: string, rt: Runtime)
    requires ParseWithRetry(reply, rt).Some? && "final_answer" !in ParseWithRetry(reply, rt).value
    ensures SynthesizeSpec(aggregation, Success(reply), rt) == FallbackSynthesis(aggregation)
  {
    RequiredFilled(ParseWithRetry(reply, rt).value);
  }

  /**
   * A complete reply with short lists is passed through: its final answer,
   * lists and numeric confidence are kept as the model gave them; the
   * confidence is not checked against [0, 1].
   */
  lemma CompleteReplyPassedThrough(checked: JsonObject, rt: Runtime)
    requires Checked(checked) && "citations" in checked && "reasoning_summary" in checked
    requires checked["supporting_claims"].JArr? && Len(checked["supporting_claims"]) <= MaxSupporting
    requires checked["uncertain_points"].JArr? && Len(checked["uncertain_points"]) <= MaxUncertain
    requires checked["rejected_claims"].JArr? && Len(checked["rejected_claims"]) <= MaxRejected
    requires checked["citations"].JArr? && Len(checked["citations"]) <= MaxCitations
    requires checked["confidence"].JNum?
    ensures ModelAnswer(checked, rt) == Some(FinalAnswer(
      checked["final_answer"], checked["supporting_claims"], checked["uncertain_points"], checked["rejected_claims"],
      checked["citations"], checked["confidence"].n, checked["reasoning_summary"]))
  {
  }

  /** A reply holding only a final answer gets confidence 0.7, empty lists and the default reasoning. */
  lemma MissingFieldsDefaulted(answerText: Json, rt: Runtime)
    ensures FilledIn(map["final_answer" := answerText], RequiredFields).Some?
    ensures var p := FilledIn(map["final_answer" := answerText], RequiredFields).value;
      Checked(p) && ModelAnswer(p, rt) == Some(FinalAnswer(answerText, JArr([]), JArr([]), JArr([]), JArr([]), DefaultConfidence, JStr(DefaultReasoning)))
  {
    DefaultedReply(answerText);
  }

  lemma DefaultedReply(answerText: Json)
    ensures FilledIn(map["final_answer" := answerText], RequiredFields).Some?
    ensures var p := FilledIn(map["final_answer" := answerText], RequiredFields).value;
      && Checked(p) && p["final_answer"] == answerText
      && p["supporting_claims"] == JArr([]) && p["uncertain_points"] == JArr([]) && p["rejected_claims"] == JArr([])
      && p["confidence"] == JNum(DefaultConfidence) && "citations" !in p && "reasoning_summary" !in p
  {
    var parsed := map["final_answer" := answerText];
    var fs := RequiredFields;
    FilledInShape(parsed, fs);
    RequiredFilled(parsed);
    assert fs[1] in fs && fs[2] in fs && fs[3] in fs && fs[4] in fs;
    assert "citations" !in fs && "reasoning_summary" !in fs;
  }

  /**
   * The fallback answers with the first supported claims after a fixed
   * prefix (or a fixed apology), lists the first five supported claims and
   * has confidence 0.5.
   */
  lemma FallbackShape(aggregation: Aggregation)
    ensures var a := FallbackSynthesis(aggregation);
      var s := aggregation.supported;
      a.confidence == 0.5 && a.citations == JArr([])
      && (s == [] ==> a.finalAnswer == JStr(NoAnswer))
      && (s != [] ==> a.finalAnswer.JStr? && a.finalAnswer.s[..|FallbackAnswerPrefix|] == FallbackAnswerPrefix)
      && (s != [] ==> a.finalAnswer.s[|FallbackAnswerPrefix|..][..|s[0]|] == s[0])
      && Len(a.supportingClaims) == (if |s| <= 5 then |s| else 5)
      && (forall i :: 0 <= i < Len(a.supportingClaims) ==> a.supportingClaims.items[i] == JStr(s[i]))
      && (|s| == 1 ==> a.finalAnswer == JStr(FallbackAnswerPrefix + s[0]))
      && (|s| == 2 ==> a.finalAnswer == JStr(FallbackAnswerPrefix + s[0] + " " + s[1]))
      && (|s| >= 3 ==> a.finalAnswer == JStr(FallbackAnswerPrefix + s[0] + " " + s[1] + " " + s[2]))
      && Len(a.uncertainPoints) == (if |aggregation.uncertain| <= 3 then |aggregation.uncertain| else 3)
      && (forall i :: 0 <= i < Len(a.uncertainPoints) ==> a.uncertainPoints.items[i] == JStr(aggregation.uncertain[i]))
      && Len(a.rejectedClaims) == (if |aggregation.rejected| <= 3 then |aggregation.rejected| else 3)
      && (forall i :: 0 <= i < Len(a.rejectedClaims) ==> a.rejectedClaims.items[i] == JStr(aggregation.rejected[i]))
  {
    var s := aggregation.supported;
    if s != [] {
      var joined := Join(Take(s, 3), " ");
      JoinStartsWithFirst(Take(s, 3), " ");
      var text := FallbackAnswerPrefix + joined;
      assert text[|FallbackAnswerPrefix|..] == joined;
      if |s| == 2 {
        assert Take(s, 3)[1..] == [s[1]];
      } else if |s| >= 3 {
        assert Take(s, 3)[1..] == [s[1], s[2]];
        assert Take(s, 3)[1..][1..] == [s[2]];
        assert Join(Take(s, 3)[1..], " ") == s[1] + " " + s[2];
        assert joined == s[0] + " " + (s[1] + " " + s[2]);
        assert FallbackAnswerPrefix + joined == FallbackAnswerPrefix + s[0] + " " + s[1] + " " + s[2];
      }
    }
  }

  lemma JoinStartsWithFirst(parts: seq<string>, sep: string)
    requires parts != []
    ensures |Join(parts, sep)| >= |parts[0]| && Join(parts, sep)[..|parts[0]|] == parts[0]
  {
  }
}
