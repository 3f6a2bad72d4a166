/**
 * The reviewer prompt (backend/app/prompts/reviewer.py): the claims are shown
 * to the reviewer as numbered, anonymous lines `[claim_<i>]: <text>`, under
 * the fixed instructions, and sent to the llama.cpp server with fixed
 * sampling settings.
 */
module ReviewerPrompts {
  import opened Wrappers
  import opened PyText
  import opened JsonValue
  import opened Schemas
  import opened Aggregator
  import opened Paraphrase

  /**
   * The prompt texts: the system prompt and the user template cut at its two
   * placeholders (`query`, `claims_list`). The formatters take them as a
   * parameter, so what is proved below holds for any wording.
   */
  datatype ReviewerTemplate = ReviewerTemplate(system: string, head: string, middle: string, tail: string)

  /** `REVIEWER_SYSTEM_PROMPT` and `REVIEWER_USER_PROMPT_TEMPLATE` */
  const ReviewerTexts := ReviewerTemplate(
    "You are an expert fact-checker and peer reviewer.\nYour task is to evaluate anonymized claims for factual accuracy.\n\nCRITICAL RULES:\n1. Evaluate ONLY the claims provided\n2. Do NOT know the source of claims (they are anonymized)\n3. Do NOT engage in chain-of-thought\n4. Judge each claim independently\n5. Base verdicts on factual accuracy and verifiability\n6. Return ONLY JSON output\n\nVERDICT TYPES:\n- CORRECT: Factually accurate and verifiable\n- INCORRECT: Factually wrong or misleading\n- UNCERTAIN: Cannot verify with confidence, needs more evidence\n",
    "Original Question: ",
    "\n\nEvaluate the following anonymized claims for factual accuracy.\nJudge each claim independently based on your knowledge.\n\nClaims to review:\n",
    "\n\nFor each claim, provide:\n1. verdict: CORRECT, INCORRECT, or UNCERTAIN\n2. reason: Brief explanation (\U{00E2}\U{2030}\U{00A4}30 words)\n3. evidence_needed: true if more evidence would help verify\n4. confidence: 0.0-1.0 (your confidence in this verdict)\n\nReturn ONLY valid JSON with this structure:\n{\n  \"reviews\": [\n    {\n      \"claim_id\": \"claim_0\",\n      \"verdict\": \"CORRECT\",\n      \"reason\": \"Brief justification\",\n      \"evidence_needed\": false,\n      \"confidence\": 0.85\n    },\n    {\n      \"claim_id\": \"claim_1\",\n      \"verdict\": \"UNCERTAIN\",\n      \"reason\": \"Brief justification\",\n      \"evidence_needed\": true,\n      \"confidence\": 0.50\n    }\n  ]\n}\n\nIMPORTANT:\n- Return ONLY the JSON object\n- No explanations outside the JSON\n- Review ALL claims provided\n- Be objective and evidence-based\n")

  /** The anonymous label of the claim at index `idx`. */
  function Label(idx: nat): string {
    "claim_" + NatToString(idx)
  }

  /** The line that shows one claim to the reviewer. */
  function ClaimLine(idx: nat, claim: Claim): string {
    "[claim_" + NatToString(idx) + "]: " + claim.canonicalText
  }

  /** The lines of the claims list, one per claim, in order. */
  function ClaimLines(claims: seq<Claim>): (lines: seq<string>)
    ensures |lines| == |claims|
  {
    seq(|claims|, i requires 0 <= i < |claims| => ClaimLine(i, claims[i]))
  }

  /** `format_claims_for_review` */
  method FormatClaimsForReview(claims: seq<Claim>) returns (text: string)
    ensures text == Join(ClaimLines(claims), "\n")
  {
    var formatted: seq<string> := [];
    var idx := 0;
    while idx < |claims|
      invariant 0 <= idx <= |claims|
      invariant formatted == ClaimLines(claims[..idx])
    {
      formatted := formatted + ["[claim_" + NatToString(idx) + "]: " + claims[idx].canonicalText];
      assert ClaimLines(claims[..idx + 1]) == ClaimLines(claims[..idx]) + [ClaimLine(idx, claims[idx])];
      idx := idx + 1;
    }
    assert claims[..idx] == claims;
    text := Join(formatted, "\n");
  }

  /** `get_reviewer_prompt` */
  function ReviewerPrompt(t: ReviewerTemplate, query: string, claims: seq<Claim>): string {
    t.head + query + t.middle + Join(ClaimLines(claims), "\n") + t.tail
  }

  /** The request body for the llama.cpp server. */
  datatype LlamaRequest = LlamaRequest(prompt: string, temperature: real, maxTokens: nat, stop: seq<string>, stream: bool)

  /** The stop strings of the reviewer request. */
  const ReviewerStops: seq<string> := ["</s>", "Original Question:", "Claims to review:"]

  /** The llama.cpp request for a template. */
  function LlamaRequestFor(t: ReviewerTemplate, query: string, claims: seq<Claim>): LlamaRequest {
    LlamaRequest(t.system + "\n\n" + ReviewerPrompt(t, query, claims), 0.3, 1024, ReviewerStops, false)
  }

  /** `get_reviewer_llama_prompt` */
  function ReviewerLlamaPrompt(query: string, claims: seq<Claim>): LlamaRequest {
    LlamaRequestFor(ReviewerTexts, query, claims)
  }

  /** No line of the list contains a newline when no claim text does. */
  lemma ClaimLineHasNoNewline(idx: nat, claim: Claim)
    requires '\n' !in claim.canonicalText
    ensures '\n' !in ClaimLine(idx, claim)
  {
    var digits := NatToString(idx);
    assert '\n' !in digits;
  }

  /**
   * The claims list reads back line by line: splitting it at newlines gives
   * one labelled line per claim, when no claim text spans lines.
   */
  lemma ClaimListSplitsIntoLines(claims: seq<Claim>)
    requires claims != []
    requires forall c :: c in claims ==> '\n' !in c.canonicalText
    ensures SplitOn(Join(ClaimLines(claims), "\n"), '\n') == ClaimLines(claims)
  {
    var lines := ClaimLines(claims);
    forall p | p in lines ensures '\n' !in p {
      var i :| 0 <= i < |lines| && lines[i] == p;
      assert claims[i] in claims;
      ClaimLineHasNoNewline(i, claims[i]);
    }
    SplitJoin(lines, '\n');
  }

  /**
   * The reviewer sees only the claim texts and their positions: claim ids,
   * source models and original answers do not reach the prompt.
   */
  lemma PromptIsAnonymous(t: ReviewerTemplate, query: string, a: seq<Claim>, b: seq<Claim>)
    requires |a| == |b| && forall i :: 0 <= i < |a| ==> a[i].canonicalText == b[i].canonicalText
    ensures LlamaRequestFor(t, query, a) == LlamaRequestFor(t, query, b)
  {
    assert ClaimLines(a) == ClaimLines(b);
  }

  lemma CountUnderscoresOfLabel(idx: nat)
    ensures CountChar(Label(idx), '_') == 1
  {
    CountCharAppend("claim_", NatToString(idx), '_');
    CountCharAbsent(NatToString(idx), '_');
    assert CountChar("claim_", '_') == 1;
  }

  lemma CountUnderscoresOfClaimId(modelName: string, idx: nat)
    ensures CountChar(ClaimId(modelName, idx), '_') >= 2
  {
    CountCharAppend(Lower(modelName) + "_claim_", NatToString(idx), '_');
    CountCharAppend(Lower(modelName), "_claim_", '_');
    assert CountChar("_claim_", '_') == 2;
  }

  /**
   * The ids the prompt asks the reviewer to answer with are never the ids
   * the paraphrase stage gives its claims: a label has one underscore, a
   * claim id at least two.
   */
  lemma LabelIsNeverClaimId(n: nat, modelName: string, idx: nat)
    ensures Label(n) != ClaimId(modelName, idx)
  {
    CountUnderscoresOfLabel(n);
    CountUnderscoresOfClaimId(modelName, idx);
  }

  /**
   * So a review that names its claim by the label it was shown matches no
   * paraphrased claim, and the aggregator leaves it out of every category.
   */
  lemma LabelledReviewMatchesNoClaim(claims: seq<Claim>, n: nat)
    requires forall c :: c in claims ==> exists m, i :: c.claimId == ClaimId(m, i)
    ensures Lookup(claims, Key(JStr(Label(n)))).None?
  {
    ClaimIndexLastWins(claims, Label(n));
    if Label(n) in ClaimIndex(claims) {
      var j :| 0 <= j < |claims| && claims[j].claimId == Label(n);
      assert claims[j] in claims;
      var m, i :| claims[j].claimId == ClaimId(m, i);
      LabelIsNeverClaimId(n, m, i);
    }
  }
}
