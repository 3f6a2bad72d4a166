/**
 * The chairman prompt (backend/app/prompts/chairman.py): the query, the
 * stage-1 answers as numbered experts, the canonical claims with their ids,
 * every reviewer's verdicts and the aggregation counts, filled into a fixed
 * template under a fixed system prompt for Gemini.
 */
module ChairmanPrompts {
  import opened Wrappers
  import opened PyText
  import opened JsonValue
  import opened Schemas
  import opened Paraphrase

  /**
   * How Python renders what the model does not type itself: `str(x)` of a
   * JSON value that is not a string, a float under the `:.2f` format, and
   * `str(x)` of a float.
   */
  datatype Formatter = Formatter(show: Json -> string, fixed2: real -> string, decimal: real -> string)

  /** A value in an f-string: a string as itself, anything else as `str(x)`. */
  function Str(j: Json, f: Formatter): string {
    if j.JStr? then j.s else f.show(j)
  }

  /** The line of the expert at index `idx`; experts are numbered from 1. */
  function OpinionLine(idx: nat, o: Opinion, f: Formatter): string {
    "Expert " + NatToString(idx + 1) + ": " + Str(o.answerText, f)
  }

  /** One line per opinion, in order. */
  function OpinionLines(opinions: seq<Opinion>, f: Formatter): (lines: seq<string>)
    ensures |lines| == |opinions|
  {
    seq(|opinions|, i requires 0 <= i < |opinions| => OpinionLine(i, opinions[i], f))
  }

  /** `format_stage1_opinions` */
  method FormatStage1Opinions(opinions: seq<Opinion>, f: Formatter) returns (text: string)
    ensures text == Join(OpinionLines(opinions, f), "\n")
  {
    var formatted: seq<string> := [];
    var idx := 0;
    while idx < |opinions|
      invariant 0 <= idx <= |opinions|
      invariant formatted == OpinionLines(opinions[..idx], f)
    {
      formatted := formatted + ["Expert " + NatToString(idx + 1) + ": " + Str(opinions[idx].answerText, f)];
      assert OpinionLines(opinions[..idx + 1], f) == OpinionLines(opinions[..idx], f) + [OpinionLine(idx, opinions[idx], f)];
      idx := idx + 1;
    }
    assert opinions[..idx] == opinions;
    text := Join(formatted, "\n");
  }

  /** The line that shows one canonical claim with its id. */
  function ClaimLine(c: Claim): string {
    "- [" + c.claimId + "] " + c.canonicalText
  }

  /** One line per claim, in order. */
  function ClaimLines(claims: seq<Claim>): (lines: seq<string>)
    ensures |lines| == |claims|
  {
    seq(|claims|, i requires 0 <= i < |claims| => ClaimLine(claims[i]))
  }

  /** `format_canonical_claims` */
  method FormatCanonicalClaims(claims: seq<Claim>) returns (text: string)
    ensures text == Join(ClaimLines(claims), "\n")
  {
    var formatted: seq<string> := [];
    var idx := 0;
    while idx < |claims|
      invariant 0 <= idx <= |claims|
      invariant formatted == ClaimLines(claims[..idx])
    {
      formatted := formatted + ["- [" + claims[idx].claimId + "] " + claims[idx].canonicalText];
      assert ClaimLines(claims[..idx + 1]) == ClaimLines(claims[..idx]) + [ClaimLine(claims[idx])];
      idx := idx + 1;
    }
    assert claims[..idx] == claims;
    text := Join(formatted, "\n");
  }

  /** The header line of one reviewer's block; it begins with a newline. */
  function ReviewerHeader(v: ReviewerVerdict): string {
    "\n" + v.reviewerName + ":"
  }

  /** The line of one review. */
  function ReviewLine(r: Review, f: Formatter): string {
    "  [" + Str(r.claimId, f) + "] " + VerdictName(r.verdict) + " (confidence: " + f.fixed2(r.confidence) + ") - " + Str(r.reason, f)
  }

  /** One line per review, in order. */
  function ReviewLines(reviews: seq<Review>, f: Formatter): (lines: seq<string>)
    ensures |lines| == |reviews|
  {
    seq(|reviews|, i requires 0 <= i < |reviews| => ReviewLine(reviews[i], f))
  }

  /** Each reviewer's header followed by its review lines, reviewer by reviewer. */
  function VerdictLines(verdicts: seq<ReviewerVerdict>, f: Formatter): seq<string> {
    if verdicts == [] then []
    else
      var last := verdicts[|verdicts| - 1];
      VerdictLines(verdicts[..|verdicts| - 1], f) + [ReviewerHeader(last)] + ReviewLines(last.reviews, f)
  }

  /** `format_review_verdicts` */
  method FormatReviewVerdicts(verdicts: seq<ReviewerVerdict>, f: Formatter) returns (text: string)
    ensures text == Join(VerdictLines(verdicts, f), "\n")
  {
    var formatted: seq<string> := [];
    var vi := 0;
    while vi < |verdicts|
      invariant 0 <= vi <= |verdicts|
      invariant formatted == VerdictLines(verdicts[..vi], f)
    {
      var v := verdicts[vi];
      formatted := formatted + ["\n" + v.reviewerName + ":"];
      formatted := AppendReviewLines(formatted, v.reviews, f);
      VerdictLinesPush(verdicts, vi, f);
      vi := vi + 1;
    }
    assert verdicts[..vi] == verdicts;
    text := Join(formatted, "\n");
  }

  /** The inner loop of `format_review_verdicts`: one reviewer's review lines, appended in order. */
  method AppendReviewLines(formatted0: seq<string>, reviews: seq<Review>, f: Formatter) returns (formatted: seq<string>)
    ensures formatted == formatted0 + ReviewLines(reviews, f)
  {
    formatted := formatted0;
    var ri := 0;
    while ri < |reviews|
      invariant 0 <= ri <= |reviews|
      invariant formatted == formatted0 + ReviewLines(reviews[..ri], f)
    {
      var r := reviews[ri];
      formatted := formatted + ["  [" + Str(r.claimId, f) + "] " + VerdictName(r.verdict) + " (confidence: " + f.fixed2(r.confidence) + ") - " + Str(r.reason, f)];
      ReviewLinesPush(formatted0, reviews, ri, f);
      ri := ri + 1;
    }
    assert reviews[..ri] == reviews;
  }

  lemma ReviewLinesPush(pre: seq<string>, reviews: seq<Review>, i: nat, f: Formatter)
    requires i < |reviews|
    ensures pre + ReviewLines(reviews[..i + 1], f) == pre + ReviewLines(reviews[..i], f) + [ReviewLine(reviews[i], f)]
  {
    assert ReviewLines(reviews[..i + 1], f) == ReviewLines(reviews[..i], f) + [ReviewLine(reviews[i], f)];
  }

  lemma VerdictLinesPush(verdicts: seq<ReviewerVerdict>, i: nat, f: Formatter)
    requires i < |verdicts|
    ensures VerdictLines(verdicts[..i + 1], f)
      == VerdictLines(verdicts[..i], f) + [ReviewerHeader(verdicts[i])] + ReviewLines(verdicts[i].reviews, f)
  {
    assert verdicts[..i + 1][..i] == verdicts[..i];
  }

  /**
   * The prompt texts: the system prompt and the user template cut at its
   * ten placeholders, each piece named after the placeholder that follows
   * it. The formatters take them as a parameter, so what is proved below
   * holds for any wording.
   */
  datatype ChairmanTemplate = ChairmanTemplate(
    system: string,
    beforeQuery: string,
    beforeOpinions: string,
    beforeClaims: string,
    beforeVerdicts: string,
    beforeTotal: string,
    beforeSupported: string,
    beforeRejected: string,
    beforeUncertain: string,
    beforeDisputed: string,
    beforeConsensus: string,
    tail: string)

  /** `CHAIRMAN_SYSTEM_PROMPT` and `CHAIRMAN_USER_PROMPT_TEMPLATE` */
  const ChairmanTexts := ChairmanTemplate(
    "You are the Chairman of an expert panel synthesizing a final answer.\nYou have received:\n1. Multiple initial opinions from different experts (anonymized)\n2. Extracted canonical claims from those opinions\n3. Independent peer review verdicts on each claim\n\nYour task is to synthesize a final, authoritative answer based ONLY on:\n- Claims marked as CORRECT by reviewers\n- Claims with high consensus\n- Verifiable facts\n\nCRITICAL RULES:\n1. Use ONLY supported claims (marked CORRECT)\n2. Acknowledge uncertain points explicitly\n3. Mention rejected claims if relevant to context\n4. Provide a balanced, fact-based answer\n5. Include citations when available\n6. Be concise but comprehensive\n7. Return ONLY JSON output\n",
    "Original Query: ",
    "\n\n=== INITIAL OPINIONS ===\n",
    "\n\n=== CANONICAL CLAIMS ===\n",
    "\n\n=== PEER REVIEW VERDICTS ===\n",
    "\n\n=== AGGREGATION SUMMARY ===\nTotal claims: ",
    "\nSupported (CORRECT): ",
    "\nRejected (INCORRECT): ",
    "\nUncertain: ",
    "\nDisputed: ",
    "\nConsensus score: ",
    "\n\n=== YOUR TASK ===\nSynthesize a final answer to the original query based on the evidence above.\n\nReturn ONLY valid JSON with this structure:\n{\n  \"final_answer\": \"Your comprehensive final answer (3-6 sentences). Base this ONLY on supported claims. Acknowledge uncertainties.\",\n  \"supporting_claims\": [\n    \"Claim 1 that supports the answer\",\n    \"Claim 2 that supports the answer\"\n  ],\n  \"uncertain_points\": [\n    \"Point 1 that needs more evidence\",\n    \"Point 2 that is disputed\"\n  ],\n  \"rejected_claims\": [\n    \"Claim 1 that was marked incorrect\",\n    \"Claim 2 that contradicts evidence\"\n  ],\n  \"citations\": [\n    {\"source\": \"Source name\", \"url\": \"https://...\", \"snippet\": \"Quote\"}\n  ],\n  \"confidence\": 0.85,\n  \"reasoning_summary\": \"Brief summary of your reasoning process (2-3 sentences)\"\n}\n\nIMPORTANT:\n- final_answer: 3-6 sentences, comprehensive but concise\n- confidence: 0.0-1.0 based on consensus and evidence quality\n- Include ALL categories even if empty lists\n- Return ONLY valid JSON, no other text\n- Be objective and evidence-based\n")

  /** The aggregation summary: the claim total, the four bucket sizes and the consensus score. */
  function SummaryText(t: ChairmanTemplate, a: Aggregation, f: Formatter): string {
    t.beforeTotal + NatToString(a.totalClaims)
    + t.beforeSupported + NatToString(|a.supported|)
    + t.beforeRejected + NatToString(|a.rejected|)
    + t.beforeUncertain + NatToString(|a.uncertain|)
    + t.beforeDisputed + NatToString(|a.disputed|)
    + t.beforeConsensus + f.decimal(a.consensus)
  }

  /** `get_chairman_prompt` for a template. */
  function ChairmanPrompt(t: ChairmanTemplate, query: string, opinions: seq<Opinion>, claims: seq<Claim>,
                          verdicts: seq<ReviewerVerdict>, a: Aggregation, f: Formatter): string
  {
    t.beforeQuery + query
    + t.beforeOpinions + Join(OpinionLines(opinions, f), "\n")
    + t.beforeClaims + Join(ClaimLines(claims), "\n")
    + t.beforeVerdicts + Join(VerdictLines(verdicts, f), "\n")
    + SummaryText(t, a, f) + t.tail
  }

  /**
   * The aggregation reaches the prompt only through the claim total, the
   * sizes of the four buckets and the consensus score: aggregations that
   * agree on these give the same prompt, whatever texts their buckets hold.
   */
  lemma SummaryShowsOnlyCounts(t: ChairmanTemplate, query: string, opinions: seq<Opinion>, claims: seq<Claim>,
                               verdicts: seq<ReviewerVerdict>, a: Aggregation, b: Aggregation, f: Formatter)
    requires a.totalClaims == b.totalClaims && a.consensus == b.consensus
    requires |a.supported| == |b.supported| && |a.rejected| == |b.rejected|
    requires |a.uncertain| == |b.uncertain| && |a.disputed| == |b.disputed|
    ensures ChairmanPrompt(t, query, opinions, claims, verdicts, a, f) == ChairmanPrompt(t, query, opinions, claims, verdicts, b, f)
    ensures ChairmanPrompt(t, query, opinions, claims, verdicts, a, f)[|ChairmanPrompt(t, query, opinions, claims, verdicts, a, f)| - |SummaryText(t, a, f) + t.tail|..]
      == SummaryText(t, a, f) + t.tail
  {
    var p := ChairmanPrompt(t, query, opinions, claims, verdicts, a, f);
    var pre := t.beforeQuery + query
      + t.beforeOpinions + Join(OpinionLines(opinions, f), "\n")
      + t.beforeClaims + Join(ClaimLines(claims), "\n")
      + t.beforeVerdicts + Join(VerdictLines(verdicts, f), "\n");
    assert p == pre + (SummaryText(t, a, f) + t.tail);
  }

  /** The Gemini prompt for a template: the system prompt, a blank line, the user prompt. */
  function GeminiPromptFor(t: ChairmanTemplate, query: string, opinions: seq<Opinion>, claims: seq<Claim>,
                           verdicts: seq<ReviewerVerdict>, a: Aggregation, f: Formatter): string
  {
    t.system + "\n\n" + ChairmanPrompt(t, query, opinions, claims, verdicts, a, f)
  }

  /** `get_chairman_gemini_prompt` */
  function ChairmanGeminiPrompt(query: string, opinions: seq<Opinion>, claims: seq<Claim>,
                                verdicts: seq<ReviewerVerdict>, a: Aggregation, f: Formatter): string
  {
    GeminiPromptFor(ChairmanTexts, query, opinions, claims, verdicts, a, f)
  }

  /**
   * The experts are anonymous: opinions that differ only in their model
   * names (or citations, claims and parse flags) give the same prompt.
   */
  lemma OpinionsAreAnonymous(t: ChairmanTemplate, query: string, a: seq<Opinion>, b: seq<Opinion>, claims: seq<Claim>,
                             verdicts: seq<ReviewerVerdict>, agg: Aggregation, f: Formatter)
    requires |a| == |b| && forall i :: 0 <= i < |a| ==> a[i].answerText == b[i].answerText
    ensures GeminiPromptFor(t, query, a, claims, verdicts, agg, f) == GeminiPromptFor(t, query, b, claims, verdicts, agg, f)
  {
    assert OpinionLines(a, f) == OpinionLines(b, f);
  }

  /**
   * The claim ids are not anonymous: the line of a claim the paraphrase
   * stage numbered for model `m` begins with `m` in lower case.
   */
  lemma ClaimLineNamesModel(c: Claim, m: string, idx: nat)
    requires c.claimId == ClaimId(m, idx)
    ensures "- [" + Lower(m) <= ClaimLine(c)
    ensures "- [" + Lower(m) + "_claim_" <= ClaimLine(c)
  {
    assert ClaimLine(c) == ("- [" + Lower(m) + "_claim_") + (NatToString(idx) + "] " + c.canonicalText);
    assert ("- [" + Lower(m) + "_claim_") == ("- [" + Lower(m)) + "_claim_";
  }

  /** The number of reviews over all reviewers. */
  function ReviewCount(verdicts: seq<ReviewerVerdict>): nat {
    if verdicts == [] then 0
    else ReviewCount(verdicts[..|verdicts| - 1]) + |verdicts[|verdicts| - 1].reviews|
  }

  /** The verdict section has one header per reviewer and one line per review. */
  lemma {:induction false} VerdictLinesCount(verdicts: seq<ReviewerVerdict>, f: Formatter)
    ensures |VerdictLines(verdicts, f)| == |verdicts| + ReviewCount(verdicts)
  {
    if verdicts != [] {
      VerdictLinesCount(verdicts[..|verdicts| - 1], f);
    }
  }

  /** Every review of every reviewer is shown, each under its reviewer's header. */
  lemma {:induction false} VerdictLinesShowEveryReview(verdicts: seq<ReviewerVerdict>, f: Formatter, j: nat, k: nat)
    requires j < |verdicts| && k < |verdicts[j].reviews|
    ensures ReviewerHeader(verdicts[j]) in VerdictLines(verdicts, f)
    ensures ReviewLine(verdicts[j].reviews[k], f) in VerdictLines(verdicts, f)
  {
    var n := |verdicts| - 1;
    var last := verdicts[n];
    if j == n {
      var reviews := ReviewLines(last.reviews, f);
      assert reviews[k] == ReviewLine(last.reviews[k], f);
      assert ReviewLine(last.reviews[k], f) in reviews;
    } else {
      assert verdicts[..n][j] == verdicts[j];
      VerdictLinesShowEveryReview(verdicts[..n], f, j, k);
    }
  }
}
