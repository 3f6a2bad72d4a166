/**
 * The paraphrase service (backend/app/services/paraphrase.py): it turns a
 * Stage-1 answer into canonical claims. The model's reply is parsed with the
 * shared brace-slice extractor; its `claims` list is numbered and every
 * non-empty string in it becomes a claim. When the model fails, the reply does
 * not parse or has no `claims` list, the answer is split into sentences
 * instead, of which the first five are considered and those longer than ten
 * characters kept.
 */
module Paraphrase {
  import opened Wrappers
  import opened PyText
  import opened JsonValue
  import opened Errors
  import opened Schemas

  /** `f"{model_name.lower()}_claim_{idx}"` */
  function ClaimId(modelName: string, idx: nat): string {
    Lower(modelName) + "_claim_" + NatToString(idx)
  }

  /** Two ids of one model are equal only for equal indices. */
  lemma ClaimIdInjective(modelName: string, a: nat, b: nat)
    requires ClaimId(modelName, a) == ClaimId(modelName, b)
    ensures a == b
  {
    var p := Lower(modelName) + "_claim_";
    assert ClaimId(modelName, a)[|p|..] == NatToString(a);
    assert ClaimId(modelName, b)[|p|..] == NatToString(b);
    NatToStringInjective(a, b);
  }

  /** No two claims share an id. */
  predicate DistinctIds(claims: seq<Claim>) {
    forall i, j :: 0 <= i < j < |claims| ==> claims[i].claimId != claims[j].claimId
  }

  /** Every claim carries the id of one of the first `n` indices. */
  predicate IdsBelow(claims: seq<Claim>, modelName: string, n: nat) {
    forall c :: c in claims ==> exists i: nat :: i < n && c.claimId == ClaimId(modelName, i)
  }

  /** Numbering with the next index keeps the ids distinct. */
  lemma DistinctPush(claims: seq<Claim>, extra: seq<Claim>, modelName: string, n: nat)
    requires DistinctIds(claims) && IdsBelow(claims, modelName, n)
    requires |extra| <= 1 && forall c :: c in extra ==> c.claimId == ClaimId(modelName, n)
    ensures DistinctIds(claims + extra) && IdsBelow(claims + extra, modelName, n + 1)
  {
    var all := claims + extra;
    forall i, j | 0 <= i < j < |all| ensures all[i].claimId != all[j].claimId {
      if j >= |claims| {
        assert all[i] in claims && all[j] in extra;
        var k: nat :| k < n && all[i].claimId == ClaimId(modelName, k);
        if all[i].claimId == all[j].claimId {
          ClaimIdInjective(modelName, k, n);
        }
      }
    }
    forall c | c in all ensures exists i: nat :: i < n + 1 && c.claimId == ClaimId(modelName, i) {
      if c in extra {
        assert c.claimId == ClaimId(modelName, n);
      }
    }
  }

  // ---------------------------------------------------------------------
  // The model path
  // ---------------------------------------------------------------------

  /** The claim an entry of the model's list at index `idx` becomes, if any. */
  function FormatItem(modelName: string, answerText: Json, idx: nat, item: Json): Option<Claim> {
    if item.JStr? && item.s != [] then
      Some(Claim(ClaimId(modelName, idx), modelName, answerText, Strip(item.s), WordCount(item.s)))
    else None
  }

  function OptionToSeq<T>(o: Option<T>): seq<T> {
    match o
    case None => []
    case Some(x) => [x]
  }

  /** The claims the formatting loop produces from the model's list. */
  function FormattedClaims(modelName: string, answerText: Json, items: seq<Json>): seq<Claim> {
    if items == [] then []
    else
      var n := |items| - 1;
      FormattedClaims(modelName, answerText, items[..n]) + OptionToSeq(FormatItem(modelName, answerText, n, items[n]))
  }

  /** The formatting loop of `extract_claims`. */
  method FormatClaims(modelName: string, answerText: Json, items: seq<Json>) returns (claims: seq<Claim>)
    ensures claims == FormattedClaims(modelName, answerText, items)
  {
    claims := [];
    var idx := 0;
    while idx < |items|
      invariant 0 <= idx <= |items|
      invariant claims == FormattedClaims(modelName, answerText, items[..idx])
    {
      var item := items[idx];
      if item.JStr? && item.s != [] {
        claims := claims + [Claim(ClaimId(modelName, idx), modelName, answerText, Strip(item.s), WordCount(item.s))];
      }
      assert items[..idx + 1][..idx] == items[..idx];
      idx := idx + 1;
    }
    assert items[..idx] == items;
  }

  /** Every claim of the model path is the formatting of an entry of the list at its own index. */
  lemma {:induction false} FormattedClaimsSound(modelName: string, answerText: Json, items: seq<Json>)
    ensures forall c :: c in FormattedClaims(modelName, answerText, items) ==>
      exists i :: 0 <= i < |items| && FormatItem(modelName, answerText, i, items[i]) == Some(c)
  {
    if items != [] {
      var n := |items| - 1;
      var p := items[..n];
      FormattedClaimsSound(modelName, answerText, p);
      var extra := OptionToSeq(FormatItem(modelName, answerText, n, items[n]));
      forall c | c in FormattedClaims(modelName, answerText, items)
        ensures exists i :: 0 <= i < |items| && FormatItem(modelName, answerText, i, items[i]) == Some(c)
      {
        if c in FormattedClaims(modelName, answerText, p) {
          var i :| 0 <= i < |p| && FormatItem(modelName, answerText, i, p[i]) == Some(c);
          assert items[i] == p[i];
        } else {
          assert c in extra;
          assert FormatItem(modelName, answerText, n, items[n]) == Some(c);
        }
      }
    }
  }

  /** Every non-empty string of the list becomes a claim. */
  lemma {:induction false} FormattedClaimsComplete(modelName: string, answerText: Json, items: seq<Json>)
    ensures forall i :: 0 <= i < |items| && FormatItem(modelName, answerText, i, items[i]).Some? ==>
      FormatItem(modelName, answerText, i, items[i]).value in FormattedClaims(modelName, answerText, items)
  {
    if items != [] {
      var n := |items| - 1;
      var p := items[..n];
      FormattedClaimsComplete(modelName, answerText, p);
      forall i | 0 <= i < |items| && FormatItem(modelName, answerText, i, items[i]).Some?
        ensures FormatItem(modelName, answerText, i, items[i]).value in FormattedClaims(modelName, answerText, items)
      {
        if i < n {
          assert items[i] == p[i];
        }
      }
    }
  }

  /** The ids of the model path are distinct and numbered below the length of the list. */
  lemma {:induction false} FormattedClaimsIds(modelName: string, answerText: Json, items: seq<Json>)
    ensures DistinctIds(FormattedClaims(modelName, answerText, items))
    ensures IdsBelow(FormattedClaims(modelName, answerText, items), modelName, |items|)
  {
    if items != [] {
      var n := |items| - 1;
      FormattedClaimsIds(modelName, answerText, items[..n]);
      var extra := OptionToSeq(FormatItem(modelName, answerText, n, items[n]));
      DistinctPush(FormattedClaims(modelName, answerText, items[..n]), extra, modelName, n);
    }
  }

  /** Every claim of the model path records its source and counts the words of its canonical text. */
  lemma {:induction false} FormattedClaimsFields(modelName: string, answerText: Json, items: seq<Json>)
    ensures forall c :: c in FormattedClaims(modelName, answerText, items) ==>
      c.originalModel == modelName && c.originalText == answerText
      && c.wordCount == WordCount(c.canonicalText) && Strip(c.canonicalText) == c.canonicalText
  {
    if items != [] {
      var n := |items| - 1;
      FormattedClaimsFields(modelName, answerText, items[..n]);
      if items[n].JStr? && items[n].s != [] {
        WordCountStrip(items[n].s);
        StripIdempotent(items[n].s);
      }
    }
  }

  /** A truthy string of blanks becomes a claim whose canonical text is empty. */
  lemma BlankItemGivesEmptyClaim(modelName: string, answerText: Json)
    ensures FormattedClaims(modelName, answerText, [JStr(" ")])
      == [Claim(ClaimId(modelName, 0), modelName, answerText, "", 0)]
  {
    var s := " ";
    assert Leading(s) == 1 by {
      assert s[1..] == [];
    }
    assert Strip(s) == "";
    assert WordCount(s) == 0 by {
      assert s[1..] == [];
    }
    assert [JStr(" ")][..0] == [];
  }

  // ---------------------------------------------------------------------
  // The sentence fallback
  // ---------------------------------------------------------------------

  /** `[p.strip() for p in parts if p.strip()]` */
  function NonBlank(parts: seq<string>): seq<string> {
    if parts == [] then []
    else (if Strip(parts[0]) != [] then [Strip(parts[0])] else []) + NonBlank(parts[1..])
  }

  /** The sentences of a text: its `.`-separated pieces, stripped, blanks dropped. */
  function Sentences(text: string): seq<string> {
    NonBlank(SplitOn(text, '.'))
  }

  /** A sentence of the fallback: non-empty, stripped and free of `.`. */
  predicate IsSentence(s: string) {
    s != [] && Strip(s) == s && '.' !in s
  }

  /** Stripping keeps only characters of the text. */
  lemma StripChars(p: string, x: char)
    requires x in Strip(p)
    ensures x in p
  {
    StripBounds(p);
    var a, b := Leading(p), Leading(p) + |Strip(p)|;
    var k :| 0 <= k < |p[a..b]| && p[a..b][k] == x;
    assert p[a + k] == x;
  }

  lemma {:induction false} NonBlankSentences(parts: seq<string>)
    requires forall p :: p in parts ==> '.' !in p
    ensures forall s :: s in NonBlank(parts) ==> IsSentence(s)
  {
    if parts != [] {
      NonBlankSentences(parts[1..]);
      var p := parts[0];
      StripIdempotent(p);
      if '.' in Strip(p) {
        StripChars(p, '.');
      }
    }
  }

  /** Every sentence is non-empty, stripped and free of `.`. */
  lemma SentencesShape(text: string)
    ensures forall s :: s in Sentences(text) ==> IsSentence(s)
  {
    NonBlankSentences(SplitOn(text, '.'));
  }

  /** The claim a sentence at index `idx` becomes, if it is long enough. */
  function SentenceClaim(modelName: string, answerText: Json, idx: nat, sentence: string): Option<Claim> {
    if |sentence| > 10 then
      Some(Claim(ClaimId(modelName, idx), modelName, answerText, sentence + ".", WordCount(sentence)))
    else None
  }

  /** The claims the fallback loop produces from its sentences. */
  function SentenceClaims(modelName: string, answerText: Json, sentences: seq<string>): seq<Claim> {
    if sentences == [] then []
    else
      var n := |sentences| - 1;
      SentenceClaims(modelName, answerText, sentences[..n])
        + OptionToSeq(SentenceClaim(modelName, answerText, n, sentences[n]))
  }

  /** At most five sentences are considered. */
  const MaxFallbackClaims := 5

  /** The `AttributeError` of calling `split` on an answer that is not a string. */
  function NoSplitError(answerText: Json): Exc {
    Exc(OtherError("AttributeError"), "'" + JsonTypeName(answerText) + "' object has no attribute 'split'")
  }

  /** What `_fallback_extraction` returns or raises. */
  function FallbackSpec(modelName: string, answerText: Json): Outcome<seq<Claim>> {
    if answerText.JStr? then
      Success(SentenceClaims(modelName, answerText, Take(Sentences(answerText.s), MaxFallbackClaims)))
    else Failure(NoSplitError(answerText))
  }

  /** `_fallback_extraction` */
  method FallbackExtraction(modelName: string, answerText: Json) returns (r: Outcome<seq<Claim>>)
    ensures r == FallbackSpec(modelName, answerText)
  {
    if !answerText.JStr? {
      return Failure(NoSplitError(answerText));
    }
    var sentences := Take(Sentences(answerText.s), MaxFallbackClaims);
    var claims: seq<Claim> := [];
    var idx := 0;
    while idx < |sentences|
      invariant 0 <= idx <= |sentences|
      invariant claims == SentenceClaims(modelName, answerText, sentences[..idx])
    {
      var sentence := sentences[idx];
      if |sentence| > 10 {
        claims := claims + [Claim(ClaimId(modelName, idx), modelName, answerText, sentence + ".", WordCount(sentence))];
      }
      assert sentences[..idx + 1][..idx] == sentences[..idx];
      idx := idx + 1;
    }
    assert sentences[..idx] == sentences;
    r := Success(claims);
  }

  /** The fallback's ids: at most one claim per considered sentence, with distinct ids below their number. */
  lemma {:induction false} SentenceClaimsIds(modelName: string, answerText: Json, sentences: seq<string>)
    ensures |SentenceClaims(modelName, answerText, sentences)| <= |sentences|
    ensures DistinctIds(SentenceClaims(modelName, answerText, sentences))
    ensures IdsBelow(SentenceClaims(modelName, answerText, sentences), modelName, |sentences|)
  {
    if sentences != [] {
      var n := |sentences| - 1;
      SentenceClaimsIds(modelName, answerText, sentences[..n]);
      var extra := OptionToSeq(SentenceClaim(modelName, answerText, n, sentences[n]));
      DistinctPush(SentenceClaims(modelName, answerText, sentences[..n]), extra, modelName, n);
    }
  }

  /**
   * A claim of the fallback: its canonical text is a sentence of more than
   * ten characters with one `.` appended, whose word count it keeps.
   */
  predicate FallbackClaimShape(c: Claim, modelName: string, answerText: Json) {
    |c.canonicalText| > 11 && c.canonicalText[|c.canonicalText| - 1] == '.'
    && CountChar(c.canonicalText, '.') == 1
    && c.wordCount == WordCount(c.canonicalText)
    && c.originalModel == modelName && c.originalText == answerText
  }

  lemma SentenceClaimShape(modelName: string, answerText: Json, idx: nat, s: string)
    requires IsSentence(s) && SentenceClaim(modelName, answerText, idx, s).Some?
    ensures FallbackClaimShape(SentenceClaim(modelName, answerText, idx, s).value, modelName, answerText)
  {
    StripEnds(s);
    CountWordsExtendWord(s, '.', true);
    CountCharAppend(s, ".", '.');
    CountCharAbsent(s, '.');
  }

  lemma {:induction false} SentenceClaimsFields(modelName: string, answerText: Json, sentences: seq<string>)
    requires forall s :: s in sentences ==> IsSentence(s)
    ensures forall c :: c in SentenceClaims(modelName, answerText, sentences) ==> FallbackClaimShape(c, modelName, answerText)
  {
    if sentences != [] {
      var n := |sentences| - 1;
      var p := sentences[..n];
      assert forall s :: s in p ==> s in sentences;
      SentenceClaimsFields(modelName, answerText, p);
      assert sentences[n] in sentences;
      if |sentences[n]| > 10 {
        SentenceClaimShape(modelName, answerText, n, sentences[n]);
      }
    }
  }

  /** The fallback fails exactly on a non-string answer and otherwise yields at most five well-formed claims. */
  lemma FallbackShape(modelName: string, answerText: Json)
    ensures FallbackSpec(modelName, answerText).Failure? <==> !answerText.JStr?
    ensures FallbackSpec(modelName, answerText).Success? ==>
      var claims := FallbackSpec(modelName, answerText).value;
      |claims| <= MaxFallbackClaims && DistinctIds(claims) && IdsBelow(claims, modelName, MaxFallbackClaims)
  {
    if answerText.JStr? {
      var all := Sentences(answerText.s);
      var sentences := Take(all, MaxFallbackClaims);
      SentenceClaimsIds(modelName, answerText, sentences);
      var claims := SentenceClaims(modelName, answerText, sentences);
      forall c | c in claims ensures exists i: nat :: i < MaxFallbackClaims && c.claimId == ClaimId(modelName, i) {
        var i: nat :| i < |sentences| && c.claimId == ClaimId(modelName, i);
      }
    }
  }

  // ---------------------------------------------------------------------
  // extract_claims
  // ---------------------------------------------------------------------

  /** The model's `claims` list, when the call returned a reply that holds one. */
  function ModelClaimList(response: Outcome<string>, rt: Runtime): Option<seq<Json>> {
    if response.Failure? then None else ReplyList(response.value, "claims", rt)
  }

  /** What `extract_claims` returns or raises; `response` is the model call's outcome. */
  function ExtractSpec(modelName: string, answerText: Json, response: Outcome<string>, rt: Runtime): Outcome<seq<Claim>> {
    match ModelClaimList(response, rt)
    case Some(items) => Success(FormattedClaims(modelName, answerText, items))
    case None => FallbackSpec(modelName, answerText)
  }

  /** `extract_claims` */
  method ExtractClaims(modelName: string, answerText: Json, response: Outcome<string>, rt: Runtime)
    returns (r: Outcome<seq<Claim>>)
    ensures r == ExtractSpec(modelName, answerText, response, rt)
  {
    var items := ModelClaimList(response, rt);
    if items.Some? {
      var claims := FormatClaims(modelName, answerText, items.value);
      return Success(claims);
    }
    r := FallbackExtraction(modelName, answerText);
  }

  /**
   * Extraction raises only when the model path failed and the answer is not
   * a string; otherwise its claims have distinct ids, record their source and
   * count the words of their canonical text.
   */
  lemma ExtractClaimsShape(modelName: string, answerText: Json, response: Outcome<string>, rt: Runtime)
    ensures var r := ExtractSpec(modelName, answerText, response, rt);
      r.Failure? <==> ModelClaimList(response, rt).None? && !answerText.JStr?
    ensures var r := ExtractSpec(modelName, answerText, response, rt);
      r.Failure? ==> r.error == NoSplitError(answerText)
    ensures var r := ExtractSpec(modelName, answerText, response, rt);
      r.Success? ==> DistinctIds(r.value)
    ensures var r := ExtractSpec(modelName, answerText, response, rt);
      r.Success? ==> forall c :: c in r.value ==>
        c.originalModel == modelName && c.originalText == answerText && c.wordCount == WordCount(c.canonicalText)
  {
    match ModelClaimList(response, rt)
    case Some(items) =>
      FormattedClaimsIds(modelName, answerText, items);
      FormattedClaimsFields(modelName, answerText, items);
    case None =>
      FallbackShape(modelName, answerText);
      if answerText.JStr? {
        var sentences := Take(Sentences(answerText.s), MaxFallbackClaims);
        SentencesShape(answerText.s);
        assert forall s :: s in sentences ==> s in Sentences(answerText.s);
        SentenceClaimsFields(modelName, answerText, sentences);
      }
  }

  /** A model reply without a parsable `claims` list falls back to the sentences of the answer. */
  lemma FailedModelFallsBack(modelName: string, answer: string, failure: Exc, rt: Runtime)
    ensures ExtractSpec(modelName, JStr(answer), Failure(failure), rt)
      == Success(SentenceClaims(modelName, JStr(answer), Take(Sentences(answer), MaxFallbackClaims)))
  {
  }
}
