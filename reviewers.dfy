/**
 * The reviewer service (backend/app/services/reviewers.py): a reviewer model
 * judges the claims; its reply's `reviews` list is filtered by the review
 * validator and formatted. Whatever goes wrong, the reviewer falls back to an
 * UNCERTAIN review of every claim, so reviewing never raises.
 */
module Reviewers {
  import opened Wrappers
  import opened PyText
  import opened JsonValue
  import opened Errors
  import opened Schemas
  import opened Aggregator

  /** The model behind a reviewer name: `Reviewer_A` is Mistral, any other name DeepSeek. */
  function RunnerModel(reviewerName: string): string {
    if reviewerName == "Reviewer_A" then "Mistral-7B" else "DeepSeek-7B"
  }

  /**
   * `all(field in review for field in required_fields)`: a key test on a
   * dict, a substring test on a string, an element test on a list; `None`
   * when `in` raises on a value that is not a container.
   */
  function HasRequiredFields(review: Json): Option<bool> {
    match review
    case JObj(m) => Some("claim_id" in m && "verdict" in m && "reason" in m)
    case JStr(s) => Some(Contains(s, "claim_id") && Contains(s, "verdict") && Contains(s, "reason"))
    case JArr(xs) => Some(JStr("claim_id") in xs && JStr("verdict") in xs && JStr("reason") in xs)
    case _ => None
  }

  /**
   * `_validate_review`: `None` stands for the exception it raises (a string
   * or list holding all three names cannot be indexed by them; a verdict that
   * is not a string has no `upper`).
   */
  function ValidateReview(review: Json): (r: Option<bool>)
    ensures r == Some(true) <==>
      review.JObj? && "claim_id" in review.fields && "verdict" in review.fields && "reason" in review.fields
      && review.fields["verdict"].JStr? && ParseVerdict(Upper(review.fields["verdict"].s)).Some?
    ensures r.None? <==>
      (HasRequiredFields(review).None?
       || (HasRequiredFields(review) == Some(true) && !(review.JObj? && review.fields["verdict"].JStr?)))
  {
    match HasRequiredFields(review)
    case None => None
    case Some(present) =>
      if !present then Some(false)
      else if !review.JObj? then None
      else
        var v := review.fields["verdict"];
        if !v.JStr? then None else Some(ParseVerdict(Upper(v.s)).Some?)
  }

  /** What the formatting loop does with one entry of the `reviews` list. */
  datatype Step = Skip | Keep(review: Review) | Raise

  /** One entry: skipped when invalid, formatted when valid, raising when validation or `float` raises. */
  function ItemStep(item: Json, rt: Runtime): Step {
    match ValidateReview(item)
    case None => Raise
    case Some(valid) =>
      if !valid then Skip
      else
        var m := item.fields;
        match ToFloat(Get(m, "confidence", JNum(0.5)), rt)
        case None => Raise
        case Some(confidence) =>
          Keep(Review(m["claim_id"], ParseVerdict(Upper(m["verdict"].s)).value, m["reason"],
                      Get(m, "evidence_needed", JBool(false)), confidence))
  }

  /** The reviews the loop collects, or `None` when one entry raises. */
  function FormattedReviews(items: seq<Json>, rt: Runtime): Option<seq<Review>> {
    if items == [] then Some([])
    else
      match FormattedReviews(items[..|items| - 1], rt)
      case None => None
      case Some(rs) =>
        match ItemStep(items[|items| - 1], rt)
        case Raise => None
        case Skip => Some(rs)
        case Keep(r) => Some(rs + [r])
  }

  /** The formatting loop of `review_claims`. */
  method FormatReviews(items: seq<Json>, rt: Runtime) returns (r: Option<seq<Review>>)
    ensures r == FormattedReviews(items, rt)
  {
    var reviews: seq<Review> := [];
    var i := 0;
    while i < |items|
      invariant 0 <= i <= |items|
      invariant FormattedReviews(items[..i], rt) == Some(reviews)
    {
      assert items[..i + 1][..i] == items[..i];
      var item := items[i];
      var valid := ValidateReview(item);
      if valid.None? {
        FormattedReviewsRaise(items, i, rt);
        return None;
      }
      if valid.value {
        var m := item.fields;
        var confidence := ToFloat(Get(m, "confidence", JNum(0.5)), rt);
        if confidence.None? {
          FormattedReviewsRaise(items, i, rt);
          return None;
        }
        reviews := reviews + [Review(m["claim_id"], ParseVerdict(Upper(m["verdict"].s)).value, m["reason"],
                                     Get(m, "evidence_needed", JBool(false)), confidence.value)];
      }
      i := i + 1;
    }
    assert items[..i] == items;
    r := Some(reviews);
  }

  /** The loop raises exactly when some entry raises. */
  lemma {:induction false} FormattedReviewsRaiseIff(items: seq<Json>, rt: Runtime)
    ensures FormattedReviews(items, rt).None? <==> exists i :: 0 <= i < |items| && ItemStep(items[i], rt).Raise?
  {
    if items != [] {
      var n := |items| - 1;
      var p := items[..n];
      FormattedReviewsRaiseIff(p, rt);
      if exists i :: 0 <= i < |p| && ItemStep(p[i], rt).Raise? {
        var i :| 0 <= i < |p| && ItemStep(p[i], rt).Raise?;
        assert items[i] == p[i];
      }
      if exists i :: 0 <= i < |items| && ItemStep(items[i], rt).Raise? {
        var i :| 0 <= i < |items| && ItemStep(items[i], rt).Raise?;
        if i < n {
          assert items[i] == p[i];
        }
      }
    }
  }

  /** An entry that raises makes the loop raise, whatever follows it. */
  lemma FormattedReviewsRaise(items: seq<Json>, i: int, rt: Runtime)
    requires 0 <= i < |items| && ItemStep(items[i], rt).Raise?
    ensures FormattedReviews(items, rt).None?
  {
    FormattedReviewsRaiseIff(items, rt);
  }

  /** The formatted valid entries, read front to back: one review per kept entry, repeats included. */
  function Kept(items: seq<Json>, rt: Runtime): seq<Review> {
    if items == [] then []
    else
      (match ItemStep(items[0], rt) case Keep(r) => [r] case _ => []) + Kept(items[1..], rt)
  }

  /** Reading one more entry at the back extends `Kept` by that entry's review, if any. */
  lemma {:induction false} KeptAppend(items: seq<Json>, x: Json, rt: Runtime)
    ensures Kept(items + [x], rt) == Kept(items, rt) + (match ItemStep(x, rt) case Keep(r) => [r] case _ => [])
  {
    if items != [] {
      assert (items + [x])[1..] == items[1..] + [x];
      KeptAppend(items[1..], x, rt);
    }
  }

  /**
   * The collected reviews are exactly the formatted valid entries, in input
   * order and with repeats kept.
   */
  lemma {:induction false} FormattedReviewsExact(items: seq<Json>, rt: Runtime)
    requires FormattedReviews(items, rt).Some?
    ensures var rs := FormattedReviews(items, rt).value;
      |rs| <= |items|
      && (forall r :: r in rs ==> exists i :: 0 <= i < |items| && ItemStep(items[i], rt) == Keep(r))
      && (forall i :: 0 <= i < |items| && ItemStep(items[i], rt).Keep? ==> ItemStep(items[i], rt).review in rs)
    ensures FormattedReviews(items, rt).value == Kept(items, rt)
  {
    if items != [] {
      var n := |items| - 1;
      var p := items[..n];
      FormattedReviewsExact(p, rt);
      assert items == p + [items[n]];
      KeptAppend(p, items[n], rt);
      var rs := FormattedReviews(items, rt).value;
      var ps := FormattedReviews(p, rt).value;
      forall r | r in rs ensures exists i :: 0 <= i < |items| && ItemStep(items[i], rt) == Keep(r) {
        if r in ps {
          var i :| 0 <= i < |p| && ItemStep(p[i], rt) == Keep(r);
          assert items[i] == p[i];
        } else {
          assert ItemStep(items[n], rt) == Keep(r);
        }
      }
      forall i | 0 <= i < |items| && ItemStep(items[i], rt).Keep? ensures ItemStep(items[i], rt).review in rs {
        if i < n {
          assert items[i] == p[i];
        }
      }
    }
  }

  /** Verdicts are read case-insensitively, and the defaults fill in evidence and confidence. */
  lemma LowerCaseVerdictAccepted(rt: Runtime)
    ensures ItemStep(JObj(map["claim_id" := JStr("claim_0"), "verdict" := JStr("incorrect"), "reason" := JStr("wrong")]), rt)
      == Keep(Review(JStr("claim_0"), INCORRECT, JStr("wrong"), JBool(false), 0.5))
  {
    assert Upper("incorrect") == "INCORRECT";
  }

  /** An entry lacking a field is skipped; a text naming all three fields, or a bare number, raises. */
  lemma MalformedEntries(rt: Runtime)
    ensures ItemStep(JObj(map["claim_id" := JStr("claim_0"), "verdict" := JStr("CORRECT")]), rt) == Skip
    ensures ItemStep(JStr("claim_id verdict reason"), rt) == Raise
    ensures ItemStep(JNum(1.0), rt) == Raise
  {
    var s := "claim_id verdict reason";
    assert OccursAt(s, "claim_id", 0) && OccursAt(s, "verdict", 9) && OccursAt(s, "reason", 17);
  }

  // ---------------------------------------------------------------------
  // The fallback and review_claims
  // ---------------------------------------------------------------------

  const FallbackReason := "Unable to verify due to reviewer error"

  /** The fallback's review of one claim. */
  function FallbackReview(c: Claim): Review {
    Review(JStr(c.claimId), UNCERTAIN, JStr(FallbackReason), JBool(true), 0.3)
  }

  /** What `_fallback_reviews` returns. */
  function FallbackVerdict(reviewerName: string, claims: seq<Claim>): (v: ReviewerVerdict)
    ensures |v.reviews| == |claims| == v.totalReviewed
  {
    ReviewerVerdict(reviewerName, seq(|claims|, i requires 0 <= i < |claims| => FallbackReview(claims[i])), |claims|, FallbackRun)
  }

  /** `_fallback_reviews` */
  method FallbackReviews(reviewerName: string, claims: seq<Claim>) returns (v: ReviewerVerdict)
    ensures v == FallbackVerdict(reviewerName, claims)
  {
    var reviews: seq<Review> := [];
    var i := 0;
    while i < |claims|
      invariant 0 <= i <= |claims|
      invariant |reviews| == i
      invariant forall j :: 0 <= j < i ==> reviews[j] == FallbackReview(claims[j])
    {
      reviews := reviews + [Review(JStr(claims[i].claimId), UNCERTAIN, JStr(FallbackReason), JBool(true), 0.3)];
      i := i + 1;
    }
    v := ReviewerVerdict(reviewerName, reviews, |reviews|, FallbackRun);
  }

  /**
   * The fallback reviews every claim by its own id, with hashable ids, and
   * every group of fallback reviews classifies as uncertain.
   */
  lemma FallbackVerdictShape(reviewerName: string, claims: seq<Claim>)
    ensures var rs := FallbackVerdict(reviewerName, claims).reviews;
      (forall i :: 0 <= i < |claims| ==> rs[i].claimId == JStr(claims[i].claimId) && Truthy(rs[i].evidenceNeeded))
      && FirstUnhashable(rs).None?
      && (rs != [] ==> Classify(rs) == Uncertain)
  {
    var rs := FallbackVerdict(reviewerName, claims).reviews;
    FirstUnhashableNone(rs);
    if rs != [] {
      ClassifyIsPlurality(rs);
    }
  }

  /** The reviews `review_claims` formats from the model's reply, if nothing raised. */
  function ModelReviews(response: Outcome<string>, rt: Runtime): Option<seq<Review>> {
    if response.Failure? then None
    else match ReplyList(response.value, "reviews", rt)
      case None => None
      case Some(items) => FormattedReviews(items, rt)
  }

  /** What `review_claims` returns; `response` is the reviewer model call's outcome. */
  function ReviewClaimsSpec(reviewerName: string, claims: seq<Claim>, response: Outcome<string>, rt: Runtime): ReviewerVerdict {
    match ModelReviews(response, rt)
    case None => FallbackVerdict(reviewerName, claims)
    case Some(rs) => ReviewerVerdict(reviewerName, rs, |rs|, ModelRun(RunnerModel(reviewerName)))
  }

  /** `review_claims` */
  method ReviewClaims(reviewerName: string, claims: seq<Claim>, response: Outcome<string>, rt: Runtime)
    returns (v: ReviewerVerdict)
    ensures v == ReviewClaimsSpec(reviewerName, claims, response, rt)
  {
    if response.Success? {
      var items := ReplyList(response.value, "reviews", rt);
      if items.Some? {
        var reviews := FormatReviews(items.value, rt);
        if reviews.Some? {
          return ReviewerVerdict(reviewerName, reviews.value, |reviews.value|, ModelRun(RunnerModel(reviewerName)));
        }
      }
    }
    v := FallbackReviews(reviewerName, claims);
  }

  /**
   * A verdict always names its reviewer and counts its reviews; it is the
   * fallback exactly when the model path failed, and then reviews every
   * claim; otherwise it names the reviewer's model.
   */
  lemma ReviewClaimsShape(reviewerName: string, claims: seq<Claim>, response: Outcome<string>, rt: Runtime)
    ensures var v := ReviewClaimsSpec(reviewerName, claims, response, rt);
      v.reviewerName == reviewerName && v.totalReviewed == |v.reviews|
      && (v.source == FallbackRun <==> ModelReviews(response, rt).None?)
      && (v.source == FallbackRun ==> |v.reviews| == |claims|)
      && (v.source != FallbackRun ==> v.source == ModelRun(RunnerModel(reviewerName)))
  {
  }
}
