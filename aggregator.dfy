/**
 * The verdict aggregator: reviews are grouped by claim id in the order the
 * ids first appear, each group whose id names a known claim is classified
 * (unanimity first, then plurality), the claims needing evidence are
 * counted, and a consensus ratio is computed over every group reviewed at
 * least twice.
 */
module Aggregator {
  import opened Wrappers
  import opened JsonValue
  import opened Errors
  import opened Schemas

  // ---------------------------------------------------------------------
  // Grouping reviews by claim id
  // ---------------------------------------------------------------------

  /**
   * The dictionary key a claim id stands for: Python's `True` and `False`
   * are the same keys as `1` and `0`.
   */
  function Key(id: Json): Json {
    match id
    case JBool(b) => JNum(if b then 1.0 else 0.0)
    case _ => id
  }

  /** Every review of every verdict, reviewer by reviewer. */
  function AllReviews(verdicts: seq<ReviewerVerdict>): seq<Review> {
    if verdicts == [] then []
    else AllReviews(verdicts[..|verdicts| - 1]) + verdicts[|verdicts| - 1].reviews
  }

  /** The id of the first review whose id cannot be a dictionary key. */
  function FirstUnhashable(rs: seq<Review>): (r: Option<Json>)
    ensures r.Some? ==> !Hashable(r.value)
  {
    if rs == [] then None
    else if !Hashable(rs[0].claimId) then Some(rs[0].claimId)
    else FirstUnhashable(rs[1..])
  }

  /** Only a review whose id is a list or an object stops the grouping. */
  lemma {:induction false} FirstUnhashableNone(rs: seq<Review>)
    ensures FirstUnhashable(rs).None? <==> forall i :: 0 <= i < |rs| ==> Hashable(rs[i].claimId)
  {
    if rs != [] {
      FirstUnhashableNone(rs[1..]);
      assert forall i :: 1 <= i < |rs| ==> rs[i] == rs[1..][i - 1];
    }
  }

  /** The distinct keys of the reviews, in order of first appearance. */
  function Keys(rs: seq<Review>): seq<Json> {
    if rs == [] then []
    else
      var prev := Keys(rs[..|rs| - 1]);
      var k := Key(rs[|rs| - 1].claimId);
      if k in prev then prev else prev + [k]
  }

  /** The reviews filed under key `k`, in order. */
  function ReviewsOf(rs: seq<Review>, k: Json): seq<Review> {
    if rs == [] then []
    else ReviewsOf(rs[..|rs| - 1], k) + (if Key(rs[|rs| - 1].claimId) == k then [rs[|rs| - 1]] else [])
  }

  /** The `reviews_by_claim` dictionary holds exactly the groups of `seen`. */
  ghost predicate GroupsOf(groups: map<Json, seq<Review>>, seen: seq<Review>) {
    (forall k :: k in groups <==> k in Keys(seen))
    && (forall k :: k in groups ==> groups[k] == ReviewsOf(seen, k))
  }

  // ---------------------------------------------------------------------
  // Claim lookup and classification
  // ---------------------------------------------------------------------

  /** Every key of the grouping has a group, and that group is the key's reviews in `rs`. */
  ghost predicate Indexed(g: Grouping, rs: seq<Review>) {
    forall k :: k in g.keys ==> k in g.reviewsByClaim && g.reviewsByClaim[k] == ReviewsOf(rs, k)
  }

  lemma GroupsIndexKeys(g: Grouping, rs: seq<Review>)
    requires g.keys == Keys(rs) && GroupsOf(g.reviewsByClaim, rs)
    ensures Indexed(g, rs)
  {
  }

  /** `{c["claim_id"]: c for c in claims}` */
  function ClaimIndex(claims: seq<Claim>): map<string, Claim> {
    if claims == [] then map[]
    else ClaimIndex(claims[..|claims| - 1])[claims[|claims| - 1].claimId := claims[|claims| - 1]]
  }

  /** The lookup holds every claim id, and under each id the last claim that has it. */
  lemma {:induction false} ClaimIndexLastWins(claims: seq<Claim>, id: string)
    ensures id in ClaimIndex(claims) <==> exists i :: 0 <= i < |claims| && claims[i].claimId == id
    ensures id in ClaimIndex(claims) ==>
      exists i :: 0 <= i < |claims| && claims[i] == ClaimIndex(claims)[id] && claims[i].claimId == id
        && (forall j :: i < j < |claims| ==> claims[j].claimId != id)
  {
    if claims != [] {
      var p := claims[..|claims| - 1];
      ClaimIndexLastWins(p, id);
      assert forall i :: 0 <= i < |p| ==> p[i] == claims[i];
    }
  }

  /** The canonical text of the claim a review key names, if it names one. */
  function Lookup(claims: seq<Claim>, k: Json): Option<string> {
    var index := ClaimIndex(claims);
    if k.JStr? && k.s in index then Some(index[k.s].canonicalText) else None
  }

  /** How many reviews give verdict `v`. */
  function Tally(rs: seq<Review>, v: Verdict): nat {
    if rs == [] then 0
    else Tally(rs[..|rs| - 1], v) + (if rs[|rs| - 1].verdict == v then 1 else 0)
  }

  datatype Category = Supported | Rejected | Disputed | Uncertain

  /** The `if`/`elif` chain: unanimity first, then "more than each other verdict". */
  function Classify(rs: seq<Review>): Category {
    var c, i, u, n := Tally(rs, CORRECT), Tally(rs, INCORRECT), Tally(rs, UNCERTAIN), |rs|;
    if c == n then Supported
    else if i == n then Rejected
    else if u == n then Uncertain
    else if c > i && c > u then Supported
    else if i > c && i > u then Rejected
    else Disputed
  }

  /** Some review asks for evidence (`r.get("evidence_needed", False)` is truthy). */
  predicate AnyEvidence(rs: seq<Review>) {
    exists r :: r in rs && Truthy(r.evidenceNeeded)
  }

  /** The outcome for one known claim. */
  datatype Entry = Entry(text: string, category: Category, evidence: bool)

  /** One entry per key naming a known claim, in key order. */
  function Entries(claims: seq<Claim>, rs: seq<Review>, ks: seq<Json>): seq<Entry> {
    if ks == [] then []
    else
      var k := ks[|ks| - 1];
      var g := ReviewsOf(rs, k);
      Entries(claims, rs, ks[..|ks| - 1])
      + match Lookup(claims, k)
        case None => []
        case Some(t) => [Entry(t, Classify(g), AnyEvidence(g))]
  }

  /** The texts of the entries in category `c`, in order. */
  function TextsIn(es: seq<Entry>, c: Category): seq<string> {
    if es == [] then []
    else TextsIn(es[..|es| - 1], c) + (if es[|es| - 1].category == c then [es[|es| - 1].text] else [])
  }

  /** The number of entries that need evidence. */
  function EvidenceCount(es: seq<Entry>): nat {
    if es == [] then 0
    else EvidenceCount(es[..|es| - 1]) + (if es[|es| - 1].evidence then 1 else 0)
  }

  // ---------------------------------------------------------------------
  // Consensus
  // ---------------------------------------------------------------------

  /** `len(set(verdicts)) == 1` for a non-empty group. */
  predicate Unanimous(rs: seq<Review>) {
    forall i :: 0 <= i < |rs| ==> rs[i].verdict == rs[0].verdict
  }

  /** The number of keys with at least two reviews. */
  function MultiCount(rs: seq<Review>, ks: seq<Json>): nat {
    if ks == [] then 0
    else MultiCount(rs, ks[..|ks| - 1]) + (if |ReviewsOf(rs, ks[|ks| - 1])| >= 2 then 1 else 0)
  }

  /** The number of keys with at least two reviews, all alike. */
  function AgreeCount(rs: seq<Review>, ks: seq<Json>): (r: nat)
    ensures r <= MultiCount(rs, ks)
  {
    if ks == [] then 0
    else
      var g := ReviewsOf(rs, ks[|ks| - 1]);
      AgreeCount(rs, ks[..|ks| - 1]) + (if |g| >= 2 && Unanimous(g) then 1 else 0)
  }

  /**
   * `_calculate_consensus`: 0 without reviews or claims, 0.5 when no key
   * has two reviews, otherwise the share of keys reviewed at least twice
   * whose reviews all agree. Keys of unknown claims are not filtered.
   */
  function Consensus(rs: seq<Review>, ks: seq<Json>, totalClaims: nat): (r: real)
    ensures InUnitRange(r)
    ensures ks == [] || totalClaims == 0 ==> r == 0.0
    ensures ks != [] && totalClaims > 0 && MultiCount(rs, ks) == 0 ==> r == 0.5
    ensures ks != [] && totalClaims > 0 && MultiCount(rs, ks) > 0 ==>
      (r == 1.0 <==> AgreeCount(rs, ks) == MultiCount(rs, ks))
  {
    if ks == [] || totalClaims == 0 then 0.0
    else
      var m := MultiCount(rs, ks);
      if m == 0 then 0.5
      else
        var a := AgreeCount(rs, ks);
        RatioInUnitRange(a, m);
        a as real / m as real
  }

  lemma RatioInUnitRange(a: nat, m: nat)
    requires 0 < m && a <= m
    ensures InUnitRange(a as real / m as real)
    ensures a as real / m as real == 1.0 <==> a == m
  {
    var q := a as real / m as real;
    assert q * m as real == a as real;
  }

  // ---------------------------------------------------------------------
  // The aggregation
  // ---------------------------------------------------------------------

  /** The `TypeError` raised when a review's claim id is used as a dictionary key. */
  function UnhashableError(id: Json): Exc {
    Exc(OtherError("TypeError"), "unhashable type: '" + JsonTypeName(id) + "'")
  }

  /** What `aggregate` returns, or the `TypeError` an unhashable claim id raises. */
  function AggregateSpec(claims: seq<Claim>, verdicts: seq<ReviewerVerdict>): Outcome<Aggregation> {
    var rs := AllReviews(verdicts);
    match FirstUnhashable(rs)
    case Some(id) => Failure(UnhashableError(id))
    case None =>
      var ks := Keys(rs);
      var es := Entries(claims, rs, ks);
      Success(Aggregation(
        |claims|,
        TextsIn(es, Supported), TextsIn(es, Rejected), TextsIn(es, Disputed), TextsIn(es, Uncertain),
        Consensus(rs, ks, |claims|),
        EvidenceCount(es)))
  }

  /** The `reviews_by_claim` dictionary with its keys in insertion order. */
  datatype Grouping = Grouping(keys: seq<Json>, reviewsByClaim: map<Json, seq<Review>>)

  /** `AggregatorService.aggregate` */
  method Aggregate(claims: seq<Claim>, verdicts: seq<ReviewerVerdict>) returns (r: Outcome<Aggregation>)
    ensures r == AggregateSpec(claims, verdicts)
  {
    var grouped := GroupByClaim(verdicts);
    if grouped.Failure? {
      return Failure(grouped.error);
    }
    var g := grouped.value;
    ghost var rs := AllReviews(verdicts);
    GroupsIndexKeys(g, rs);
    var supported, rejected, disputed, uncertain, evidenceNeeded := Categorize(claims, g, rs);
    var consensus := CalculateConsensus(g, |claims|, rs);
    r := Success(Aggregation(|claims|, supported, rejected, disputed, uncertain, consensus, evidenceNeeded));
  }

  /** The grouping loop of `aggregate`: reviews by claim id, in order of first appearance. */
  method GroupByClaim(verdicts: seq<ReviewerVerdict>) returns (r: Outcome<Grouping>)
    ensures r.Failure? <==> FirstUnhashable(AllReviews(verdicts)).Some?
    ensures r.Failure? ==> r.error == UnhashableError(FirstUnhashable(AllReviews(verdicts)).value)
    ensures r.Success? ==>
      r.value.keys == Keys(AllReviews(verdicts)) && GroupsOf(r.value.reviewsByClaim, AllReviews(verdicts))
  {
    var reviewsByClaim: map<Json, seq<Review>> := map[];
    var keys: seq<Json> := [];
    var vi := 0;
    while vi < |verdicts|
      invariant 0 <= vi <= |verdicts|
      invariant FirstUnhashable(AllReviews(verdicts[..vi])).None?
      invariant keys == Keys(AllReviews(verdicts[..vi]))
      invariant GroupsOf(reviewsByClaim, AllReviews(verdicts[..vi]))
    {
      ghost var seen := AllReviews(verdicts[..vi]);
      var stop;
      stop, keys, reviewsByClaim := GroupReviews(verdicts[vi].reviews, keys, reviewsByClaim, seen);
      if stop.Some? {
        UnhashableFound(verdicts, vi, stop.value, seen + verdicts[vi].reviews[..stop.value]);
        return Failure(UnhashableError(verdicts[vi].reviews[stop.value].claimId));
      }
      NextVerdict(verdicts, vi);
      vi := vi + 1;
    }
    assert verdicts[..vi] == verdicts;
    r := Success(Grouping(keys, reviewsByClaim));
  }

  /**
   * The inner loop of the grouping, over one reviewer's reviews: it stops at
   * the index of the first unhashable id, or adds every review to its group.
   */
  method GroupReviews(reviews: seq<Review>, keys0: seq<Json>, groups0: map<Json, seq<Review>>, ghost seen0: seq<Review>)
    returns (stop: Option<nat>, keys: seq<Json>, groups: map<Json, seq<Review>>)
    requires FirstUnhashable(seen0).None? && keys0 == Keys(seen0) && GroupsOf(groups0, seen0)
    ensures stop.Some? ==>
      stop.value < |reviews| && FirstUnhashable(seen0 + reviews[..stop.value]).None?
      && !Hashable(reviews[stop.value].claimId)
    ensures stop.None? ==>
      FirstUnhashable(seen0 + reviews).None? && keys == Keys(seen0 + reviews) && GroupsOf(groups, seen0 + reviews)
  {
    keys, groups := keys0, groups0;
    ghost var seen := seen0;
    var ri := 0;
    while ri < |reviews|
      invariant 0 <= ri <= |reviews|
      invariant seen == seen0 + reviews[..ri]
      invariant FirstUnhashable(seen).None?
      invariant keys == Keys(seen)
      invariant GroupsOf(groups, seen)
    {
      var review := reviews[ri];
      if !Hashable(review.claimId) {
        return Some(ri), keys, groups;
      }
      var k := Key(review.claimId);
      GroupStep(groups, seen, review);
      if k in groups {
        groups := groups[k := groups[k] + [review]];
      } else {
        keys := keys + [k];
        groups := groups[k := [review]];
      }
      FirstUnhashableAppend(seen, [review]);
      SlicePush(seen0, reviews, ri);
      seen := seen + [review];
      ri := ri + 1;
    }
    assert reviews[..ri] == reviews;
    stop := None;
  }

  lemma EntriesPush(claims: seq<Claim>, rs: seq<Review>, ks: seq<Json>, i: nat)
    requires i < |ks|
    ensures Entries(claims, rs, ks[..i + 1]) == Entries(claims, rs, ks[..i])
      + match Lookup(claims, ks[i])
        case None => []
        case Some(t) => [Entry(t, Classify(ReviewsOf(rs, ks[i])), AnyEvidence(ReviewsOf(rs, ks[i])))]
  {
    assert ks[..i + 1][..i] == ks[..i];
  }

  lemma EntriesStep(claims: seq<Claim>, claimLookup: map<string, Claim>, rs: seq<Review>, ks: seq<Json>, i: nat, reviews: seq<Review>)
    requires i < |ks| && claimLookup == ClaimIndex(claims) && reviews == ReviewsOf(rs, ks[i])
    ensures ks[i].JStr? && ks[i].s in claimLookup ==>
      Entries(claims, rs, ks[..i + 1])
      == Entries(claims, rs, ks[..i]) + [Entry(claimLookup[ks[i].s].canonicalText, Classify(reviews), AnyEvidence(reviews))]
    ensures !(ks[i].JStr? && ks[i].s in claimLookup) ==> Entries(claims, rs, ks[..i + 1]) == Entries(claims, rs, ks[..i])
  {
    EntriesPush(claims, rs, ks, i);
    assert Entries(claims, rs, ks[..i]) + [] == Entries(claims, rs, ks[..i]);
  }

  lemma EntryPush(es: seq<Entry>, e: Entry)
    ensures TextsIn(es + [e], Supported) == TextsIn(es, Supported) + (if e.category == Supported then [e.text] else [])
    ensures TextsIn(es + [e], Rejected) == TextsIn(es, Rejected) + (if e.category == Rejected then [e.text] else [])
    ensures TextsIn(es + [e], Disputed) == TextsIn(es, Disputed) + (if e.category == Disputed then [e.text] else [])
    ensures TextsIn(es + [e], Uncertain) == TextsIn(es, Uncertain) + (if e.category == Uncertain then [e.text] else [])
    ensures EvidenceCount(es + [e]) == EvidenceCount(es) + (if e.evidence then 1 else 0)
  {
    assert (es + [e])[..|es|] == es;
  }

  /** The categorising loop of `aggregate`. */
  method Categorize(claims: seq<Claim>, g: Grouping, ghost rs: seq<Review>)
    returns (supported: seq<string>, rejected: seq<string>, disputed: seq<string>, uncertain: seq<string>, evidenceNeeded: nat)
    requires Indexed(g, rs)
    ensures var es := Entries(claims, rs, g.keys);
      && supported == TextsIn(es, Supported) && rejected == TextsIn(es, Rejected)
      && disputed == TextsIn(es, Disputed) && uncertain == TextsIn(es, Uncertain)
      && evidenceNeeded == EvidenceCount(es)
  {
    supported, rejected, disputed, uncertain, evidenceNeeded := [], [], [], [], 0;
    var keys := g.keys;
    var claimLookup := ClaimIndex(claims);
    ghost var es: seq<Entry> := [];
    var ki := 0;
    while ki < |keys|
      invariant 0 <= ki <= |keys|
      invariant es == Entries(claims, rs, keys[..ki])
      invariant supported == TextsIn(es, Supported) && rejected == TextsIn(es, Rejected)
      invariant disputed == TextsIn(es, Disputed) && uncertain == TextsIn(es, Uncertain)
      invariant evidenceNeeded == EvidenceCount(es)
    {
      var claimId := keys[ki];
      assert claimId in keys;
      var reviews := g.reviewsByClaim[claimId];
      EntriesStep(claims, claimLookup, rs, keys, ki, reviews);
      if claimId.JStr? && claimId.s in claimLookup {
        ghost var e := Entry(claimLookup[claimId.s].canonicalText, Classify(reviews), AnyEvidence(reviews));
        EntryPush(es, e);
        es := es + [e];
      }
      supported, rejected, disputed, uncertain, evidenceNeeded :=
        CategorizeOne(claimLookup, claimId, reviews, supported, rejected, disputed, uncertain, evidenceNeeded);
      ki := ki + 1;
    }
    assert keys[..ki] == keys;
  }

  /**
   * One pass of the categorising loop: the claim the key names, if any,
   * joins the list of its category, and counts when its reviews ask for
   * evidence.
   */
  method CategorizeOne(claimLookup: map<string, Claim>, claimId: Json, reviews: seq<Review>,
                       supported0: seq<string>, rejected0: seq<string>, disputed0: seq<string>, uncertain0: seq<string>,
                       evidenceNeeded0: nat)
    returns (supported: seq<string>, rejected: seq<string>, disputed: seq<string>, uncertain: seq<string>, evidenceNeeded: nat)
    ensures !(claimId.JStr? && claimId.s in claimLookup) ==>
      supported == supported0 && rejected == rejected0 && disputed == disputed0 && uncertain == uncertain0
      && evidenceNeeded == evidenceNeeded0
    ensures claimId.JStr? && claimId.s in claimLookup ==>
      var text, c := claimLookup[claimId.s].canonicalText, Classify(reviews);
      && supported == supported0 + (if c == Supported then [text] else [])
      && rejected == rejected0 + (if c == Rejected then [text] else [])
      && disputed == disputed0 + (if c == Disputed then [text] else [])
      && uncertain == uncertain0 + (if c == Uncertain then [text] else [])
      && evidenceNeeded == evidenceNeeded0 + (if AnyEvidence(reviews) then 1 else 0)
  {
    supported, rejected, disputed, uncertain, evidenceNeeded := supported0, rejected0, disputed0, uncertain0, evidenceNeeded0;
    if !(claimId.JStr? && claimId.s in claimLookup) {
      return;
    }
    var claimText := claimLookup[claimId.s].canonicalText;
    if AnyEvidence(reviews) {
      evidenceNeeded := evidenceNeeded + 1;
    }
    supported, rejected, disputed, uncertain := Place(claimText, reviews, supported, rejected, disputed, uncertain);
  }

  /** The `if`/`elif` chain of `aggregate` appending one claim's text to its list. */
  method Place(claimText: string, reviews: seq<Review>,
               supported0: seq<string>, rejected0: seq<string>, disputed0: seq<string>, uncertain0: seq<string>)
    returns (supported: seq<string>, rejected: seq<string>, disputed: seq<string>, uncertain: seq<string>)
    ensures var c := Classify(reviews);
      && supported == supported0 + (if c == Supported then [claimText] else [])
      && rejected == rejected0 + (if c == Rejected then [claimText] else [])
      && disputed == disputed0 + (if c == Disputed then [claimText] else [])
      && uncertain == uncertain0 + (if c == Uncertain then [claimText] else [])
  {
    supported, rejected, disputed, uncertain := supported0, rejected0, disputed0, uncertain0;
    var correctCount := Tally(reviews, CORRECT);
    var incorrectCount := Tally(reviews, INCORRECT);
    var uncertainCount := Tally(reviews, UNCERTAIN);
    var totalReviews := |reviews|;
    if correctCount == totalReviews {
      supported := supported + [claimText];
    } else if incorrectCount == totalReviews {
      rejected := rejected + [claimText];
    } else if uncertainCount == totalReviews {
      uncertain := uncertain + [claimText];
    } else if correctCount > incorrectCount && correctCount > uncertainCount {
      supported := supported + [claimText];
    } else if incorrectCount > correctCount && incorrectCount > uncertainCount {
      rejected := rejected + [claimText];
    } else {
      disputed := disputed + [claimText];
    }
  }

  /** `_calculate_consensus` over the grouped reviews. */
  method CalculateConsensus(g: Grouping, totalClaims: nat, ghost rs: seq<Review>) returns (score: real)
    requires Indexed(g, rs)
    ensures score == Consensus(rs, g.keys, totalClaims)
  {
    var keys := g.keys;
    if keys == [] || totalClaims == 0 {
      return 0.0;
    }
    var agreementCount := 0;
    var totalComparisons := 0;
    var i := 0;
    while i < |keys|
      invariant 0 <= i <= |keys|
      invariant agreementCount == AgreeCount(rs, keys[..i])
      invariant totalComparisons == MultiCount(rs, keys[..i])
    {
      CountsPush(rs, keys, i);
      assert keys[i] in keys;
      var reviews := g.reviewsByClaim[keys[i]];
      if |reviews| < 2 {
        i := i + 1;
        continue;
      }
      if Unanimous(reviews) {
        agreementCount := agreementCount + 1;
      }
      totalComparisons := totalComparisons + 1;
      i := i + 1;
    }
    assert keys[..i] == keys;
    if totalComparisons == 0 {
      return 0.5;
    }
    score := agreementCount as real / totalComparisons as real;
  }

  // ---------------------------------------------------------------------
  // Lemmas used by the methods
  // ---------------------------------------------------------------------

  lemma SlicePush<T>(pre: seq<T>, xs: seq<T>, i: nat)
    requires i < |xs|
    ensures pre + xs[..i + 1] == (pre + xs[..i]) + [xs[i]]
  {
    assert xs[..i + 1] == xs[..i] + [xs[i]];
  }

  lemma CountsPush(rs: seq<Review>, ks: seq<Json>, i: nat)
    requires i < |ks|
    ensures var g := ReviewsOf(rs, ks[i]);
      && MultiCount(rs, ks[..i + 1]) == MultiCount(rs, ks[..i]) + (if |g| >= 2 then 1 else 0)
      && AgreeCount(rs, ks[..i + 1]) == AgreeCount(rs, ks[..i]) + (if |g| >= 2 && Unanimous(g) then 1 else 0)
  {
    assert ks[..i + 1][..i] == ks[..i];
  }

  lemma {:induction false} AllReviewsAppend(a: seq<ReviewerVerdict>, b: seq<ReviewerVerdict>)
    ensures AllReviews(a + b) == AllReviews(a) + AllReviews(b)
    decreases |b|
  {
    if b == [] {
      assert a + b == a;
    } else {
      assert (a + b)[..|a + b| - 1] == a + b[..|b| - 1];
      AllReviewsAppend(a, b[..|b| - 1]);
    }
  }

  lemma {:induction false} FirstUnhashableAppend(p: seq<Review>, q: seq<Review>)
    requires FirstUnhashable(p).None?
    ensures FirstUnhashable(p + q) == FirstUnhashable(q)
  {
    if p != [] {
      assert (p + q)[0] == p[0];
      assert (p + q)[1..] == p[1..] + q;
      FirstUnhashableAppend(p[1..], q);
    } else {
      assert p + q == q;
    }
  }

  lemma NextVerdict(verdicts: seq<ReviewerVerdict>, vi: int)
    requires 0 <= vi < |verdicts|
    ensures AllReviews(verdicts[..vi + 1]) == AllReviews(verdicts[..vi]) + verdicts[vi].reviews
  {
    assert verdicts[..vi + 1][..vi] == verdicts[..vi];
  }

  lemma AllReviewsAround(verdicts: seq<ReviewerVerdict>, vi: int)
    requires 0 <= vi < |verdicts|
    ensures AllReviews(verdicts) == AllReviews(verdicts[..vi + 1]) + AllReviews(verdicts[vi + 1..])
  {
    assert verdicts == verdicts[..vi + 1] + verdicts[vi + 1..];
    AllReviewsAppend(verdicts[..vi + 1], verdicts[vi + 1..]);
  }

  /** The unhashable id the loop stops at is the first one of all the reviews. */
  lemma UnhashableFound(verdicts: seq<ReviewerVerdict>, vi: int, ri: int, seen: seq<Review>)
    requires 0 <= vi < |verdicts| && 0 <= ri < |verdicts[vi].reviews|
    requires seen == AllReviews(verdicts[..vi]) + verdicts[vi].reviews[..ri]
    requires FirstUnhashable(seen).None? && !Hashable(verdicts[vi].reviews[ri].claimId)
    ensures FirstUnhashable(AllReviews(verdicts)) == Some(verdicts[vi].reviews[ri].claimId)
  {
    var reviews := verdicts[vi].reviews;
    var before := AllReviews(verdicts[..vi]);
    var after := AllReviews(verdicts[vi + 1..]);
    AllReviewsAround(verdicts, vi);
    NextVerdict(verdicts, vi);
    var rest := reviews[ri..] + after;
    SplitAround(before, reviews, after, ri);
    FirstUnhashableAppend(seen, rest);
    assert rest[0] == reviews[ri];
  }

  lemma SplitAround(before: seq<Review>, reviews: seq<Review>, after: seq<Review>, ri: int)
    requires 0 <= ri <= |reviews|
    ensures before + reviews + after == (before + reviews[..ri]) + (reviews[ri..] + after)
  {
    assert reviews == reviews[..ri] + reviews[ri..];
  }

  lemma {:induction false} KeysMember(rs: seq<Review>, k: Json)
    ensures k in Keys(rs) <==> ReviewsOf(rs, k) != []
  {
    if rs != [] {
      KeysMember(rs[..|rs| - 1], k);
    }
  }

  /** One review's step of the grouping loop keeps the dictionary equal to the groups. */
  lemma GroupStep(groups: map<Json, seq<Review>>, seen: seq<Review>, review: Review)
    requires GroupsOf(groups, seen)
    ensures var k := Key(review.claimId);
      Keys(seen + [review]) == (if k in groups then Keys(seen) else Keys(seen) + [k])
      && GroupsOf(if k in groups then groups[k := groups[k] + [review]] else groups[k := [review]], seen + [review])
  {
    var k := Key(review.claimId);
    var s := seen + [review];
    assert s[..|s| - 1] == seen;
    var g := if k in groups then groups[k := groups[k] + [review]] else groups[k := [review]];
    forall k' ensures k' in g <==> k' in Keys(s) {
      KeysMember(s, k');
      KeysMember(seen, k');
    }
    forall k' | k' in g ensures g[k'] == ReviewsOf(s, k') {
      if k' != k {
        KeysMember(seen, k');
      } else if k !in groups {
        KeysMember(seen, k);
      }
    }
  }

  // ---------------------------------------------------------------------
  // Properties of the grouping
  // ---------------------------------------------------------------------

  /** Each reviewed id is grouped, and only reviewed ids are. */
  lemma KeysAreReviewedIds(rs: seq<Review>, k: Json)
    ensures k in Keys(rs) <==> exists i :: 0 <= i < |rs| && Key(rs[i].claimId) == k
  {
    KeysMember(rs, k);
    ReviewsOfMembers(rs, k);
  }

  lemma {:induction false} ReviewsOfMembers(rs: seq<Review>, k: Json)
    ensures ReviewsOf(rs, k) != [] <==> exists i :: 0 <= i < |rs| && Key(rs[i].claimId) == k
  {
    if rs != [] {
      var p := rs[..|rs| - 1];
      ReviewsOfMembers(p, k);
      if ReviewsOf(p, k) != [] {
        var i :| 0 <= i < |p| && Key(p[i].claimId) == k;
        assert rs[i] == p[i];
      }
      if exists i :: 0 <= i < |rs| && Key(rs[i].claimId) == k {
        var i :| 0 <= i < |rs| && Key(rs[i].claimId) == k;
        if i < |p| {
          assert p[i] == rs[i];
        }
      }
    }
  }

  /** Each id is classified at most once: the grouped keys are distinct. */
  lemma {:induction false} KeysDistinct(rs: seq<Review>)
    ensures forall i, j :: 0 <= i < j < |Keys(rs)| ==> Keys(rs)[i] != Keys(rs)[j]
  {
    if rs != [] {
      KeysDistinct(rs[..|rs| - 1]);
    }
  }

  // ---------------------------------------------------------------------
  // Properties of the classification
  // ---------------------------------------------------------------------

  lemma TallyPush(p: seq<Review>, r: Review, v: Verdict)
    ensures Tally(p + [r], v) == Tally(p, v) + (if r.verdict == v then 1 else 0)
  {
    assert (p + [r])[..|p|] == p;
  }

  lemma {:induction false} TallySum(rs: seq<Review>)
    ensures Tally(rs, CORRECT) + Tally(rs, INCORRECT) + Tally(rs, UNCERTAIN) == |rs|
  {
    if rs != [] {
      TallySum(rs[..|rs| - 1]);
    }
  }

  lemma {:induction false} TallyAll(rs: seq<Review>, v: Verdict)
    ensures Tally(rs, v) <= |rs|
    ensures Tally(rs, v) == |rs| <==> forall i :: 0 <= i < |rs| ==> rs[i].verdict == v
  {
    if rs != [] {
      var p := rs[..|rs| - 1];
      TallyAll(p, v);
      assert forall i :: 0 <= i < |p| ==> p[i] == rs[i];
    }
  }

  /**
   * For a non-empty group: supported exactly when CORRECT outnumbers each
   * other verdict, rejected exactly when INCORRECT does, uncertain exactly
   * when every review is UNCERTAIN, disputed otherwise.
   */
  lemma ClassifyIsPlurality(rs: seq<Review>)
    requires rs != []
    ensures var c, i, u := Tally(rs, CORRECT), Tally(rs, INCORRECT), Tally(rs, UNCERTAIN);
      && (Classify(rs) == Supported <==> c > i && c > u)
      && (Classify(rs) == Rejected <==> i > c && i > u)
      && (Classify(rs) == Uncertain <==> forall j :: 0 <= j < |rs| ==> rs[j].verdict == UNCERTAIN)
      && (Classify(rs) == Disputed <==> !(c > i && c > u) && !(i > c && i > u) && u < |rs|)
  {
    TallySum(rs);
    TallyAll(rs, UNCERTAIN);
  }

  /** Two reviews that disagree leave the claim disputed. */
  lemma TwoDissentingReviewsDisputed(a: Review, b: Review)
    requires a.verdict != b.verdict
    ensures Classify([a, b]) == Disputed
  {
    forall v ensures Tally([a, b], v) == (if a.verdict == v then 1 else 0) + (if b.verdict == v then 1 else 0) {
      TallyPush([], a, v);
      TallyPush([a], b, v);
      assert [] + [a] == [a] && [a] + [b] == [a, b];
    }
  }

  /** A plurality is enough: two CORRECT out of four reviews support a claim. */
  lemma PluralityIsNotMajority(c1: Review, c2: Review, i: Review, u: Review)
    requires c1.verdict == CORRECT && c2.verdict == CORRECT && i.verdict == INCORRECT && u.verdict == UNCERTAIN
    ensures Classify([c1, c2, i, u]) == Supported && 2 * Tally([c1, c2, i, u], CORRECT) == |[c1, c2, i, u]|
  {
    TallyOfFour(c1, c2, i, u, CORRECT);
    TallyOfFour(c1, c2, i, u, INCORRECT);
    TallyOfFour(c1, c2, i, u, UNCERTAIN);
  }

  lemma TallyOfFour(a: Review, b: Review, c: Review, d: Review, v: Verdict)
    ensures Tally([a, b, c, d], v) == (if a.verdict == v then 1 else 0) + (if b.verdict == v then 1 else 0)
      + (if c.verdict == v then 1 else 0) + (if d.verdict == v then 1 else 0)
  {
    TallyPush([], a, v);
    TallyPush([a], b, v);
    TallyPush([a, b], c, v);
    TallyPush([a, b, c], d, v);
    assert [] + [a] == [a] && [a] + [b] == [a, b] && [a, b] + [c] == [a, b, c];
    assert [a, b, c] + [d] == [a, b, c, d];
  }

  // ---------------------------------------------------------------------
  // Properties of the result
  // ---------------------------------------------------------------------

  /** The keys that name a known claim. */
  function KnownKeys(claims: seq<Claim>, ks: seq<Json>): seq<Json> {
    if ks == [] then []
    else KnownKeys(claims, ks[..|ks| - 1]) + (if Lookup(claims, ks[|ks| - 1]).Some? then [ks[|ks| - 1]] else [])
  }

  /** One entry per known key. */
  lemma {:induction false} EntriesPerKnownKey(claims: seq<Claim>, rs: seq<Review>, ks: seq<Json>)
    ensures |Entries(claims, rs, ks)| == |KnownKeys(claims, ks)|
  {
    if ks != [] {
      EntriesPerKnownKey(claims, rs, ks[..|ks| - 1]);
    }
  }

  /** Every entry lands in exactly one of the four lists, and at most every entry needs evidence. */
  lemma {:induction false} Partition(es: seq<Entry>)
    ensures |TextsIn(es, Supported)| + |TextsIn(es, Rejected)| + |TextsIn(es, Disputed)| + |TextsIn(es, Uncertain)| == |es|
    ensures EvidenceCount(es) <= |es|
  {
    if es != [] {
      Partition(es[..|es| - 1]);
    }
  }

  /**
   * A successful aggregation counts every claim, and its four lists
   * together hold one text per distinct reviewed id that names a known
   * claim; the evidence count is at most that number.
   */
  lemma AggregatePartition(claims: seq<Claim>, verdicts: seq<ReviewerVerdict>)
    requires AggregateSpec(claims, verdicts).Success?
    ensures var a := AggregateSpec(claims, verdicts).value;
      var known := |KnownKeys(claims, Keys(AllReviews(verdicts)))|;
      && a.totalClaims == |claims|
      && |a.supported| + |a.rejected| + |a.disputed| + |a.uncertain| == known
      && a.evidenceNeeded <= known
  {
    var rs := AllReviews(verdicts);
    EntriesPerKnownKey(claims, rs, Keys(rs));
    Partition(Entries(claims, rs, Keys(rs)));
  }

  /** The aggregation fails exactly when some claim id is a list or an object. */
  lemma AggregateFailsIffUnhashable(claims: seq<Claim>, verdicts: seq<ReviewerVerdict>)
    ensures AggregateSpec(claims, verdicts).Failure? <==>
      exists i :: 0 <= i < |AllReviews(verdicts)| && !Hashable(AllReviews(verdicts)[i].claimId)
  {
    var rs := AllReviews(verdicts);
    FirstUnhashableNone(rs);
    if FirstUnhashable(rs).Some? {
      assert AggregateSpec(claims, verdicts).Failure?;
      var i :| 0 <= i < |rs| && !Hashable(rs[i].claimId);
      assert !Hashable(AllReviews(verdicts)[i].claimId);
    } else {
      assert AggregateSpec(claims, verdicts).Success?;
    }
  }

  /** The reviews whose id names a known claim. */
  function Known(claims: seq<Claim>, rs: seq<Review>): seq<Review> {
    if rs == [] then []
    else
      var r := rs[|rs| - 1];
      Known(claims, rs[..|rs| - 1]) + (if Lookup(claims, Key(r.claimId)).Some? then [r] else [])
  }

  lemma {:induction false} ReviewsOfKnown(claims: seq<Claim>, rs: seq<Review>, k: Json)
    requires Lookup(claims, k).Some?
    ensures ReviewsOf(Known(claims, rs), k) == ReviewsOf(rs, k)
  {
    if rs != [] {
      var p, r := rs[..|rs| - 1], rs[|rs| - 1];
      ReviewsOfKnown(claims, p, k);
      var kp := Known(claims, p);
      var tail := if Key(r.claimId) == k then [r] else [];
      assert ReviewsOf(rs, k) == ReviewsOf(p, k) + tail;
      if Lookup(claims, Key(r.claimId)).Some? {
        assert Known(claims, rs) == kp + [r];
        assert (kp + [r])[..|kp|] == kp;
        assert ReviewsOf(kp + [r], k) == ReviewsOf(kp, k) + tail;
      } else {
        assert Known(claims, rs) == kp;
        assert tail == [];
      }
    }
  }

  lemma {:induction false} KnownKeysAppend(claims: seq<Claim>, a: seq<Json>, b: seq<Json>)
    ensures KnownKeys(claims, a + b) == KnownKeys(claims, a) + KnownKeys(claims, b)
    decreases |b|
  {
    if b == [] {
      assert a + b == a;
    } else {
      assert (a + b)[..|a + b| - 1] == a + b[..|b| - 1];
      KnownKeysAppend(claims, a, b[..|b| - 1]);
    }
  }

  lemma KnownKeysSingle(claims: seq<Claim>, k: Json)
    ensures KnownKeys(claims, [k]) == if Lookup(claims, k).Some? then [k] else []
  {
    assert [k][..0] == [];
  }

  lemma {:induction false} KeysOfKnown(claims: seq<Claim>, rs: seq<Review>)
    ensures KnownKeys(claims, Keys(rs)) == Keys(Known(claims, rs))
  {
    if rs != [] {
      var p, r := rs[..|rs| - 1], rs[|rs| - 1];
      var k := Key(r.claimId);
      KeysOfKnown(claims, p);
      var kp := Known(claims, p);
      var added := if k in Keys(p) then [] else [k];
      assert Keys(rs) == Keys(p) + added;
      KnownKeysAppend(claims, Keys(p), added);
      KnownKeysSingle(claims, k);
      if Lookup(claims, k).Some? {
        assert Known(claims, rs) == kp + [r];
        assert (kp + [r])[..|kp|] == kp;
        KeysMember(p, k);
        KeysMember(kp, k);
        ReviewsOfKnown(claims, p, k);
        assert Keys(kp + [r]) == Keys(kp) + (if k in Keys(kp) then [] else [k]);
      } else {
        assert Known(claims, rs) == kp;
        assert KnownKeys(claims, added) == [];
      }
    }
  }

  lemma {:induction false} EntriesOfKnownKeys(claims: seq<Claim>, rs: seq<Review>, ks: seq<Json>)
    ensures Entries(claims, rs, ks) == Entries(claims, rs, KnownKeys(claims, ks))
  {
    if ks != [] {
      var p, k := ks[..|ks| - 1], ks[|ks| - 1];
      EntriesOfKnownKeys(claims, rs, p);
      var kk := KnownKeys(claims, p);
      if Lookup(claims, k).Some? {
        assert KnownKeys(claims, ks) == kk + [k];
        assert (kk + [k])[..|kk|] == kk;
        assert Entries(claims, rs, kk + [k]) == Entries(claims, rs, kk) + Entries(claims, rs, ks)[|Entries(claims, rs, p)|..];
      } else {
        assert KnownKeys(claims, ks) == kk;
        assert Entries(claims, rs, ks) == Entries(claims, rs, p);
      }
    }
  }

  lemma {:induction false} EntriesOfKnownReviews(claims: seq<Claim>, rs: seq<Review>, ks: seq<Json>)
    ensures Entries(claims, rs, ks) == Entries(claims, Known(claims, rs), ks)
  {
    if ks != [] {
      EntriesOfKnownReviews(claims, rs, ks[..|ks| - 1]);
      var k := ks[|ks| - 1];
      if Lookup(claims, k).Some? {
        ReviewsOfKnown(claims, rs, k);
      }
    }
  }

  /**
   * Reviews of ids that name no claim change neither the four lists nor the
   * evidence count: the entries are those of the known reviews alone.
   */
  lemma UnknownIdsIgnored(claims: seq<Claim>, rs: seq<Review>)
    ensures Entries(claims, rs, Keys(rs)) == Entries(claims, Known(claims, rs), Keys(Known(claims, rs)))
  {
    EntriesOfKnownKeys(claims, rs, Keys(rs));
    KeysOfKnown(claims, rs);
    EntriesOfKnownReviews(claims, rs, Keys(Known(claims, rs)));
  }

  /** A pair of agreeing reviews of an unknown id still counts towards the consensus. */
  lemma ConsensusCountsUnknownIds(c: Claim, r: Review)
    requires r.claimId == JStr("claim_0") && c.claimId != "claim_0"
    ensures Entries([c], [r, r], Keys([r, r])) == []
    ensures Consensus([r, r], Keys([r, r]), 1) == 1.0
  {
    var k := Key(r.claimId);
    var rs := [r, r];
    assert Keys(rs) == [k] by {
      assert rs[..1] == [r] && [r][..0] == [];
      assert Keys([r]) == [k];
    }
    assert ReviewsOf(rs, k) == rs by {
      assert rs[..1] == [r] && [r][..0] == [];
      assert ReviewsOf([r], k) == [r];
    }
    assert Lookup([c], k).None? by {
      assert [c][..0] == [];
      assert ClaimIndex([c]) == map[c.claimId := c];
    }
    assert [k][..0] == [];
    assert Entries([c], rs, [k]) == [];
    assert MultiCount(rs, [k]) == 1;
    assert AgreeCount(rs, [k]) == 1;
  }
}
