/**
 * generateRecommendation: sort a copy of the scored proposals by descending score with
 * the stable Array.prototype.sort, take the head, and give the reasons it stands out,
 * in a fixed order, with a fallback when none applies.
 *
 * The comparator is `b.score - a.score`. Infinity minus a number is Infinity and
 * Infinity minus Infinity is NaN, which the sort treats as 0; so an Infinity score ranks
 * above every number and two Infinity scores tie.
 */
module Recommendation {

  import opened Wrappers
  import opened JsNumber
  import opened Extraction
  import opened Scoring
  import opened Server

  /** `{ ...proposal, parsed, score }`: a stored vendor response with its parse and score. */
  datatype ScoredProposal = ScoredProposal(proposal: VendorResponse, parsed: ParsedProposal, score: Score)

  /** `a` sorts strictly before `b`: the comparator `b.score - a.score` is negative. */
  predicate Outranks(a: Score, b: Score) {
    match a
    case InfiniteScore => b.Score?
    case Score(x) => b.Score? && x > b.points
  }

  /** `a` ranks at least as high as `b`. */
  predicate AtLeastAsHigh(a: Score, b: Score) {
    !Outranks(b, a)
  }

  /** Ranking is a total preorder: any two scores compare, and it is transitive. */
  lemma RankingIsTotalPreorder(a: Score, b: Score, c: Score)
    ensures AtLeastAsHigh(a, b) || AtLeastAsHigh(b, a)
    ensures AtLeastAsHigh(a, b) && AtLeastAsHigh(b, c) ==> AtLeastAsHigh(a, c)
    ensures Outranks(a, b) ==> !Outranks(b, a)
  {
  }

  // ---------------------------------------------------------------- the best proposal

  /** The index of the first proposal with a maximal score. */
  function FirstBestIndex(ps: seq<ScoredProposal>): (i: nat)
    requires |ps| > 0
    ensures i < |ps|
    ensures forall k :: 0 <= k < |ps| ==> AtLeastAsHigh(ps[i].score, ps[k].score)
    ensures forall k :: 0 <= k < i ==> Outranks(ps[i].score, ps[k].score)
  {
    if |ps| == 1 then 0
    else
      var j := FirstBestIndex(ps[1..]);
      assert forall k :: 1 <= k < |ps| ==> ps[k] == ps[1..][k - 1];
      if AtLeastAsHigh(ps[0].score, ps[1 + j].score) then 0 else 1 + j
  }

  // ---------------------------------------------------------------- the stable sort

  /** Insert `x` before the first entry it ranks at least as high as; `x` comes from
      earlier in the input than everything in `sorted`, so ties keep input order. */
  function Insert(x: ScoredProposal, sorted: seq<ScoredProposal>): (r: seq<ScoredProposal>)
    ensures |r| == |sorted| + 1
  {
    if sorted == [] then [x]
    else if AtLeastAsHigh(x.score, sorted[0].score) then [x] + sorted
    else [sorted[0]] + Insert(x, sorted[1..])
  }

  /** `[...ps].sort((a, b) => b.score - a.score)`, a stable sort by descending score. */
  function SortByScore(ps: seq<ScoredProposal>): (r: seq<ScoredProposal>)
    ensures |r| == |ps|
  {
    if ps == [] then [] else Insert(ps[0], SortByScore(ps[1..]))
  }

  predicate Descending(s: seq<ScoredProposal>) {
    forall i, j :: 0 <= i < j < |s| ==> AtLeastAsHigh(s[i].score, s[j].score)
  }

  lemma {:induction false} InsertKeepsElements(x: ScoredProposal, sorted: seq<ScoredProposal>)
    ensures multiset(Insert(x, sorted)) == multiset(sorted) + multiset{x}
  {
    if sorted != [] && !AtLeastAsHigh(x.score, sorted[0].score) {
      InsertKeepsElements(x, sorted[1..]);
      assert sorted == [sorted[0]] + sorted[1..];
    }
  }

  lemma {:induction false} InsertKeepsOrder(x: ScoredProposal, sorted: seq<ScoredProposal>)
    requires Descending(sorted)
    ensures Descending(Insert(x, sorted))
  {
    if sorted != [] && !AtLeastAsHigh(x.score, sorted[0].score) {
      var tail := sorted[1..];
      assert Descending(tail) by {
        forall i, j | 0 <= i < j < |tail| ensures AtLeastAsHigh(tail[i].score, tail[j].score) {
          assert tail[i] == sorted[i + 1] && tail[j] == sorted[j + 1];
        }
      }
      InsertKeepsOrder(x, tail);
      InsertKeepsElements(x, tail);
      var r := Insert(x, sorted);
      var rest := Insert(x, tail);
      assert r == [sorted[0]] + rest;
      forall j | 0 < j < |r| ensures AtLeastAsHigh(sorted[0].score, r[j].score) {
        assert r[j] == rest[j - 1];
        assert r[j] in multiset(rest);
        assert r[j] == x || r[j] in multiset(tail);
        if r[j] != x {
          var k :| 0 <= k < |tail| && tail[k] == r[j];
          assert tail[k] == sorted[k + 1];
        }
      }
    }
  }

  /** The sort is a permutation of its input, in descending order of score. */
  lemma {:induction false} SortIsOrderedPermutation(ps: seq<ScoredProposal>)
    ensures multiset(SortByScore(ps)) == multiset(ps)
    ensures Descending(SortByScore(ps))
  {
    if ps != [] {
      SortIsOrderedPermutation(ps[1..]);
      InsertKeepsElements(ps[0], SortByScore(ps[1..]));
      InsertKeepsOrder(ps[0], SortByScore(ps[1..]));
      assert ps == [ps[0]] + ps[1..];
    }
  }

  /** The head of the sorted copy is the first proposal of maximal score: ties go to the
      proposal that came first. */
  lemma {:induction false} SortHeadIsFirstBest(ps: seq<ScoredProposal>)
    requires |ps| > 0
    ensures SortByScore(ps)[0] == ps[FirstBestIndex(ps)]
  {
    if |ps| > 1 {
      SortHeadIsFirstBest(ps[1..]);
      var j := FirstBestIndex(ps[1..]);
      assert ps[1..][j] == ps[1 + j];
    }
  }

  // ---------------------------------------------------------------- the reasons

  /** `Math.min(...ps.map(p => p.parsed.totalPrice))`, zero totals included. */
  function MinTotal(ps: seq<ScoredProposal>): (m: nat)
    requires |ps| > 0
    ensures exists k :: 0 <= k < |ps| && ps[k].parsed.totalPrice == m
    ensures forall k :: 0 <= k < |ps| ==> m <= ps[k].parsed.totalPrice
  {
    if |ps| == 1 then ps[0].parsed.totalPrice
    else
      var rest := MinTotal(ps[1..]);
      assert forall k :: 1 <= k < |ps| ==> ps[k] == ps[1..][k - 1];
      if ps[0].parsed.totalPrice <= rest then ps[0].parsed.totalPrice else rest
  }

  /** `best.score >= 80`; Infinity passes. */
  predicate HighScore(s: Score) {
    s.InfiniteScore? || s.points >= 80
  }

  /** The reasons a recommendation can give, in the order they are pushed, then the
      fallback. */
  datatype Reason = HighestOverallScore | BestPricing | GoodWarrantyCoverage | FastDelivery | BestAvailableOption

  /** The text shown for a reason. */
  function Message(r: Reason): string {
    match r
    case HighestOverallScore => "Highest overall score"
    case BestPricing => "Best pricing"
    case GoodWarrantyCoverage => "Good warranty coverage"
    case FastDelivery => "Fast delivery"
    case BestAvailableOption => "Best available option"
  }

  /** Position of a reason in the push order. */
  function Rank(r: Reason): nat {
    match r
    case HighestOverallScore => 0
    case BestPricing => 1
    case GoodWarrantyCoverage => 2
    case FastDelivery => 3
    case BestAvailableOption => 4
  }

  /** No two reasons share a text, so the shown list determines the reasons. */
  lemma MessagesDistinct(a: Reason, b: Reason)
    requires a != b
    ensures Message(a) != Message(b)
  {
    if a.BestPricing? || b.BestPricing? {
      assert Message(a)[5] != Message(b)[5] || |Message(a)| != |Message(b)|;
    } else {
      assert Message(a)[0] != Message(b)[0];
    }
  }

  /** Each reason at most once, in push order. */
  predicate InPushOrder(reasons: seq<Reason>) {
    forall i :: 0 <= i < |reasons| - 1 ==> Rank(reasons[i]) < Rank(reasons[i + 1])
  }

  /** `[r]` when the condition holds, else nothing: one conditional push. */
  function Pushed(cond: bool, r: Reason): (p: seq<Reason>)
    ensures r in p <==> cond
    ensures forall x :: x in p ==> x == r
  {
    if cond then [r] else []
  }

  /** The four conditional pushes, in the order the source makes them. */
  function PushedReasons(high: bool, cheapest: bool, warranty: bool, fast: bool): seq<Reason> {
    Pushed(high, HighestOverallScore) + Pushed(cheapest, BestPricing)
    + Pushed(warranty, GoodWarrantyCoverage) + Pushed(fast, FastDelivery)
  }

  /** The pushed list holds exactly the reasons whose condition holds and never the
      fallback. */
  lemma PushedMembership(high: bool, cheapest: bool, warranty: bool, fast: bool)
    ensures var reasons := PushedReasons(high, cheapest, warranty, fast);
      (HighestOverallScore in reasons <==> high) && (BestPricing in reasons <==> cheapest) &&
      (GoodWarrantyCoverage in reasons <==> warranty) && (FastDelivery in reasons <==> fast) &&
      BestAvailableOption !in reasons
  {
    var a, b := Pushed(high, HighestOverallScore), Pushed(cheapest, BestPricing);
    var c, d := Pushed(warranty, GoodWarrantyCoverage), Pushed(fast, FastDelivery);
    assert forall x :: x in a + b + c + d <==> x in a || x in b || x in c || x in d;
  }

  /** The pushed list is in push order, and empty only when no condition holds. */
  lemma PushedInOrder(high: bool, cheapest: bool, warranty: bool, fast: bool)
    ensures var reasons := PushedReasons(high, cheapest, warranty, fast);
      (reasons == [] <==> !high && !cheapest && !warranty && !fast) && InPushOrder(reasons)
  {
    var a, b := Pushed(high, HighestOverallScore), Pushed(cheapest, BestPricing);
    var c, d := Pushed(warranty, GoodWarrantyCoverage), Pushed(fast, FastDelivery);
    var reasons := a + b + c + d;
    assert |reasons| == |a| + |b| + |c| + |d|;
    forall i | 0 <= i < |reasons| - 1 ensures Rank(reasons[i]) < Rank(reasons[i + 1]) {
      InOrderAt(a, b, c, d, i);
    }
  }

  /** Two neighbours in the pushed list come from different pushes, the earlier first. */
  lemma InOrderAt(a: seq<Reason>, b: seq<Reason>, c: seq<Reason>, d: seq<Reason>, i: nat)
    requires |a| <= 1 && |b| <= 1 && |c| <= 1 && |d| <= 1
    requires forall x :: x in a ==> x == HighestOverallScore
    requires forall x :: x in b ==> x == BestPricing
    requires forall x :: x in c ==> x == GoodWarrantyCoverage
    requires forall x :: x in d ==> x == FastDelivery
    requires i + 1 < |a + b + c + d|
    ensures Rank((a + b + c + d)[i]) < Rank((a + b + c + d)[i + 1])
  {
    var s := a + b + c + d;
    var later := if i < |a| then b + c + d else if i < |a| + |b| then c + d else d;
    var first := if i < |a| then a[i] else if i < |a| + |b| then b[i - |a|] else c[i - |a| - |b|];
    assert s[i] == first;
    assert s[i + 1] == later[i + 1 - (|s| - |later|)];
    assert s[i + 1] in later;
    if i < |a| {
      assert a[i] in a;
    } else if i < |a| + |b| {
      assert b[i - |a|] in b;
    } else {
      assert c[i - |a| - |b|] in c;
    }
  }

  /** The recommended proposal and why. */
  datatype Recommended = Recommended(vendor: ScoredProposal, reasons: seq<Reason>)

  /** generateRecommendation(scoredProposals). On an empty list `sorted[0]` is undefined
      and reading its score throws; that is None here. */
  method GenerateRecommendation(scored: seq<ScoredProposal>) returns (rec: Option<Recommended>)
    ensures rec.None? <==> scored == []
    ensures rec.Some? ==> rec.value.vendor == scored[FirstBestIndex(scored)]
    ensures rec.Some? ==> |rec.value.reasons| > 0 && InPushOrder(rec.value.reasons)
    ensures rec.Some? ==>
      (HighestOverallScore in rec.value.reasons <==> HighScore(rec.value.vendor.score))
    ensures rec.Some? ==>
      (BestPricing in rec.value.reasons <==> rec.value.vendor.parsed.totalPrice == MinTotal(scored))
    ensures rec.Some? ==>
      (GoodWarrantyCoverage in rec.value.reasons <==> AtLeast(WarrantyYears(rec.value.vendor.parsed), 2))
    ensures rec.Some? ==>
      (FastDelivery in rec.value.reasons <==> AtMost(DeliveryDays(rec.value.vendor.parsed), 30))
    ensures rec.Some? ==>
      (BestAvailableOption in rec.value.reasons <==> rec.value.reasons == [BestAvailableOption])
    ensures rec.Some? ==>
      (rec.value.reasons == [BestAvailableOption] <==>
        !HighScore(rec.value.vendor.score) && rec.value.vendor.parsed.totalPrice != MinTotal(scored) &&
        !AtLeast(WarrantyYears(rec.value.vendor.parsed), 2) &&
        !AtMost(DeliveryDays(rec.value.vendor.parsed), 30))
  {
    if scored == [] {
      return None;
    }
    var sorted := SortByScore(scored);
    var best := sorted[0];
    SortHeadIsFirstBest(scored);
    var high := HighScore(best.score);
    var cheapest := best.parsed.totalPrice == MinTotal(scored);
    var warranty := AtLeast(ParseInt(best.parsed.warranty, Omitted), 2);
    var fast := AtMost(ParseInt(best.parsed.deliveryTime, Omitted), 30);

    var reasons: seq<Reason> := [];
    if high {
      reasons := reasons + [HighestOverallScore];
    }
    ghost var pushed := Pushed(high, HighestOverallScore);
    assert reasons == pushed;
    if cheapest {
      reasons := reasons + [BestPricing];
    }
    pushed := pushed + Pushed(cheapest, BestPricing);
    assert reasons == pushed;
    if warranty {
      reasons := reasons + [GoodWarrantyCoverage];
    }
    pushed := pushed + Pushed(warranty, GoodWarrantyCoverage);
    assert reasons == pushed;
    if fast {
      reasons := reasons + [FastDelivery];
    }
    pushed := pushed + Pushed(fast, FastDelivery);
    assert reasons == PushedReasons(high, cheapest, warranty, fast);
    PushedMembership(high, cheapest, warranty, fast);
    PushedInOrder(high, cheapest, warranty, fast);

    rec := Some(Recommended(best, if |reasons| > 0 then reasons else [BestAvailableOption]));
  }

  /** With one proposal, it is the recommendation, and it always has the best pricing. */
  lemma SingleProposalHasBestPricing(p: ScoredProposal)
    ensures FirstBestIndex([p]) == 0
    ensures MinTotal([p]) == p.parsed.totalPrice
  {
  }
}
