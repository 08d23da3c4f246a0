/**
 * calculateScore: 40 points for price relative to the cheapest proposal of the batch,
 * up to 20 each for warranty, delivery and payment terms, rounded half up.
 *
 * The batch is the list of proposals the component held before this fetch (its
 * `proposals` state, empty on the first load); it is an explicit parameter here.
 * JavaScript's Infinity is kept: `Math.min()` of no price is Infinity, so a priced
 * proposal scored against a batch without a positive total scores Infinity.
 */
module Scoring {

  import opened Wrappers
  import opened Text
  import opened JsNumber
  import opened Extraction

  /** A JavaScript number as the scorer produces it: finite, or +Infinity. */
  datatype Extended = Finite(value: real) | Infinity

  /** What calculateScore returns: a whole number, or Infinity. */
  datatype Score = Score(points: int) | InfiniteScore

  // ---------------------------------------------------------------- the price term

  /** `proposals.map(p => p.parsed?.totalPrice || Infinity)`: a zero total is falsy. */
  function BatchPrices(batch: seq<ParsedProposal>): (r: seq<Extended>)
    ensures |r| == |batch|
  {
    if batch == [] then []
    else [if batch[0].totalPrice > 0 then Finite(batch[0].totalPrice as real) else Infinity] + BatchPrices(batch[1..])
  }

  /** `p > 0` */
  predicate IsPositive(x: Extended) {
    x.Infinity? || x.value > 0.0
  }

  /** `.filter(p => p > 0)` */
  function KeepPositive(xs: seq<Extended>): (r: seq<Extended>)
    ensures |r| <= |xs|
  {
    if xs == [] then [] else (if IsPositive(xs[0]) then [xs[0]] else []) + KeepPositive(xs[1..])
  }

  function Min2(a: Extended, b: Extended): Extended {
    if a.Infinity? then b
    else if b.Infinity? then a
    else if a.value <= b.value then a else b
  }

  /** `Math.min(...xs)`, which is Infinity when `xs` is empty. */
  function JsMin(xs: seq<Extended>): Extended {
    if xs == [] then Infinity else Min2(xs[0], JsMin(xs[1..]))
  }

  /** The least positive total of the batch, or None when no total is positive. */
  function MinPositiveTotal(batch: seq<ParsedProposal>): (r: Option<nat>)
    ensures r.None? <==> forall k :: 0 <= k < |batch| ==> batch[k].totalPrice == 0
    ensures r.Some? ==> r.value > 0 && exists k :: 0 <= k < |batch| && batch[k].totalPrice == r.value
    ensures r.Some? ==> forall k :: 0 <= k < |batch| && batch[k].totalPrice > 0 ==> r.value <= batch[k].totalPrice
  {
    if batch == [] then None
    else
      var rest := MinPositiveTotal(batch[1..]);
      var t := batch[0].totalPrice;
      assert forall k :: 1 <= k < |batch| ==> batch[k] == batch[1..][k - 1];
      if t == 0 then rest
      else if rest.None? || t <= rest.value then Some(t)
      else rest
  }

  /** Mapping zero totals to Infinity, filtering and taking Math.min computes the least
      positive total, with Infinity standing for "there is none". */
  lemma {:induction false} BatchMinimum(batch: seq<ParsedProposal>)
    ensures JsMin(KeepPositive(BatchPrices(batch))) ==
      match MinPositiveTotal(batch)
      case None => Infinity
      case Some(m) => Finite(m as real)
  {
    if batch != [] {
      BatchMinimum(batch[1..]);
      var head := if batch[0].totalPrice > 0 then Finite(batch[0].totalPrice as real) else Infinity;
      assert BatchPrices(batch) == [head] + BatchPrices(batch[1..]);
      assert ([head] + BatchPrices(batch[1..]))[1..] == BatchPrices(batch[1..]);
    }
  }

  /** The price term of the sum, against the reference minimum: 0 without a price,
      Infinity when the batch has no positive total, else 40 times min over total. */
  function PriceTerm(total: nat, batch: seq<ParsedProposal>): (r: Extended)
  {
    if total == 0 then Finite(0.0)
    else
      match MinPositiveTotal(batch)
      case None => Infinity
      case Some(m) => Finite(40.0 * (m as real / total as real))
  }

  // ---------------------------------------------------------------- the three tiered terms

  /** `n >= k` where NaN (None) compares false. */
  predicate AtLeast(n: Option<int>, k: int) { n.Some? && n.value >= k }

  /** `n <= k` where NaN (None) compares false. */
  predicate AtMost(n: Option<int>, k: int) { n.Some? && n.value <= k }

  function WarrantyPoints(years: Option<int>): (p: nat)
    ensures p == 0 || p == 10 || p == 15 || p == 20
  {
    if AtLeast(years, 3) then 20 else if AtLeast(years, 2) then 15 else if AtLeast(years, 1) then 10 else 0
  }

  function DeliveryPoints(days: Option<int>): (p: nat)
    ensures p == 0 || p == 10 || p == 15 || p == 20
  {
    if AtMost(days, 14) then 20 else if AtMost(days, 30) then 15 else if AtMost(days, 45) then 10 else 0
  }

  function PaymentPoints(net: Option<int>): (p: nat)
    ensures p == 0 || p == 10 || p == 15 || p == 20
  {
    if AtLeast(net, 60) then 20 else if AtLeast(net, 45) then 15 else if AtLeast(net, 30) then 10 else 0
  }

  /** `parseInt(parsed.warranty)` */
  function WarrantyYears(p: ParsedProposal): Option<int> {
    ParseInt(p.warranty, Omitted)
  }

  /** `parseInt(parsed.deliveryTime)`: the number only, so "2 weeks" counts as 2 days. */
  function DeliveryDays(p: ParsedProposal): Option<int> {
    ParseInt(p.deliveryTime, Omitted)
  }

  /** `parseInt(parsed.paymentTerms?.match(/\d+/)?.[0])`: parseInt(undefined) is NaN. */
  function NetDays(p: ParsedProposal): Option<int> {
    match FirstDigitRun(p.paymentTerms)
    case None => None
    case Some(d) => ParseInt(d, Omitted)
  }

  function NonPricePoints(p: ParsedProposal): nat {
    WarrantyPoints(WarrantyYears(p)) + DeliveryPoints(DeliveryDays(p)) + PaymentPoints(NetDays(p))
  }

  // ---------------------------------------------------------------- the score

  function Plus(x: Extended, y: real): Extended {
    match x
    case Infinity => Infinity
    case Finite(v) => Finite(v + y)
  }

  /** Math.round: to the nearest whole number, halves rounded up; Infinity stays Infinity. */
  function Round(x: Extended): (r: Score)
    ensures r.InfiniteScore? <==> x.Infinity?
    ensures x.Finite? ==> r.points as real - 0.5 <= x.value < r.points as real + 0.5
  {
    match x
    case Infinity => InfiniteScore
    case Finite(v) => Score((v + 0.5).Floor)
  }

  /** The score of `p` against `batch`, by the reference minimum. */
  function ScoreOf(p: ParsedProposal, batch: seq<ParsedProposal>): (score: Score)
  {
    Round(Plus(PriceTerm(p.totalPrice, batch), NonPricePoints(p) as real))
  }

  /** `40 * (minPrice / parsed.totalPrice)` */
  function PriceShare(minPrice: Extended, total: nat): Extended
    requires total > 0
  {
    match minPrice
    case Infinity => Infinity
    case Finite(m) => Finite(40.0 * (m / total as real))
  }

  /** calculateScore(parsed), with the component's `proposals` passed as `batch`. */
  method CalculateScore(parsed: ParsedProposal, batch: seq<ParsedProposal>) returns (score: Score)
    ensures score == ScoreOf(parsed, batch)
  {
    var sum: Extended := Finite(0.0);
    if parsed.totalPrice > 0 {
      var allPrices := BatchPrices(batch);
      var minPrice := JsMin(KeepPositive(allPrices));
      BatchMinimum(batch);
      if IsPositive(minPrice) {
        var share := PriceShare(minPrice, parsed.totalPrice);
        sum := if share.Infinity? then Infinity else Plus(sum, share.value);
      }
    }
    ghost var priceTerm := sum;
    assert priceTerm == PriceTerm(parsed.totalPrice, batch);

    var warrantyYears := ParseInt(parsed.warranty, Omitted);
    if AtLeast(warrantyYears, 3) { sum := Plus(sum, 20.0); }
    else if AtLeast(warrantyYears, 2) { sum := Plus(sum, 15.0); }
    else if AtLeast(warrantyYears, 1) { sum := Plus(sum, 10.0); }
    ghost var afterWarranty := sum;
    assert afterWarranty == Plus(priceTerm, WarrantyPoints(warrantyYears) as real);

    var deliveryDays := ParseInt(parsed.deliveryTime, Omitted);
    if AtMost(deliveryDays, 14) { sum := Plus(sum, 20.0); }
    else if AtMost(deliveryDays, 30) { sum := Plus(sum, 15.0); }
    else if AtMost(deliveryDays, 45) { sum := Plus(sum, 10.0); }
    ghost var afterDelivery := sum;
    assert afterDelivery == Plus(afterWarranty, DeliveryPoints(deliveryDays) as real);

    var netDays := NetDays(parsed);
    if AtLeast(netDays, 60) { sum := Plus(sum, 20.0); }
    else if AtLeast(netDays, 45) { sum := Plus(sum, 15.0); }
    else if AtLeast(netDays, 30) { sum := Plus(sum, 10.0); }
    assert sum == Plus(afterDelivery, PaymentPoints(netDays) as real);
    PlusThree(priceTerm, WarrantyPoints(warrantyYears), DeliveryPoints(deliveryDays), PaymentPoints(netDays));
    assert sum == Plus(PriceTerm(parsed.totalPrice, batch), NonPricePoints(parsed) as real);

    // Math.round((score / maxScore) * 100) with maxScore = 100
    score := Round(match sum case Infinity => Infinity case Finite(v) => Finite(v / 100.0 * 100.0));
  }

  /** Adding three terms one by one is adding their sum. */
  lemma PlusThree(x: Extended, a: nat, b: nat, c: nat)
    ensures Plus(Plus(Plus(x, a as real), b as real), c as real) == Plus(x, (a + b + c) as real)
  {
  }

  // ---------------------------------------------------------------- reading the fields back

  /** `"Net " + d` holds exactly one run of digits, `d`. */
  lemma FirstDigitRunAfterNet(d: string)
    requires IsDigits(d)
    ensures FirstDigitRun("Net " + d) == Some(d)
  {
    var s := "Net " + d;
    assert IsDigit(s[4]);
    var k := NextDigit(s, 0);
    assert !IsDigit(s[0]) && !IsDigit(s[1]) && !IsDigit(s[2]) && !IsDigit(s[3]);
    assert k == 4;
    var e := RunEnd(s, 4, Decimal);
    assert forall q :: 4 <= q < |s| ==> IsDigit(s[q]) by {
      forall q | 4 <= q < |s| ensures IsDigit(s[q]) { assert s[q] == d[q - 4]; }
    }
    assert e == |s|;
    assert s[4..e] == d;
    assert FirstDigitRun(s) == Some(s[k..e]);
  }

  /** The warranty field that parseProposal writes is read back by parseInt as the number
      of years it captured; "Not specified" reads as NaN. */
  lemma WarrantyYearsOfTerms(s: string)
    ensures WarrantyYears(Terms(s)) ==
      match FirstMatch(Warranty, s)
      case None => None
      case Some(c) => Some(Value(c.amount, Decimal))
  {
    match FirstMatch(Warranty, s)
    case None => ParseIntOfNonNumeric(NotSpecified, Omitted);
    case Some(c) => ParseIntOfLeadingDigits(c.amount, " years", Omitted);
  }

  /** The delivery field is read back as the captured number, whatever its unit: "2 weeks"
      counts as 2 days. */
  lemma DeliveryDaysOfTerms(s: string)
    ensures DeliveryDays(Terms(s)) ==
      match FirstMatch(Delivery, s)
      case None => None
      case Some(c) => Some(Value(c.amount, Decimal))
  {
    match FirstMatch(Delivery, s)
    case None => ParseIntOfNonNumeric(NotSpecified, Omitted);
    case Some(c) =>
      assert c.amount + " " + c.unit == c.amount + (" " + c.unit);
      ParseIntOfLeadingDigits(c.amount, " " + c.unit, Omitted);
  }

  /** The payment field is read back as the number of days after "Net". */
  lemma NetDaysOfTerms(s: string)
    ensures NetDays(Terms(s)) ==
      match FirstMatch(Payment, s)
      case None => None
      case Some(c) => Some(Value(c.amount, Decimal))
  {
    match FirstMatch(Payment, s)
    case None =>
      assert forall k :: 0 <= k < |NotSpecified| ==> !IsDigit(NotSpecified[k]);
    case Some(c) =>
      FirstDigitRunAfterNet(c.amount);
      assert c.amount + [] == c.amount;
      ParseIntOfLeadingDigits(c.amount, [], Omitted);
  }

  // ---------------------------------------------------------------- properties of the score

  /** More warranty years and more net days never earn fewer points, and more delivery
      days never earn more; a field that is not a number (NaN) earns nothing. */
  lemma TiersAreMonotone(a: int, b: int)
    requires a <= b
    ensures WarrantyPoints(Some(a)) <= WarrantyPoints(Some(b))
    ensures DeliveryPoints(Some(a)) >= DeliveryPoints(Some(b))
    ensures PaymentPoints(Some(a)) <= PaymentPoints(Some(b))
    ensures WarrantyPoints(None) == DeliveryPoints(None) == PaymentPoints(None) == 0
  {
  }

  /** Every threshold is inclusive: 3, 2 and 1 years; 14, 30 and 45 days; Net 60, 45 and 30. */
  lemma TierThresholds(n: int)
    ensures WarrantyPoints(Some(n)) == 20 <==> n >= 3
    ensures WarrantyPoints(Some(n)) >= 15 <==> n >= 2
    ensures WarrantyPoints(Some(n)) >= 10 <==> n >= 1
    ensures DeliveryPoints(Some(n)) == 20 <==> n <= 14
    ensures DeliveryPoints(Some(n)) >= 15 <==> n <= 30
    ensures DeliveryPoints(Some(n)) >= 10 <==> n <= 45
    ensures PaymentPoints(Some(n)) == 20 <==> n >= 60
    ensures PaymentPoints(Some(n)) >= 15 <==> n >= 45
    ensures PaymentPoints(Some(n)) >= 10 <==> n >= 30
  {
  }

  /** The three tiers together give at most 60 points. */
  lemma NonPriceAtMostSixty(p: ParsedProposal)
    ensures NonPricePoints(p) <= 60
  {
  }

  /** A priced proposal scores Infinity exactly when no proposal of the batch has a positive
      total (Math.min of nothing is Infinity); an unpriced one always scores a number. */
  lemma ScoreIsInfiniteIff(p: ParsedProposal, batch: seq<ParsedProposal>)
    ensures ScoreOf(p, batch).InfiniteScore? <==>
      p.totalPrice > 0 && forall k :: 0 <= k < |batch| ==> batch[k].totalPrice == 0
  {
  }

  /** Rounding a whole number leaves it as it is. */
  lemma RoundWhole(n: int)
    ensures Round(Finite(n as real)) == Score(n)
  {
  }

  /** Without a price the score is the tier points alone. */
  lemma UnpricedScore(p: ParsedProposal, batch: seq<ParsedProposal>)
    requires p.totalPrice == 0
    ensures ScoreOf(p, batch) == Score(NonPricePoints(p))
  {
    RoundWhole(NonPricePoints(p));
  }

  /** On the first load the batch is empty: a priced proposal scores Infinity, an unpriced
      one its tier points. */
  lemma FirstLoadScore(p: ParsedProposal)
    ensures ScoreOf(p, []) == if p.totalPrice > 0 then InfiniteScore else Score(NonPricePoints(p))
  {
    if p.totalPrice == 0 {
      UnpricedScore(p, []);
    }
  }

  /** The cheapest priced proposal of the batch gets the full 40 price points. */
  lemma CheapestGetsForty(p: ParsedProposal, batch: seq<ParsedProposal>)
    requires p.totalPrice > 0
    requires exists k :: 0 <= k < |batch| && batch[k].totalPrice == p.totalPrice
    requires forall k :: 0 <= k < |batch| && batch[k].totalPrice > 0 ==> p.totalPrice <= batch[k].totalPrice
    ensures ScoreOf(p, batch) == Score(40 + NonPricePoints(p))
  {
    var m := MinPositiveTotal(batch);
    assert m == Some(p.totalPrice);
    SelfShare(p.totalPrice as real);
    assert PriceTerm(p.totalPrice, batch) == Finite(40.0);
    RoundWhole(40 + NonPricePoints(p));
  }

  /** A positive amount over itself is 1. */
  lemma SelfShare(t: real)
    requires t > 0.0
    ensures t / t == 1.0
  {
    var y := t / t;
    assert y * t == t;
    assert (y - 1.0) * t == 0.0;
  }

  /** `a / b` lies in (0, 1] when 0 < a <= b. */
  lemma ShareAtMostOne(a: real, b: real)
    requires 0.0 < a <= b
    ensures 0.0 < a / b <= 1.0
  {
    assert (a / b) * b == a;
  }

  /** `m / b <= m / a` when 0 < a <= b and m >= 0. */
  lemma ShareDecreases(m: real, a: real, b: real)
    requires m >= 0.0 && 0.0 < a <= b
    ensures m / b <= m / a
  {
    var x, y := m / a, m / b;
    assert x * a == m;
    assert y * b == m;
    assert y * a <= y * b;
  }

  /** A cheaper total never earns fewer price points against the same batch. */
  lemma CheaperScoresHigher(t1: nat, t2: nat, batch: seq<ParsedProposal>)
    requires 0 < t1 <= t2
    requires MinPositiveTotal(batch).Some?
    ensures PriceTerm(t1, batch).value >= PriceTerm(t2, batch).value
  {
    var m := MinPositiveTotal(batch).value as real;
    ShareDecreases(m, t1 as real, t2 as real);
  }

  /** A proposal whose total appears in the batch (as when the batch includes it) scores a
      whole number from 0 to 100. */
  lemma ScoreInRange(p: ParsedProposal, batch: seq<ParsedProposal>)
    requires exists k :: 0 <= k < |batch| && batch[k].totalPrice == p.totalPrice
    ensures ScoreOf(p, batch).Score?
    ensures 0 <= ScoreOf(p, batch).points <= 100
  {
    NonPriceAtMostSixty(p);
    if p.totalPrice > 0 {
      var m := MinPositiveTotal(batch).value;
      ShareAtMostOne(m as real, p.totalPrice as real);
    }
  }

  /** parseInt("3 years") is 3. */
  lemma ReadsThreeYears()
    ensures ParseInt("3 years", Omitted) == Some(3)
  {
    assert Value("3", Decimal) == 3 by { assert "3"[..0] == []; }
    assert "3" + " years" == "3 years";
    ParseIntOfLeadingDigits("3", " years", Omitted);
  }

  /** parseInt("10 days") is 10. */
  lemma ReadsTenDays()
    ensures ParseInt("10 days", Omitted) == Some(10)
  {
    assert Value("10", Decimal) == 10 by { assert "10"[..1] == "1"; assert "1"[..0] == []; }
    assert "10" + " days" == "10 days";
    ParseIntOfLeadingDigits("10", " days", Omitted);
  }

  /** parseInt("Net 60".match(/\d+/)[0]) is 60. */
  lemma ReadsNetSixty()
    ensures NetDays(ParsedProposal([], 0, "", "", "Net 60", [])) == Some(60)
  {
    assert Value("60", Decimal) == 60 by { assert "60"[..1] == "6"; assert "6"[..0] == []; }
    assert "Net " + "60" == "Net 60";
    FirstDigitRunAfterNet("60");
    assert "60" + [] == "60";
    ParseIntOfLeadingDigits("60", [], Omitted);
  }

  /** The tiers of a proposal offering "3 years", "10 days" and "Net 60": all 60 points. */
  lemma BestTiersExample()
    ensures NonPricePoints(ParsedProposal([10000], 10000, "3 years", "10 days", "Net 60", [])) == 60
  {
    ReadsThreeYears();
    ReadsTenDays();
    ReadsNetSixty();
  }

  /** The batch is the list held before the fetch, so it can be stale: a proposal of $100
      scored against an older one of $200 earns 40 * 200 / 100 = 80 price points and, with
      the best tiers, 140 in all. */
  lemma StaleBatchExceedsHundred()
    ensures ScoreOf(ParsedProposal([10000], 10000, "3 years", "10 days", "Net 60", []),
                    [ParsedProposal([20000], 20000, NotSpecified, NotSpecified, NotSpecified, [])])
            == Score(140)
  {
    var p := ParsedProposal([10000], 10000, "3 years", "10 days", "Net 60", []);
    var batch := [ParsedProposal([20000], 20000, NotSpecified, NotSpecified, NotSpecified, [])];
    BestTiersExample();
    assert MinPositiveTotal(batch) == Some(20000);
    assert PriceTerm(10000, batch) == Finite(80.0);
    RoundWhole(140);
  }

  /** Proposals of $100 and $200 in one batch: the cheaper earns 40 price points, the other
      40 * 100 / 200 = 20. */
  lemma TwoProposalPriceTerms(a: ParsedProposal, b: ParsedProposal)
    requires a.totalPrice == 10000 && b.totalPrice == 20000
    ensures PriceTerm(a.totalPrice, [a, b]) == Finite(40.0)
    ensures PriceTerm(b.totalPrice, [a, b]) == Finite(20.0)
  {
    assert [a, b][1..] == [b];
    assert MinPositiveTotal([b]) == Some(20000) by { assert [b][1..] == []; }
    assert MinPositiveTotal([a, b]) == Some(10000);
  }
}
