/**
 * parseProposal: the terms a vendor's free-text response is reduced to.
 *
 * The four regular expressions are written out as scanners over the text:
 *   prices    /\$?([\d,]+(?:\.\d{2})?)\s*(?:per|each|for)?/gi, every match in order
 *   warranty  /(\d+)\s*years?\s*warranty/i, leftmost match
 *   delivery  /(\d+)\s*(days?|weeks?)/i, leftmost match
 *   payment   /net\s*(\d+)/i, leftmost match
 * Amounts are integer cents: a captured amount has at most two decimals, so a
 * price is exact in cents (the model does not reproduce binary floating point).
 */
module Extraction {

  import opened Wrappers
  import opened Text

  /** The object parseProposal returns. `pricing` and `totalPrice` are in cents. */
  datatype ParsedProposal = ParsedProposal(
    pricing: seq<nat>,
    totalPrice: nat,
    warranty: string,
    deliveryTime: string,
    paymentTerms: string,
    additionalServices: seq<string>)

  const NotSpecified: string := "Not specified"

  /** What every field holds when nothing in the text matches. */
  const Defaults: ParsedProposal := ParsedProposal([], 0, NotSpecified, NotSpecified, NotSpecified, [])

  // ---------------------------------------------------------------- prices

  /** `[\d,]`: a character of a price amount. */
  predicate IsPriceChar(c: char) { IsDigit(c) || c == ',' }

  /** One match of the price pattern: the captured amount is `s[start..stop]`; the match,
      with its trailing white space and optional "per"/"each"/"for", ends at `resume`,
      where the next search starts. `cents` is the amount's value. */
  datatype PriceMatch = PriceMatch(start: nat, stop: nat, resume: nat, cents: nat)

  /** End of the greedy `[\d,]+` that starts at `k`. */
  function PriceRunEnd(s: string, k: nat): (e: nat)
    requires k <= |s|
    ensures k <= e <= |s|
    ensures forall q :: k <= q < e ==> IsPriceChar(s[q])
    ensures e == |s| || !IsPriceChar(s[e])
    decreases |s| - k
  {
    if k < |s| && IsPriceChar(s[k]) then PriceRunEnd(s, k + 1) else k
  }

  /** `\.\d{2}` stands at `e`. */
  predicate CentsAt(s: string, e: nat) {
    e + 3 <= |s| && s[e] == '.' && IsDigit(s[e + 1]) && IsDigit(s[e + 2])
  }

  /** End of the captured amount: the run, then `.dd` when a point and two digits follow. */
  function AmountEnd(s: string, k: nat): (c: nat)
    requires k <= |s|
    ensures PriceRunEnd(s, k) <= c <= |s|
  {
    var e := PriceRunEnd(s, k);
    if CentsAt(s, e) then e + 3 else e
  }

  /** End of the trailing `\s*(?:per|each|for)?` after an amount ending at `c`. */
  function TrailEnd(s: string, c: nat): (j: nat)
    requires c <= |s|
    ensures c <= j <= |s|
    ensures forall q :: c <= q < j ==> !IsPriceChar(s[q])
  {
    var j := SkipSpaces(s, c);
    if WordAt(s, j, "per") then WordHasNoPriceChar(s, j, "per"); j + 3
    else if WordAt(s, j, "each") then WordHasNoPriceChar(s, j, "each"); j + 4
    else if WordAt(s, j, "for") then WordHasNoPriceChar(s, j, "for"); j + 3
    else j
  }

  /** A word of lower-case letters, matched ignoring case, covers no digit or comma. */
  lemma WordHasNoPriceChar(s: string, j: nat, w: string)
    requires WordAt(s, j, w)
    requires forall k :: 0 <= k < |w| ==> 'a' <= w[k] <= 'z'
    ensures forall q :: j <= q < j + |w| ==> !IsPriceChar(s[q])
  {
    forall q | j <= q < j + |w|
      ensures !IsPriceChar(s[q])
    {
      assert ToLower(s[j + (q - j)]) == w[q - j];
    }
  }

  /** `.replace(/,/g, '')` */
  function RemoveCommas(t: string): (r: string)
    ensures forall k :: 0 <= k < |r| ==> r[k] != ','
  {
    if t == [] then [] else
      assert t == [t[0]] + t[1..];
      (if t[0] == ',' then [] else [t[0]]) + RemoveCommas(t[1..])
  }

  /** Removing commas keeps every other character, as many times as it occurs. */
  lemma {:induction false} RemoveCommasKeepsTheRest(t: string)
    ensures multiset(RemoveCommas(t)) == multiset(t)[',' := 0]
  {
    if t != [] {
      RemoveCommasKeepsTheRest(t[1..]);
      assert t == [t[0]] + t[1..];
    }
  }

  /** Removing commas works piece by piece, so it keeps the order of the other characters. */
  lemma {:induction false} RemoveCommasAppend(a: string, b: string)
    ensures RemoveCommas(a + b) == RemoveCommas(a) + RemoveCommas(b)
  {
    if a == [] {
      assert a + b == b;
    } else {
      var ab := a + b;
      var h := if a[0] == ',' then [] else [a[0]];
      assert ab[0] == a[0] && ab[1..] == a[1..] + b;
      assert RemoveCommas(ab) == h + RemoveCommas(a[1..] + b);
      assert RemoveCommas(a) == h + RemoveCommas(a[1..]);
      RemoveCommasAppend(a[1..], b);
      assert h + (RemoveCommas(a[1..]) + RemoveCommas(b)) == (h + RemoveCommas(a[1..])) + RemoveCommas(b);
    }
  }

  /** A string without commas is left as it is. */
  lemma {:induction false} RemoveCommasOfCommaFree(d: string)
    requires forall k :: 0 <= k < |d| ==> d[k] != ','
    ensures RemoveCommas(d) == d
  {
    if d != [] {
      RemoveCommasOfCommaFree(d[1..]);
    }
  }
  /** A single comma between two comma-free parts is all that goes. */
  lemma CommaBetween(a: string, c: string)
    requires forall k :: 0 <= k < |a| ==> a[k] != ','
    requires forall k :: 0 <= k < |c| ==> c[k] != ','
    ensures RemoveCommas(a + [','] + c) == a + c
  {
    var t := [','] + c;
    assert a + [','] + c == a + t;
    RemoveCommasAppend(a, t);
    assert t[0] == ',' && t[1..] == c;
    assert RemoveCommas(t) == RemoveCommas(c);
    RemoveCommasOfCommaFree(a);
    RemoveCommasOfCommaFree(c);
    assert RemoveCommas(a + t) == a + c;
  }
  /** A run of one digit is worth that digit. */
  lemma OneDigitAmount(s: string, k: nat)
    requires k < |s| && IsDigit(s[k])
    ensures Value(RemoveCommas(s[k..k + 1]), Decimal) == DigitValue(s[k])
  {
    var d := s[k..k + 1];
    assert d[0] == s[k];
    RemoveCommasOfCommaFree(d);
    assert d[..0] == [];
  }

  /** A run of two digits is worth ten times the first plus the second. */
  lemma TwoDigitAmount(s: string, k: nat)
    requires k + 2 <= |s| && IsDigit(s[k]) && IsDigit(s[k + 1])
    ensures Value(RemoveCommas(s[k..k + 2]), Decimal) == DigitValue(s[k]) * 10 + DigitValue(s[k + 1])
  {
    var d := s[k..k + 2];
    assert d[0] == s[k] && d[1] == s[k + 1];
    forall j | 0 <= j < |d| ensures d[j] != ',' {
      assert j == 0 || j == 1;
    }
    RemoveCommasOfCommaFree(d);
    var h := d[..1];
    assert h[0] == s[k] && h[..0] == [];
    assert Value(h, Decimal) == DigitValue(s[k]);
    assert d[..|d| - 1] == h;
  }

  /** A lone comma is worth nothing. */
  lemma LoneCommaAmount(s: string, k: nat)
    requires k < |s| && s[k] == ','
    ensures Value(RemoveCommas(s[k..k + 1]), Decimal) == 0
  {
    var d := s[k..k + 1];
    assert d[0] == ',' && d[1..] == [];
  }



  /** parseFloat of the amount with its commas removed, in cents: digits, then an optional
      point and two digits. An amount with no digit at all (NaN) and a zero amount are both 0. */
  function PriceCents(amount: string): (cents: nat) {
    var t := RemoveCommas(amount);
    if |t| >= 3 && t[|t| - 3] == '.' then Value(t[..|t| - 3], Decimal) * 100 + Value(t[|t| - 2..], Decimal)
    else Value(t, Decimal) * 100
  }

  /** The match whose amount starts at the digit or comma at `k`. */
  function MatchFrom(s: string, k: nat): (m: PriceMatch)
    requires k < |s| && IsPriceChar(s[k])
    ensures k == m.start < m.stop <= m.resume <= |s|
    ensures forall q :: m.stop <= q < m.resume ==> !IsPriceChar(s[q])
  {
    var c := AmountEnd(s, k);
    PriceMatch(k, c, TrailEnd(s, c), PriceCents(s[k..c]))
  }

  /** One step of `matchAll` from `lastIndex` = `i`. `\$?` is optional, so the match's amount
      starts at the first digit or comma at or after `i` (a '$' just before it is not captured). */
  function NextPriceMatch(s: string, i: nat): (r: Option<PriceMatch>)
    requires i <= |s|
    ensures r.Some? ==> i <= r.value.start < r.value.stop <= r.value.resume <= |s|
    ensures r.Some? ==> forall q :: i <= q < r.value.start ==> !IsPriceChar(s[q])
    ensures r.Some? ==> IsPriceChar(s[r.value.start])
    ensures r.Some? ==> forall q :: r.value.stop <= q < r.value.resume ==> !IsPriceChar(s[q])
    ensures r.None? <==> forall q :: i <= q < |s| ==> !IsPriceChar(s[q])
    decreases |s| - i
  {
    if i == |s| then None
    else if IsPriceChar(s[i]) then Some(MatchFrom(s, i))
    else NextPriceMatch(s, i + 1)
  }

  /** Where the amount of the next match begins: the first digit or comma at or after `i`,
      or the end of the text when there is none. */
  function PriceStart(s: string, i: nat): (k: nat)
    requires i <= |s|
    ensures i <= k <= |s|
    ensures forall q :: i <= q < k ==> !IsPriceChar(s[q])
    ensures k < |s| ==> IsPriceChar(s[k])
    decreases |s| - i
  {
    if i == |s| || IsPriceChar(s[i]) then i else PriceStart(s, i + 1)
  }

  /** The greedy `[\d,]+` from `k` ends where the run of digits and commas ends. */
  lemma {:induction false} PriceRunEndIs(s: string, k: nat, e: nat)
    requires k <= e <= |s|
    requires forall q :: k <= q < e ==> IsPriceChar(s[q])
    requires e == |s| || !IsPriceChar(s[e])
    ensures PriceRunEnd(s, k) == e
    decreases e - k
  {
    if k < e {
      PriceRunEndIs(s, k + 1, e);
    }
  }

  /** A whole run of digits and commas `s[k..e]` that no `.dd` follows is the amount, and
      it is worth its digits read as a whole number of units. */
  lemma MatchFromRun(s: string, k: nat, e: nat)
    requires k < e <= |s|
    requires forall q :: k <= q < e ==> IsPriceChar(s[q])
    requires e == |s| || !IsPriceChar(s[e])
    requires !CentsAt(s, e)
    ensures MatchFrom(s, k).stop == e
    ensures MatchFrom(s, k).cents == Value(RemoveCommas(s[k..e]), Decimal) * 100
  {
    PriceRunEndIs(s, k, e);
    var t := RemoveCommas(s[k..e]);
    RemoveCommasKeepsTheRest(s[k..e]);
    assert '.' !in multiset(s[k..e]);
    assert '.' !in multiset(t);
  }

  /** A whole run of digits and commas `s[k..e]` followed by `.dd` is captured with the two
      decimals, which count as cents. */
  lemma MatchFromRunWithCents(s: string, k: nat, e: nat)
    requires k < e <= |s|
    requires forall q :: k <= q < e ==> IsPriceChar(s[q])
    requires CentsAt(s, e)
    ensures MatchFrom(s, k).stop == e + 3
    ensures MatchFrom(s, k).cents ==
      Value(RemoveCommas(s[k..e]), Decimal) * 100 + Value(s[e + 1..e + 3], Decimal)
  {
    PriceRunEndIs(s, k, e);
    assert AmountEnd(s, k) == e + 3;
    var run, tail := s[k..e], s[e..e + 3];
    var amount := s[k..e + 3];
    assert amount == run + tail;
    assert tail[1..] == s[e + 1..e + 3];
    assert MatchFrom(s, k).cents == PriceCents(amount);
    assert tail[0] == '.' && IsDigit(tail[1]) && IsDigit(tail[2]);
    var r := RemoveCommas(run);
    CommaFreeTail(run, tail);
    CentsSplit(amount, r, tail);
  }

  /** Commas removed from a run followed by a comma-free tail leave the tail as it is. */
  lemma CommaFreeTail(run: string, tail: string)
    requires |tail| == 3 && tail[0] == '.' && IsDigit(tail[1]) && IsDigit(tail[2])
    ensures RemoveCommas(run + tail) == RemoveCommas(run) + tail
  {
    assert forall k :: 0 <= k < |tail| ==> tail[k] != ',' by {
      forall k | 0 <= k < |tail| ensures tail[k] != ',' {
        assert k == 0 || k == 1 || k == 2;
      }
    }
    RemoveCommasOfCommaFree(tail);
    RemoveCommasAppend(run, tail);
  }

  /** The parse of an amount whose commas removed leave `r` followed by `.dd`. */
  lemma CentsSplit(amount: string, r: string, tail: string)
    requires |tail| == 3 && tail[0] == '.'
    requires RemoveCommas(amount) == r + tail
    ensures PriceCents(amount) == Value(r, Decimal) * 100 + Value(tail[1..], Decimal)
  {
    var t := r + tail;
    assert t[|t| - 3] == '.';
    assert t[..|t| - 3] == r;
    assert t[|t| - 2..] == tail[1..];
  }

  /** After an amount ending at `c` and the white space up to `j`, the match also takes a
      "per", "each" or "for" (in any case) that stands at `j`, and nothing else. */
  lemma TrailEndIs(s: string, c: nat, j: nat)
    requires c <= j <= |s|
    requires forall q :: c <= q < j ==> IsSpace(s[q])
    requires j == |s| || !IsSpace(s[j])
    ensures WordAt(s, j, "per") || WordAt(s, j, "for") ==> TrailEnd(s, c) == j + 3
    ensures WordAt(s, j, "each") ==> TrailEnd(s, c) == j + 4
    ensures !WordAt(s, j, "per") && !WordAt(s, j, "each") && !WordAt(s, j, "for") ==>
      TrailEnd(s, c) == j
  {
    SkipSpacesIs(s, c, j);
    if WordAt(s, j, "per") {
      assert ToLower(s[j + 0]) == "per"[0];
    }
    if WordAt(s, j, "each") {
      assert ToLower(s[j + 0]) == "each"[0];
    }
    if WordAt(s, j, "for") {
      assert ToLower(s[j + 0]) == "for"[0];
    }
  }

  /** A whole run `s[k..e]` worth `v` units, with no `.dd` after it and no unit word after
      its white space, is a match of `v * 100` cents that resumes where the white space ends. */
  lemma PlainMatchFrom(s: string, k: nat, e: nat, j: nat, v: nat)
    requires k < e <= j <= |s|
    requires forall q :: k <= q < e ==> IsPriceChar(s[q])
    requires e == |s| || !IsPriceChar(s[e])
    requires !CentsAt(s, e)
    requires forall q :: e <= q < j ==> IsSpace(s[q])
    requires j == |s| || !IsSpace(s[j])
    requires !WordAt(s, j, "per") && !WordAt(s, j, "each") && !WordAt(s, j, "for")
    requires Value(RemoveCommas(s[k..e]), Decimal) == v
    ensures MatchFrom(s, k) == PriceMatch(k, e, j, v * 100)
  {
    MatchFromRun(s, k, e);
    TrailEndIs(s, e, j);
  }


  /** The first digit or comma from `i` on is found wherever it is. */
  lemma {:induction false} PriceStartIs(s: string, i: nat, k: nat)
    requires i <= k < |s| && IsPriceChar(s[k])
    requires forall q :: i <= q < k ==> !IsPriceChar(s[q])
    ensures PriceStart(s, i) == k
    decreases k - i
  {
    if i < k {
      PriceStartIs(s, i + 1, k);
    }
  }

  /** The match found from `i` is the match at the first digit or comma at or after `i`. */
  lemma NextPriceMatchIsMatchFrom(s: string, i: nat, k: nat)
    requires i <= k < |s| && IsPriceChar(s[k])
    requires forall q :: i <= q < k ==> !IsPriceChar(s[q])
    ensures NextPriceMatch(s, i) == Some(MatchFrom(s, k))
  {
    PriceStartIs(s, i, k);
    NextPriceMatchAtStart(s, i);
  }

  /** The search from `i` yields the match at the first digit or comma from `i` on, if any. */
  lemma {:induction false} NextPriceMatchAtStart(s: string, i: nat)
    requires i <= |s|
    ensures NextPriceMatch(s, i) == if PriceStart(s, i) == |s| then None else Some(MatchFrom(s, PriceStart(s, i)))
    decreases |s| - i
  {
    if i < |s| && !IsPriceChar(s[i]) {
      NextPriceMatchAtStart(s, i + 1);
    }
  }

  /** All matches of the price pattern from `i` on, in the order `matchAll` yields them. */
  function PriceMatches(s: string, i: nat): seq<PriceMatch>
    requires i <= |s|
    decreases |s| - i
  {
    match NextPriceMatch(s, i)
    case None => []
    case Some(m) => [m] + PriceMatches(s, m.resume)
  }

  /** Each match found is followed by the matches found from where it resumes. */
  lemma PriceMatchesStep(s: string, i: nat, m: PriceMatch)
    requires i <= |s| && NextPriceMatch(s, i) == Some(m)
    ensures m.resume <= |s| && PriceMatches(s, i) == [m] + PriceMatches(s, m.resume)
  {
  }

  /** The prices the for-of loop keeps: the positive ones, in order. */
  function PositivePrices(ms: seq<PriceMatch>): (r: seq<nat>)
    ensures forall k :: 0 <= k < |r| ==> r[k] > 0
    ensures |r| <= |ms|
  {
    if ms == [] then []
    else (if ms[0].cents > 0 then [ms[0].cents] else []) + PositivePrices(ms[1..])
  }

  /** The prices kept from `i` on: the first match's, if positive, then those after it. */
  lemma PricesStep(s: string, i: nat, m: PriceMatch)
    requires i <= |s| && NextPriceMatch(s, i) == Some(m)
    ensures m.resume <= |s|
    ensures PositivePrices(PriceMatches(s, i)) ==
      (if m.cents > 0 then [m.cents] else []) + PositivePrices(PriceMatches(s, m.resume))
  {
    var rest := PriceMatches(s, m.resume);
    PriceMatchesStep(s, i, m);
    assert ([m] + rest)[0] == m && ([m] + rest)[1..] == rest;
  }

  /** One turn of parseProposal's price loop keeps `pricing` followed by the prices still
      to come equal to all the prices of the text. */
  lemma PriceLoopStep(s: string, i: nat, pricing: seq<nat>)
    requires i <= |s| && NextPriceMatch(s, i).Some?
    requires pricing + PositivePrices(PriceMatches(s, i)) == Pricing(s)
    ensures var m := NextPriceMatch(s, i).value;
      (if m.cents > 0 then pricing + [m.cents] else pricing) + PositivePrices(PriceMatches(s, m.resume))
      == Pricing(s)
  {
    var m := NextPriceMatch(s, i).value;
    var rest := PriceMatches(s, m.resume);
    assert PriceMatches(s, i) == [m] + rest;
    assert ([m] + rest)[1..] == rest;
    if m.cents > 0 {
      assert pricing + [m.cents] + PositivePrices(rest) == pricing + ([m.cents] + PositivePrices(rest));
    } else {
      assert pricing + PositivePrices(rest) == pricing + ([] + PositivePrices(rest));
    }
  }

  /** The prices parseProposal pushes, in match order: every one of them positive. */
  function Pricing(s: string): (prices: seq<nat>)
    ensures forall k :: 0 <= k < |prices| ==> prices[k] > 0
  {
    PositivePrices(PriceMatches(s, 0))
  }

  /** `.reduce((sum, p) => sum + p, 0)` */
  function Sum(xs: seq<nat>): (total: nat)
    ensures forall k :: 0 <= k < |xs| ==> xs[k] <= total
  {
    if xs == [] then 0 else xs[0] + Sum(xs[1..])
  }

  // ---------------------------------------------------------------- warranty, delivery, payment

  /** The three patterns whose first match fills a field. */
  datatype Pattern = Warranty | Delivery | Payment

  /** The captured groups: the number as written and, for delivery, the unit as written. */
  datatype Capture = Capture(amount: string, unit: string)

  /** Whether `pat` matches at position `p`, and what it captures. Backtracking never helps
      these patterns: after `\d+` comes white space or a letter, after `\s*` a letter or a
      digit, and a following "s" must be taken by `s?` for "warranty" to match after it,
      so each match is found by one greedy pass. */
  function MatchAt(pat: Pattern, s: string, p: nat): (r: Option<Capture>)
    requires p <= |s|
    ensures r.Some? ==> IsDigits(r.value.amount)
  {
    match pat
    case Warranty =>
      if p < |s| && IsDigit(s[p]) then
        var e := RunEnd(s, p, Decimal);
        var a := SkipSpaces(s, e);
        if WordAt(s, a, "year") then
          var b := if a + 4 < |s| && ToLower(s[a + 4]) == 's' then a + 5 else a + 4;
          var c := SkipSpaces(s, b);
          if WordAt(s, c, "warranty") then Some(Capture(s[p..e], "")) else None
        else None
      else None
    case Delivery =>
      if p < |s| && IsDigit(s[p]) then
        var e := RunEnd(s, p, Decimal);
        var a := SkipSpaces(s, e);
        var w := if WordAt(s, a, "day") then 3 else if WordAt(s, a, "week") then 4 else 0;
        if w == 0 then None
        else
          var u := if a + w < |s| && ToLower(s[a + w]) == 's' then a + w + 1 else a + w;
          Some(Capture(s[p..e], s[a..u]))
      else None
    case Payment =>
      if WordAt(s, p, "net") then
        var a := SkipSpaces(s, p + 3);
        if a < |s| && IsDigit(s[a]) then Some(Capture(s[a..RunEnd(s, a, Decimal)], "")) else None
      else None
  }

  /** `(\d+)\s*years?\s*warranty` read at `p`: digits `s[p..e]`, white space up to `a`,
      "year" or "years" ending at `b`, white space up to `c` and "warranty", in any case. */
  predicate WarrantyShape(s: string, p: nat, e: nat, a: nat, b: nat, c: nat) {
    WordAt(s, a, "year") && WordAt(s, c, "warranty") &&
    p < e <= a && a + 4 <= b <= c &&
    (forall q :: p <= q < e ==> IsDigit(s[q])) &&
    (forall q :: e <= q < a ==> IsSpace(s[q])) &&
    (b == a + 4 || (b == a + 5 && ToLower(s[a + 4]) == 's')) &&
    (forall q :: b <= q < c ==> IsSpace(s[q]))
  }

  /** `(\d+)\s*(days?|weeks?)` read at `p`: digits `s[p..e]`, white space up to `a` and "day"
      or "week", in any case, with the "s" that follows it, if any, ending at `u`. */
  predicate DeliveryShape(s: string, p: nat, e: nat, a: nat, w: string, u: nat) {
    (w == "day" || w == "week") && WordAt(s, a, w) &&
    p < e <= a &&
    (forall q :: p <= q < e ==> IsDigit(s[q])) &&
    (forall q :: e <= q < a ==> IsSpace(s[q])) &&
    (if a + |w| < |s| && ToLower(s[a + |w|]) == 's' then u == a + |w| + 1 else u == a + |w|)
  }

  /** `net\s*(\d+)` read at `p`: "net" in any case, white space up to `a` and the whole run of
      digits `s[a..e]`. */
  predicate PaymentShape(s: string, p: nat, a: nat, e: nat) {
    WordAt(s, p, "net") && p + 3 <= a < e <= |s| &&
    (forall q :: p + 3 <= q < a ==> IsSpace(s[q])) &&
    (forall q :: a <= q < e ==> IsDigit(s[q])) &&
    (e == |s| || !IsDigit(s[e]))
  }

  /** Where the warranty pattern stands, MatchAt finds it and captures the digits. */
  lemma WarrantyMatch(s: string, p: nat, e: nat, a: nat, b: nat, c: nat)
    requires WarrantyShape(s, p, e, a, b, c)
    ensures MatchAt(Warranty, s, p) == Some(Capture(s[p..e], ""))
  {
    assert ToLower(s[a + 0]) == "year"[0];
    assert ToLower(s[c + 0]) == "warranty"[0];
    RunEndIs(s, p, e, Decimal);
    SkipSpacesIs(s, e, a);
    if b == a + 4 && a + 4 < |s| {
      assert ToLower(s[a + 4]) != 's' by {
        if b == c {
          assert ToLower(s[c + 0]) == 'w';
        }
      }
    }
    SkipSpacesIs(s, b, c);
  }

  /** Where the delivery pattern stands, MatchAt finds it and captures the digits and the
      unit as written, `s[a..u]`. */
  lemma DeliveryMatch(s: string, p: nat, e: nat, a: nat, w: string, u: nat)
    requires DeliveryShape(s, p, e, a, w, u)
    ensures MatchAt(Delivery, s, p) == Some(Capture(s[p..e], s[a..u]))
  {
    assert ToLower(s[a + 0]) == w[0];
    RunEndIs(s, p, e, Decimal);
    SkipSpacesIs(s, e, a);
    if w == "week" {
      assert ToLower(s[a + 0]) == 'w';
      assert !WordAt(s, a, "day") by {
        assert "day"[0] == 'd';
      }
    }
  }

  /** Where the payment pattern stands, MatchAt finds it and captures the digits. */
  lemma PaymentMatch(s: string, p: nat, a: nat, e: nat)
    requires PaymentShape(s, p, a, e)
    ensures MatchAt(Payment, s, p) == Some(Capture(s[a..e], ""))
  {
    SkipSpacesIs(s, p + 3, a);
    RunEndIs(s, a, e, Decimal);
  }

  /** MatchAt finds the warranty pattern only where it stands, and captures its digits. */
  lemma WarrantyMatchSound(s: string, p: nat)
    requires p <= |s| && MatchAt(Warranty, s, p).Some?
    ensures exists e: nat, a: nat, b: nat, c: nat ::
      WarrantyShape(s, p, e, a, b, c) && MatchAt(Warranty, s, p) == Some(Capture(s[p..e], ""))
  {
    var e := RunEnd(s, p, Decimal);
    var a := SkipSpaces(s, e);
    var b := if a + 4 < |s| && ToLower(s[a + 4]) == 's' then a + 5 else a + 4;
    var c := SkipSpaces(s, b);
    assert WarrantyShape(s, p, e, a, b, c);
  }

  /** MatchAt finds the delivery pattern only where it stands, and captures its digits and
      its unit as written. */
  lemma DeliveryMatchSound(s: string, p: nat)
    requires p <= |s| && MatchAt(Delivery, s, p).Some?
    ensures exists e: nat, a: nat, w: string, u: nat ::
      DeliveryShape(s, p, e, a, w, u) && MatchAt(Delivery, s, p) == Some(Capture(s[p..e], s[a..u]))
  {
    var e := RunEnd(s, p, Decimal);
    var a := SkipSpaces(s, e);
    var w := if WordAt(s, a, "day") then "day" else "week";
    var u := if a + |w| < |s| && ToLower(s[a + |w|]) == 's' then a + |w| + 1 else a + |w|;
    assert DeliveryShape(s, p, e, a, w, u);
  }

  /** MatchAt finds the payment pattern only where it stands, and captures its digits. */
  lemma PaymentMatchSound(s: string, p: nat)
    requires p <= |s| && MatchAt(Payment, s, p).Some?
    ensures exists a: nat, e: nat :: PaymentShape(s, p, a, e) && MatchAt(Payment, s, p) == Some(Capture(s[a..e], ""))
  {
    var a := SkipSpaces(s, p + 3);
    var e := RunEnd(s, a, Decimal);
    assert PaymentShape(s, p, a, e);
  }

  /** `String.prototype.match` with a non-global pattern: the leftmost position at or after
      `i` where the pattern matches. */
  function Leftmost(pat: Pattern, s: string, i: nat): (r: Option<nat>)
    requires i <= |s|
    ensures r.Some? ==> i <= r.value < |s| && MatchAt(pat, s, r.value).Some?
    ensures r.Some? ==> forall q :: i <= q < r.value ==> MatchAt(pat, s, q).None?
    ensures r.None? ==> forall q :: i <= q <= |s| ==> MatchAt(pat, s, q).None?
    decreases |s| - i
  {
    if i == |s| then None
    else if MatchAt(pat, s, i).Some? then Some(i)
    else Leftmost(pat, s, i + 1)
  }

  /** The groups of the leftmost match of `pat`, if any. */
  function FirstMatch(pat: Pattern, s: string): (r: Option<Capture>) {
    match Leftmost(pat, s, 0)
    case None => None
    case Some(p) => MatchAt(pat, s, p)
  }

  /** `String.prototype.match` finds nothing exactly when the pattern matches at no position. */
  lemma FirstMatchNone(pat: Pattern, s: string)
    ensures FirstMatch(pat, s).None? <==> forall q :: 0 <= q <= |s| ==> MatchAt(pat, s, q).None?
  {
  }

  /** A match at `p` with none before it is the one `String.prototype.match` reports. */
  lemma FirstMatchAt(pat: Pattern, s: string, p: nat)
    requires p <= |s| && MatchAt(pat, s, p).Some?
    requires forall q :: 0 <= q < p ==> MatchAt(pat, s, q).None?
    ensures FirstMatch(pat, s) == MatchAt(pat, s, p)
  {
  }

  function WarrantyText(s: string): string {
    match FirstMatch(Warranty, s)
    case Some(c) => c.amount + " years"
    case None => NotSpecified
  }

  function DeliveryText(s: string): string {
    match FirstMatch(Delivery, s)
    case Some(c) => c.amount + " " + c.unit
    case None => NotSpecified
  }

  function PaymentText(s: string): string {
    match FirstMatch(Payment, s)
    case Some(c) => "Net " + c.amount
    case None => NotSpecified
  }

  /** The specification of parseProposal: the record it builds from `s`. */
  function Terms(s: string): (p: ParsedProposal)
    ensures p.totalPrice == Sum(p.pricing) && p.additionalServices == []
    ensures forall k :: 0 <= k < |p.pricing| ==> 0 < p.pricing[k] <= p.totalPrice
  {
    ParsedProposal(Pricing(s), Sum(Pricing(s)), WarrantyText(s), DeliveryText(s), PaymentText(s), [])
  }

  // ---------------------------------------------------------------- parseProposal

  /** parseProposal(responseText): push every positive price in match order, total them,
      then fill the three text fields from their first matches. */
  method ParseProposal(text: string) returns (parsed: ParsedProposal)
    ensures parsed == Terms(text)
    ensures forall k :: 0 <= k < |parsed.pricing| ==> parsed.pricing[k] > 0
    ensures parsed.totalPrice == Sum(parsed.pricing)
  {
    var pricing: seq<nat> := [];
    var lastIndex := 0;
    var priceMatch := NextPriceMatch(text, lastIndex);
    while priceMatch.Some?
      invariant lastIndex <= |text|
      invariant priceMatch == NextPriceMatch(text, lastIndex)
      invariant pricing + PositivePrices(PriceMatches(text, lastIndex)) == Pricing(text)
      decreases |text| - lastIndex
    {
      PriceLoopStep(text, lastIndex, pricing);
      var price := priceMatch.value.cents;
      if price > 0 {
        pricing := pricing + [price];
      }
      lastIndex := priceMatch.value.resume;
      priceMatch := NextPriceMatch(text, lastIndex);
    }
    var totalPrice := 0;
    if |pricing| > 0 {
      totalPrice := Sum(pricing);
    }
    assert pricing == Pricing(text) && totalPrice == Sum(pricing);
    // The three `.match` calls and their ternaries are pure: WarrantyText, DeliveryText, PaymentText.
    parsed := ParsedProposal(pricing, totalPrice, WarrantyText(text), DeliveryText(text), PaymentText(text), []);
  }

  // ---------------------------------------------------------------- properties

  /** The matches come in text order and do not overlap: each amount lies inside the text,
      and the next search starts after the previous match. */
  lemma {:induction false} MatchesInTextOrder(s: string, i: nat)
    requires i <= |s|
    ensures forall j :: 0 <= j < |PriceMatches(s, i)| ==>
      i <= PriceMatches(s, i)[j].start < PriceMatches(s, i)[j].stop <= PriceMatches(s, i)[j].resume <= |s|
    ensures forall j :: 0 <= j < |PriceMatches(s, i)| - 1 ==>
      PriceMatches(s, i)[j].resume <= PriceMatches(s, i)[j + 1].start
    decreases |s| - i
  {
    match NextPriceMatch(s, i)
    case None =>
    case Some(m) =>
      MatchesInTextOrder(s, m.resume);
      var rest := PriceMatches(s, m.resume);
      var ms := PriceMatches(s, i);
      assert ms == [m] + rest;
      forall j | 0 <= j < |ms|
        ensures i <= ms[j].start < ms[j].stop <= ms[j].resume <= |s|
        ensures j < |ms| - 1 ==> ms[j].resume <= ms[j + 1].start
      {
        if j > 0 { assert ms[j] == rest[j - 1]; }
        if j < |ms| - 1 { assert ms[j + 1] == rest[j]; }
      }
  }

  /** Position `q` lies inside the amount of one of the matches `ms`. */
  predicate InSomeAmount(ms: seq<PriceMatch>, q: nat) {
    exists j :: 0 <= j < |ms| && ms[j].start <= q < ms[j].stop
  }

  /** No digit or comma of the text is skipped: each one lies in the amount of some match. */
  lemma {:induction false} EveryAmountCharCaptured(s: string, i: nat)
    requires i <= |s|
    ensures forall q :: i <= q < |s| && IsPriceChar(s[q]) ==> InSomeAmount(PriceMatches(s, i), q)
    decreases |s| - i
  {
    match NextPriceMatch(s, i)
    case None =>
    case Some(m) =>
      EveryAmountCharCaptured(s, m.resume);
      var ms, rest := PriceMatches(s, i), PriceMatches(s, m.resume);
      assert ms == [m] + rest;
      forall q | i <= q < |s| && IsPriceChar(s[q])
        ensures InSomeAmount(ms, q)
      {
        if q < m.stop {
          assert ms[0].start <= q < ms[0].stop;
        } else {
          var j :| 0 <= j < |rest| && rest[j].start <= q < rest[j].stop;
          assert ms[j + 1] == rest[j];
        }
      }
  }

  /** An amount made of commas only is empty once its commas are removed, so parseFloat
      gives NaN, the price is 0 and the loop does not keep it. */
  lemma {:induction false} CommasAreWorthNothing(t: string)
    requires forall k :: 0 <= k < |t| ==> t[k] == ','
    ensures RemoveCommas(t) == []
    ensures PriceCents(t) == 0
  {
    if t != [] {
      CommasAreWorthNothing(t[1..]);
    }
  }

  /** In a text without digits every price match has value 0. */
  lemma {:induction false} NoDigitsNoPrices(s: string, i: nat)
    requires i <= |s|
    requires forall k :: 0 <= k < |s| ==> !IsDigit(s[k])
    ensures PositivePrices(PriceMatches(s, i)) == []
    decreases |s| - i
  {
    match NextPriceMatch(s, i)
    case None =>
    case Some(m) =>
      NoDigitsNoPrices(s, m.resume);
      var rest := PriceMatches(s, m.resume);
      assert PriceMatches(s, i) == [m] + rest;
      assert ([m] + rest)[1..] == rest;
      NextPriceMatchIsMatchFrom(s, i, m.start);
      var amount := s[m.start..m.stop];
      assert forall k :: 0 <= k < |amount| ==> amount[k] == ',' by {
        forall k | 0 <= k < |amount| ensures amount[k] == ',' {
          assert amount[k] == s[m.start + k];
        }
      }
      CommasAreWorthNothing(amount);
  }

  /** Text without a digit yields empty pricing, a zero total and "Not specified" for the
      three text fields: no input makes the extraction fail. */
  lemma NoDigitsGivesDefaults(s: string)
    requires forall k :: 0 <= k < |s| ==> !IsDigit(s[k])
    ensures Terms(s) == Defaults
  {
    NoDigitsNoPrices(s, 0);
    forall pat: Pattern, p: nat | p <= |s| ensures MatchAt(pat, s, p).None? {
      if pat == Payment && WordAt(s, p, "net") {
        var a := SkipSpaces(s, p + 3);
        assert !(a < |s| && IsDigit(s[a]));
      }
    }
  }

  /** The total is zero exactly when no positive price was found. */
  lemma TotalIsZeroIffNoPrices(s: string)
    ensures Terms(s).totalPrice == 0 <==> Terms(s).pricing == []
  {
    var p := Pricing(s);
    if p != [] {
      assert Sum(p) >= p[0] > 0;
    }
  }

  /** A warranty or delivery match at `p` also matches one digit earlier when there is one. */
  lemma MatchAtDigitBefore(pat: Pattern, s: string, p: nat)
    requires pat != Payment
    requires 0 < p <= |s| && IsDigit(s[p - 1])
    requires MatchAt(pat, s, p).Some?
    ensures MatchAt(pat, s, p - 1).Some?
  {
    assert RunEnd(s, p - 1, Decimal) == RunEnd(s, p, Decimal);
  }

  /** The digits the warranty and delivery patterns capture are a whole run: the leftmost
      match cannot start inside a longer number. */
  lemma LeftmostStartsAtRun(pat: Pattern, s: string, p: nat)
    requires pat != Payment
    requires Leftmost(pat, s, 0) == Some(p)
    ensures p == 0 || !IsDigit(s[p - 1])
  {
    if p > 0 && IsDigit(s[p - 1]) {
      MatchAtDigitBefore(pat, s, p);
      assert false;
    }
  }
}
