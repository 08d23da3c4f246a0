/**
 * Worked examples of parseProposal's extraction, proved from the scanners' lemmas:
 * the two corner cases of the price pattern and a complete vendor response.
 */
module ExtractionExamples {

  import opened Wrappers
  import opened Text
  import opened Extraction

  // ---------------------------------------------------------------- corner cases of the price pattern

  /** "1.5" has no two decimals, so the point ends the first amount: 1 and 5 are two prices. */
  lemma OnePointFiveIsTwoPrices()
    ensures Pricing("1.5") == [100, 500]
  {
    var s := "1.5";
    OnePointFiveFirst();
    OnePointFiveSecond();
    var m1, m2 := PriceMatch(0, 1, 1, 100), PriceMatch(2, 3, 3, 500);
    assert PriceMatches(s, 3) == [];
    assert PriceMatches(s, 1) == [m2];
    assert PriceMatches(s, 0) == [m1, m2];
  }

  lemma OnePointFiveFirst()
    ensures NextPriceMatch("1.5", 0) == Some(PriceMatch(0, 1, 1, 100))
  {
    var s := "1.5";
    MatchFromRun(s, 0, 1);
    TrailEndIs(s, 1, 1);
    assert s[0..1] == "1";
  }

  lemma OnePointFiveSecond()
    ensures NextPriceMatch("1.5", 1) == Some(PriceMatch(2, 3, 3, 500))
  {
    var s := "1.5";
    NextPriceMatchIsMatchFrom(s, 1, 2);
    MatchFromRun(s, 2, 3);
    TrailEndIs(s, 3, 3);
    assert s[2..3] == "5";
  }

  /** A lone comma is a match worth nothing, so no price is kept. */
  lemma LoneCommaIsNoPrice()
    ensures Pricing(",") == []
  {
    NoDigitsNoPrices(",", 0);
  }

  // ---------------------------------------------------------------- a complete response

  /** A vendor response with a price, its unit word, and all three terms. */
  const Sample: string :=
    "$1,200.50 for installation" + " and 2 years warranty, " + "delivery in 10 days, Net 30"

  /** The whole record extracted from the sample response. The commas after "warranty" and
      "days" are matches of `[\d,]+` worth nothing, so they add no price. */
  lemma SampleTerms()
    ensures Terms(Sample) ==
      ParsedProposal([120050, 200, 1000, 3000], 124250, "2 years", "10 days", "Net 30", [])
  {
    SampleFields(Sample);
  }

  lemma SampleFields(s: string)
    requires s == Sample
    ensures Terms(s) ==
      ParsedProposal([120050, 200, 1000, 3000], 124250, "2 years", "10 days", "Net 30", [])
  {
    SamplePricing(s);
    SampleWarranty(s);
    SampleDelivery(s);
    SamplePayment(s);
    TermsOfFields(s);
  }

  /** The record built from the four parts found in the sample. */
  lemma TermsOfFields(s: string)
    requires Pricing(s) == [120050, 200, 1000, 3000]
    requires WarrantyText(s) == "2 years" && DeliveryText(s) == "10 days"
    requires PaymentText(s) == "Net 30"
    ensures Terms(s) ==
      ParsedProposal([120050, 200, 1000, 3000], 124250, "2 years", "10 days", "Net 30", [])
  {
    SumOfSamplePrices();
  }

  lemma SumOfSamplePrices()
    ensures Sum([120050, 200, 1000, 3000]) == 124250
  {
    assert [120050, 200, 1000, 3000][1..] == [200, 1000, 3000];
    assert [200, 1000, 3000][1..] == [1000, 3000];
    assert [1000, 3000][1..] == [3000];
    assert [3000][1..] == [];
  }

  // Each step below is proved about any text `s` that has the sample's characters at the
  // positions it names, and then applied to the sample by a lemma whose only work is to
  // read those characters off the literal; reasoning about the literal directly would make
  // the solver evaluate every scanner on it.

  // ---------------------------------------------------------------- prices

  lemma CommasOfOneThousandTwoHundred()
    ensures RemoveCommas("1,200") == "1200"
  {
    ghost var a, c := "1", "200";
    assert "1,200" == a + [','] + c;
    assert "1200" == a + c;
    CommaBetween(a, c);
  }

  lemma ValueOfOneThousandTwoHundred()
    ensures Value("1200", Decimal) == 1200
  {
    assert "1200"[..3] == "120" && "120"[..2] == "12" && "12"[..1] == "1" && "1"[..0] == [];
  }

  lemma ValueOfFifty()
    ensures Value("50", Decimal) == 50
  {
    assert "50"[..1] == "5" && "5"[..0] == [];
  }

  /** "1,200" is worth 1200 units and ".50" 50 cents. */
  lemma InstallationAmount(s: string)
    requires 9 <= |s| && s[1] == '1' && s[2] == ',' && s[3] == '2' && s[4] == '0' && s[5] == '0'
    requires s[7] == '5' && s[8] == '0'
    ensures Value(RemoveCommas(s[1..6]), Decimal) == 1200 && Value(s[7..9], Decimal) == 50
  {
    assert s[1..6] == "1,200";
    assert s[7..9] == "50";
    CommasOfOneThousandTwoHundred();
    ValueOfOneThousandTwoHundred();
    ValueOfFifty();
  }

  /** "$1,200.50 for": the dollar sign is skipped, the amount keeps its cents, and the match
      takes the unit word "for". */
  lemma InstallationPriceFrom(s: string)
    requires 13 <= |s| && s[0] == '$' && s[1] == '1' && s[2] == ',' && s[3] == '2'
    requires s[4] == '0' && s[5] == '0' && s[6] == '.' && s[7] == '5' && s[8] == '0'
    requires s[9] == ' ' && s[10] == 'f' && s[11] == 'o' && s[12] == 'r'
    ensures MatchFrom(s, 1) == PriceMatch(1, 9, 13, 120050)
  {
    InstallationAmount(s);
    forall q | 1 <= q < 6 ensures IsPriceChar(s[q]) {
      assert q == 1 || q == 2 || q == 3 || q == 4 || q == 5;
    }
    MatchFromRunWithCents(s, 1, 6);
    forall q | 9 <= q < 10 ensures IsSpace(s[q]) {
      assert q == 9;
    }
    TrailEndIs(s, 9, 10);
    WordOfThree(s, 10, "for");
  }

  lemma InstallationPrice(s: string)
    requires 13 <= |s| && s[0] == '$' && s[1] == '1' && s[2] == ',' && s[3] == '2'
    requires s[4] == '0' && s[5] == '0' && s[6] == '.' && s[7] == '5' && s[8] == '0'
    requires s[9] == ' ' && s[10] == 'f' && s[11] == 'o' && s[12] == 'r'
    ensures NextPriceMatch(s, 0) == Some(PriceMatch(1, 9, 13, 120050))
  {
    InstallationPriceFrom(s);
    forall q | 0 <= q < 1 ensures !IsPriceChar(s[q]) {
      assert q == 0;
    }
    NextPriceMatchIsMatchFrom(s, 0, 1);
  }

  /** "2 years": a price of 2 with no unit word after it. */
  lemma YearsNumberFrom(s: string)
    requires 34 <= |s|
    requires s[31] == '2' && s[32] == ' ' && s[33] == 'y'
    ensures MatchFrom(s, 31) == PriceMatch(31, 32, 33, 200)
  {
    OneDigitAmount(s, 31);
    forall q | 31 <= q < 32 ensures IsPriceChar(s[q]) {
      assert q == 31;
    }
    forall q | 32 <= q < 33 ensures IsSpace(s[q]) {
      assert q == 32;
    }
    NotWordAt(s, 33, "per", 0);
    NotWordAt(s, 33, "each", 0);
    NotWordAt(s, 33, "for", 0);
    PlainMatchFrom(s, 31, 32, 33, 2);
  }

  lemma YearsNumber(s: string)
    requires 34 <= |s| && (forall q :: 13 <= q < 31 ==> !IsPriceChar(s[q]))
    requires s[31] == '2' && s[32] == ' ' && s[33] == 'y'
    ensures NextPriceMatch(s, 13) == Some(PriceMatch(31, 32, 33, 200))
  {
    YearsNumberFrom(s);
    NextPriceMatchIsMatchFrom(s, 13, 31);
  }

  /** The comma after "warranty" is a match worth 0. */
  lemma WarrantyCommaFrom(s: string)
    requires 50 <= |s|
    requires s[47] == ',' && s[48] == ' ' && s[49] == 'd'
    ensures MatchFrom(s, 47) == PriceMatch(47, 48, 49, 0)
  {
    LoneCommaAmount(s, 47);
    forall q | 47 <= q < 48 ensures IsPriceChar(s[q]) {
      assert q == 47;
    }
    forall q | 48 <= q < 49 ensures IsSpace(s[q]) {
      assert q == 48;
    }
    NotWordAt(s, 49, "per", 0);
    NotWordAt(s, 49, "each", 0);
    NotWordAt(s, 49, "for", 0);
    PlainMatchFrom(s, 47, 48, 49, 0);
  }

  lemma WarrantyComma(s: string)
    requires 50 <= |s| && (forall q :: 33 <= q < 47 ==> !IsPriceChar(s[q]))
    requires s[47] == ',' && s[48] == ' ' && s[49] == 'd'
    ensures NextPriceMatch(s, 33) == Some(PriceMatch(47, 48, 49, 0))
  {
    WarrantyCommaFrom(s);
    NextPriceMatchIsMatchFrom(s, 33, 47);
  }

  /** "10 days": a price of 10. */
  lemma DaysNumberFrom(s: string)
    requires 65 <= |s|
    requires s[61] == '1' && s[62] == '0' && s[63] == ' ' && s[64] == 'd'
    ensures MatchFrom(s, 61) == PriceMatch(61, 63, 64, 1000)
  {
    TwoDigitAmount(s, 61);
    forall q | 61 <= q < 63 ensures IsPriceChar(s[q]) {
      assert q == 61 || q == 62;
    }
    forall q | 63 <= q < 64 ensures IsSpace(s[q]) {
      assert q == 63;
    }
    NotWordAt(s, 64, "per", 0);
    NotWordAt(s, 64, "each", 0);
    NotWordAt(s, 64, "for", 0);
    PlainMatchFrom(s, 61, 63, 64, 10);
  }

  lemma DaysNumber(s: string)
    requires 65 <= |s| && (forall q :: 49 <= q < 61 ==> !IsPriceChar(s[q]))
    requires s[61] == '1' && s[62] == '0' && s[63] == ' ' && s[64] == 'd'
    ensures NextPriceMatch(s, 49) == Some(PriceMatch(61, 63, 64, 1000))
  {
    DaysNumberFrom(s);
    NextPriceMatchIsMatchFrom(s, 49, 61);
  }

  /** The comma after "days" is a match worth 0. */
  lemma DaysCommaFrom(s: string)
    requires 71 <= |s|
    requires s[68] == ',' && s[69] == ' ' && s[70] == 'N'
    ensures MatchFrom(s, 68) == PriceMatch(68, 69, 70, 0)
  {
    LoneCommaAmount(s, 68);
    forall q | 68 <= q < 69 ensures IsPriceChar(s[q]) {
      assert q == 68;
    }
    forall q | 69 <= q < 70 ensures IsSpace(s[q]) {
      assert q == 69;
    }
    NotWordAt(s, 70, "per", 0);
    NotWordAt(s, 70, "each", 0);
    NotWordAt(s, 70, "for", 0);
    PlainMatchFrom(s, 68, 69, 70, 0);
  }

  lemma DaysComma(s: string)
    requires 71 <= |s| && (forall q :: 64 <= q < 68 ==> !IsPriceChar(s[q]))
    requires s[68] == ',' && s[69] == ' ' && s[70] == 'N'
    ensures NextPriceMatch(s, 64) == Some(PriceMatch(68, 69, 70, 0))
  {
    DaysCommaFrom(s);
    NextPriceMatchIsMatchFrom(s, 64, 68);
  }

  /** "Net 30": a price of 30 at the end of the text, after which no match is left. */
  lemma NetNumberFrom(s: string)
    requires |s| == 76
    requires s[74] == '3' && s[75] == '0'
    ensures MatchFrom(s, 74) == PriceMatch(74, 76, 76, 3000)
  {
    TwoDigitAmount(s, 74);
    forall q | 74 <= q < 76 ensures IsPriceChar(s[q]) {
      assert q == 74 || q == 75;
    }
    PlainMatchFrom(s, 74, 76, 76, 30);
  }

  lemma NetNumber(s: string)
    requires |s| == 76 && (forall q :: 70 <= q < 74 ==> !IsPriceChar(s[q]))
    requires s[74] == '3' && s[75] == '0'
    ensures NextPriceMatch(s, 70) == Some(PriceMatch(74, 76, 76, 3000))
    ensures NextPriceMatch(s, 76) == None
  {
    NetNumberFrom(s);
    NextPriceMatchIsMatchFrom(s, 70, 74);
  }

  lemma SampleInstallationPrice(s: string)
    requires s == Sample
    ensures NextPriceMatch(s, 0) == Some(PriceMatch(1, 9, 13, 120050))
  {
    assert s[0] == '$' && s[1] == '1' && s[2] == ',' && s[3] == '2';
    assert s[4] == '0' && s[5] == '0' && s[6] == '.' && s[7] == '5' && s[8] == '0';
    assert s[9] == ' ' && s[10] == 'f' && s[11] == 'o' && s[12] == 'r';
    InstallationPrice(s);
  }

  lemma SampleYearsNumber(s: string)
    requires s == Sample
    ensures NextPriceMatch(s, 13) == Some(PriceMatch(31, 32, 33, 200))
  {
    assert forall q :: 13 <= q < 31 ==> !IsPriceChar(s[q]);
    assert s[31] == '2' && s[32] == ' ' && s[33] == 'y';
    YearsNumber(s);
  }

  lemma SampleWarrantyComma(s: string)
    requires s == Sample
    ensures NextPriceMatch(s, 33) == Some(PriceMatch(47, 48, 49, 0))
  {
    assert forall q :: 33 <= q < 47 ==> !IsPriceChar(s[q]);
    assert s[47] == ',' && s[48] == ' ' && s[49] == 'd';
    WarrantyComma(s);
  }

  lemma SampleDaysNumber(s: string)
    requires s == Sample
    ensures NextPriceMatch(s, 49) == Some(PriceMatch(61, 63, 64, 1000))
  {
    assert forall q :: 49 <= q < 61 ==> !IsPriceChar(s[q]);
    assert s[61] == '1' && s[62] == '0' && s[63] == ' ' && s[64] == 'd';
    DaysNumber(s);
  }

  lemma SampleDaysComma(s: string)
    requires s == Sample
    ensures NextPriceMatch(s, 64) == Some(PriceMatch(68, 69, 70, 0))
  {
    assert forall q :: 64 <= q < 68 ==> !IsPriceChar(s[q]);
    assert s[68] == ',' && s[69] == ' ' && s[70] == 'N';
    DaysComma(s);
  }

  lemma SampleNetNumber(s: string)
    requires s == Sample
    ensures NextPriceMatch(s, 70) == Some(PriceMatch(74, 76, 76, 3000))
    ensures NextPriceMatch(s, 76) == None
  {
    assert |s| == 76;
    assert forall q :: 70 <= q < 74 ==> !IsPriceChar(s[q]);
    assert s[74] == '3' && s[75] == '0';
    NetNumber(s);
  }

  /** The prices kept from position 64 on: the comma after "days" and then "30". */
  lemma PricesFromSixtyFour(s: string)
    requires |s| == 76
    requires NextPriceMatch(s, 64) == Some(PriceMatch(68, 69, 70, 0))
    requires NextPriceMatch(s, 70) == Some(PriceMatch(74, 76, 76, 3000))
    requires NextPriceMatch(s, 76) == None
    ensures PositivePrices(PriceMatches(s, 64)) == [3000]
  {
    assert PriceMatches(s, 76) == [];
    PricesStep(s, 70, PriceMatch(74, 76, 76, 3000));
    PricesStep(s, 64, PriceMatch(68, 69, 70, 0));
  }

  /** The prices kept from position 33 on: the comma after "warranty", "10" and the rest. */
  lemma PricesFromThirtyThree(s: string)
    requires |s| == 76
    requires NextPriceMatch(s, 33) == Some(PriceMatch(47, 48, 49, 0))
    requires NextPriceMatch(s, 49) == Some(PriceMatch(61, 63, 64, 1000))
    requires PositivePrices(PriceMatches(s, 64)) == [3000]
    ensures PositivePrices(PriceMatches(s, 33)) == [1000, 3000]
  {
    PricesStep(s, 49, PriceMatch(61, 63, 64, 1000));
    PricesStep(s, 33, PriceMatch(47, 48, 49, 0));
  }

  /** All the prices: "$1,200.50", "2" and the rest. */
  lemma PricesFromStart(s: string)
    requires |s| == 76
    requires NextPriceMatch(s, 0) == Some(PriceMatch(1, 9, 13, 120050))
    requires NextPriceMatch(s, 13) == Some(PriceMatch(31, 32, 33, 200))
    requires PositivePrices(PriceMatches(s, 33)) == [1000, 3000]
    ensures Pricing(s) == [120050, 200, 1000, 3000]
  {
    PricesStep(s, 13, PriceMatch(31, 32, 33, 200));
    PricesStep(s, 0, PriceMatch(1, 9, 13, 120050));
  }

  lemma SamplePricing(s: string)
    requires s == Sample
    ensures Pricing(s) == [120050, 200, 1000, 3000]
  {
    SampleInstallationPrice(s);
    SampleYearsNumber(s);
    SampleWarrantyComma(s);
    SampleDaysNumber(s);
    SampleDaysComma(s);
    SampleNetNumber(s);
    PricesFromSixtyFour(s);
    PricesFromThirtyThree(s);
    PricesFromStart(s);
  }

  // ---------------------------------------------------------------- warranty and delivery

  /** No digit of a run `s[p..e]` followed by white space up to a character `s[a]` starts a
      warranty match unless `s[a]` is a "y", nor a delivery match unless it is a "d" or a "w". */
  lemma NoUnitAfterRun(s: string, p: nat, e: nat, a: nat)
    requires p < e <= a < |s|
    requires forall k :: p <= k < e ==> IsDigit(s[k])
    requires !IsDigit(s[e])
    requires forall k :: e <= k < a ==> IsSpace(s[k])
    requires !IsSpace(s[a])
    ensures ToLower(s[a]) != 'y' ==> forall q :: p <= q < e ==> MatchAt(Warranty, s, q).None?
    ensures ToLower(s[a]) != 'd' && ToLower(s[a]) != 'w' ==>
      forall q :: p <= q < e ==> MatchAt(Delivery, s, q).None?
  {
    SkipSpacesIs(s, e, a);
    forall q | p <= q < e ensures RunEnd(s, q, Decimal) == e {
      RunEndIs(s, q, e, Decimal);
    }
    if ToLower(s[a]) != 'y' {
      NotWordAt(s, a, "year", 0);
    }
    if ToLower(s[a]) != 'd' && ToLower(s[a]) != 'w' {
      NotWordAt(s, a, "day", 0);
      NotWordAt(s, a, "week", 0);
    }
  }

  /** The digits of "$1,200.50 for" are followed by a comma, a point and "f": none starts a
      warranty or a delivery time. */
  lemma InstallationHasNoUnit(s: string)
    requires 11 <= |s| && s[1] == '1' && s[2] == ',' && s[3] == '2' && s[4] == '0' && s[5] == '0'
    requires s[6] == '.' && s[7] == '5' && s[8] == '0' && s[9] == ' ' && s[10] == 'f'
    ensures forall q :: 1 <= q < 2 || 3 <= q < 6 || 7 <= q < 9 ==>
      MatchAt(Warranty, s, q).None? && MatchAt(Delivery, s, q).None?
  {
    forall k | 1 <= k < 2 ensures IsDigit(s[k]) {
      assert k == 1;
    }
    NoUnitAfterRun(s, 1, 2, 2);
    forall k | 3 <= k < 6 ensures IsDigit(s[k]) {
      assert k == 3 || k == 4 || k == 5;
    }
    NoUnitAfterRun(s, 3, 6, 6);
    forall k | 7 <= k < 9 ensures IsDigit(s[k]) {
      assert k == 7 || k == 8;
    }
    forall k | 9 <= k < 10 ensures IsSpace(s[k]) {
      assert k == 9;
    }
    NoUnitAfterRun(s, 7, 9, 10);
  }

  /** "2 years" is not a delivery time. */
  lemma YearsIsNoDelivery(s: string)
    requires 34 <= |s| && s[31] == '2' && s[32] == ' ' && s[33] == 'y'
    ensures MatchAt(Delivery, s, 31).None?
  {
    forall k | 31 <= k < 32 ensures IsDigit(s[k]) {
      assert k == 31;
    }
    forall k | 32 <= k < 33 ensures IsSpace(s[k]) {
      assert k == 32;
    }
    NoUnitAfterRun(s, 31, 32, 33);
  }

  /** Where every other position holds no digit, no warranty starts before position 31 and
      no delivery time before position 61. */
  lemma NoUnitBefore(s: string)
    requires 61 <= |s|
    requires forall q :: 1 <= q < 2 || 3 <= q < 6 || 7 <= q < 9 ==>
      MatchAt(Warranty, s, q).None? && MatchAt(Delivery, s, q).None?
    requires MatchAt(Delivery, s, 31).None?
    requires forall q :: 0 <= q < 61 && q !in {1, 3, 4, 5, 7, 8, 31} ==> !IsDigit(s[q])
    ensures forall q :: 0 <= q < 31 ==> MatchAt(Warranty, s, q).None?
    ensures forall q :: 0 <= q < 61 ==> MatchAt(Delivery, s, q).None?
  {
    forall q | 0 <= q < 61 ensures MatchAt(Delivery, s, q).None? && (q < 31 ==> MatchAt(Warranty, s, q).None?) {
      if q !in {1, 3, 4, 5, 7, 8, 31} {
        assert !IsDigit(s[q]);
      }
    }
  }

  lemma SampleInstallationHasNoUnit(s: string)
    requires s == Sample
    ensures forall q :: 1 <= q < 2 || 3 <= q < 6 || 7 <= q < 9 ==>
      MatchAt(Warranty, s, q).None? && MatchAt(Delivery, s, q).None?
  {
    assert s[1] == '1' && s[2] == ',' && s[3] == '2' && s[4] == '0' && s[5] == '0';
    assert s[6] == '.' && s[7] == '5' && s[8] == '0' && s[9] == ' ' && s[10] == 'f';
    InstallationHasNoUnit(s);
  }

  lemma SampleYearsIsNoDelivery(s: string)
    requires s == Sample
    ensures MatchAt(Delivery, s, 31).None?
  {
    assert s[31] == '2' && s[32] == ' ' && s[33] == 'y';
    YearsIsNoDelivery(s);
  }

  lemma SampleDigits(s: string)
    requires s == Sample
    ensures forall q :: 0 <= q < 61 && q !in {1, 3, 4, 5, 7, 8, 31} ==> !IsDigit(s[q])
  {
  }

  lemma SampleNoUnitBefore(s: string)
    requires s == Sample
    ensures forall q :: 0 <= q < 31 ==> MatchAt(Warranty, s, q).None?
    ensures forall q :: 0 <= q < 61 ==> MatchAt(Delivery, s, q).None?
  {
    SampleInstallationHasNoUnit(s);
    SampleYearsIsNoDelivery(s);
    SampleDigits(s);
    NoUnitBefore(s);
  }

  /** "2 years warranty" at position 31. */
  lemma TwoYearsWarrantyAt(s: string)
    requires 47 <= |s| && s[31] == '2' && s[32] == ' ' && s[33] == 'y' && s[34] == 'e'
    requires s[35] == 'a' && s[36] == 'r' && s[37] == 's' && s[38] == ' ' && s[39] == 'w'
    requires s[40] == 'a' && s[41] == 'r' && s[42] == 'r' && s[43] == 'a' && s[44] == 'n'
    requires s[45] == 't' && s[46] == 'y'
    ensures MatchAt(Warranty, s, 31) == Some(Capture("2", ""))
  {
    forall k | 0 <= k < 4 ensures ToLower(s[33 + k]) == "year"[k] {
      assert k == 0 || k == 1 || k == 2 || k == 3;
    }
    forall k | 0 <= k < 8 ensures ToLower(s[39 + k]) == "warranty"[k] {
      assert k == 0 || k == 1 || k == 2 || k == 3 || k == 4 || k == 5 || k == 6 || k == 7;
    }
    forall q | 31 <= q < 32 ensures IsDigit(s[q]) {
      assert q == 31;
    }
    forall q | 32 <= q < 33 ensures IsSpace(s[q]) {
      assert q == 32;
    }
    forall q | 38 <= q < 39 ensures IsSpace(s[q]) {
      assert q == 38;
    }
    WarrantyMatch(s, 31, 32, 33, 38, 39);
    assert s[31..32] == "2";
  }

  /** The first warranty is the one at position 31. */
  lemma TwoYearsWarranty(s: string)
    requires 31 <= |s| && MatchAt(Warranty, s, 31) == Some(Capture("2", ""))
    requires forall q :: 0 <= q < 31 ==> MatchAt(Warranty, s, q).None?
    ensures WarrantyText(s) == "2 years"
  {
    FirstMatchAt(Warranty, s, 31);
  }

  /** "10 days" at position 61. */
  lemma TenDaysAt(s: string)
    requires 68 <= |s| && s[61] == '1' && s[62] == '0' && s[63] == ' ' && s[64] == 'd'
    requires s[65] == 'a' && s[66] == 'y' && s[67] == 's'
    ensures MatchAt(Delivery, s, 61) == Some(Capture("10", "days"))
  {
    WordOfThree(s, 64, "day");
    forall q | 61 <= q < 63 ensures IsDigit(s[q]) {
      assert q == 61 || q == 62;
    }
    forall q | 63 <= q < 64 ensures IsSpace(s[q]) {
      assert q == 63;
    }
    DeliveryMatch(s, 61, 63, 64, "day", 68);
    assert s[61..63] == "10";
    assert s[64..68] == "days";
  }

  /** The first delivery time is the one at position 61. */
  lemma TenDays(s: string)
    requires 61 <= |s| && MatchAt(Delivery, s, 61) == Some(Capture("10", "days"))
    requires forall q :: 0 <= q < 61 ==> MatchAt(Delivery, s, q).None?
    ensures DeliveryText(s) == "10 days"
  {
    FirstMatchAt(Delivery, s, 61);
    assert FirstMatch(Delivery, s) == Some(Capture("10", "days"));
    assert "10" + " " + "days" == "10 days";
  }

  lemma SampleWarranty(s: string)
    requires s == Sample
    ensures WarrantyText(s) == "2 years"
  {
    SampleNoUnitBefore(s);
    assert s[31] == '2' && s[32] == ' ' && s[33] == 'y' && s[34] == 'e';
    assert s[35] == 'a' && s[36] == 'r' && s[37] == 's' && s[38] == ' ' && s[39] == 'w';
    assert s[40] == 'a' && s[41] == 'r' && s[42] == 'r' && s[43] == 'a' && s[44] == 'n';
    assert s[45] == 't' && s[46] == 'y';
    TwoYearsWarrantyAt(s);
    TwoYearsWarranty(s);
  }

  lemma SampleDelivery(s: string)
    requires s == Sample
    ensures DeliveryText(s) == "10 days"
  {
    SampleNoUnitBefore(s);
    assert s[61] == '1' && s[62] == '0' && s[63] == ' ' && s[64] == 'd';
    assert s[65] == 'a' && s[66] == 'y' && s[67] == 's';
    TenDaysAt(s);
    TenDays(s);
  }

  // ---------------------------------------------------------------- payment

  /** No payment term starts where an "n" is not followed by "e". */
  lemma NoNetIn(s: string, a: nat, b: nat)
    requires a <= b < |s|
    requires forall q :: a <= q < b ==> ToLower(s[q]) != 'n' || ToLower(s[q + 1]) != 'e'
    ensures forall q :: a <= q < b ==> MatchAt(Payment, s, q).None?
  {
    forall q | a <= q < b ensures MatchAt(Payment, s, q).None? {
      if ToLower(s[q]) != 'n' {
        NotWordAt(s, q, "net", 0);
      } else {
        NotWordAt(s, q, "net", 1);
      }
    }
  }

  /** "Net 30" with no payment term before it. */
  lemma NetThirty(s: string)
    requires |s| == 76 && s[70] == 'N' && s[71] == 'e' && s[72] == 't' && s[73] == ' '
    requires s[74] == '3' && s[75] == '0'
    requires forall q :: 0 <= q < 70 ==> MatchAt(Payment, s, q).None?
    ensures PaymentText(s) == "Net 30"
  {
    WordOfThree(s, 70, "net");
    forall q | 73 <= q < 74 ensures IsSpace(s[q]) {
      assert q == 73;
    }
    forall q | 74 <= q < 76 ensures IsDigit(s[q]) {
      assert q == 74 || q == 75;
    }
    PaymentMatch(s, 70, 74, 76);
    FirstMatchAt(Payment, s, 70);
    assert s[74..76] == "30";
  }

  lemma SampleNoNetInFirstPiece(s: string)
    requires s == Sample
    ensures forall q :: 0 <= q < 26 ==> ToLower(s[q]) != 'n' || ToLower(s[q + 1]) != 'e'
  {
  }

  lemma SampleNoNetInSecondPiece(s: string)
    requires s == Sample
    ensures forall q :: 26 <= q < 49 ==> ToLower(s[q]) != 'n' || ToLower(s[q + 1]) != 'e'
  {
  }

  lemma SampleNoNetInThirdPiece(s: string)
    requires s == Sample
    ensures forall q :: 49 <= q < 70 ==> ToLower(s[q]) != 'n' || ToLower(s[q + 1]) != 'e'
  {
  }

  lemma SamplePayment(s: string)
    requires s == Sample
    ensures PaymentText(s) == "Net 30"
  {
    SampleNoNetInFirstPiece(s);
    SampleNoNetInSecondPiece(s);
    SampleNoNetInThirdPiece(s);
    NoNetIn(s, 0, 70);
    assert |s| == 76 && s[70] == 'N' && s[71] == 'e' && s[72] == 't' && s[73] == ' ';
    assert s[74] == '3' && s[75] == '0';
    NetThirty(s);
  }
}
