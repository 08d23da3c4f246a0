# RFP proposal comparison, modelled in Dafny

This project models the proposal pipeline of the RFP system. It covers three steps and the record rules of the server:

- **Extraction (`parseProposal`).** Vendor response text becomes pricing, a total, warranty, delivery and payment terms.
  - Prices follow `/\$?([\d,]+(?:\.\d{2})?)\s*(?:per|each|for)?/gi` and are kept as exact integer cents.
  - The three terms take the first match of their pattern.
- **Scoring (`calculateScore`).**
  - Up to 40 points for price, relative to the cheapest positive total of a batch.
  - Three tiers of 0/10/15/20 points, for warranty years, delivery days and net payment days.
  - The sum is rounded half up.
- **Recommendation (`generateRecommendation`).** A stable descending sort picks the best proposal. Its reasons come in a fixed order, with the fallback "Best available option".
- **Server.** The three POST handlers validate a JSON payload and append one defaulted record to a JSON file. The parse endpoint runs the same extraction. The port falls back to 5000.

The regular expressions are written out as scanners over strings:
- `TrailEnd`, `MatchFrom` and `NextPriceMatch` cover the global price pattern;
- `MatchAt` and `Leftmost` cover the three first-match patterns.

Case folding is ASCII only. `\s` is JavaScript's white-space set, which is also the set `parseInt` skips (`Text.IsSpace`). `parseInt` is modelled in `JsNumber.ParseInt`, with NaN as `None`.

Files and modules:
- `wrappers.dfy` (`Wrappers`): Option.
- `text.dfy` (`Text`): characters, digit runs, positional values.
- `js_number.dfy` (`JsNumber`): parseInt.
- `extraction.dfy` (`Extraction`): parseProposal.
- `extraction_examples.dfy` (`ExtractionExamples`): worked extractions, among them a complete vendor response.
- `scoring.dfy` (`Scoring`): calculateScore.
- `server.dfy` (`Server`): server.js.
- `recommendation.dfy` (`Recommendation`): generateRecommendation.

Behaviour of the code that is easy to miss:
- The batch comes from the component's `proposals` state, as it was before the fetch. The component sets that state only after scoring, so on the first load the batch is empty.
- `Math.min()` of no positive price is Infinity. A priced proposal scored against a batch without a positive total therefore scores Infinity (`Scoring.ScoreIsInfiniteIff`, `Scoring.FirstLoadScore`).
- Because the batch can be stale, a score can exceed 100 (`Scoring.StaleBatchExceedsHundred`).
- Infinity ranks above every number in the recommendation sort, and two Infinity scores tie (the comparator gives NaN, which the sort reads as 0).

## Model

| member | source | states |
|---|---|---|
| Extraction.ParseProposal | rfpsystem/src/Frontend/Components/ProposalComparison/ProposalComparison.js:47-78 | The loop pushes the positive prices of successive matches. The result is exactly `Terms(text)`: the pricing of all matches in order, its sum as total, and the three first-match fields. Every price is > 0 and the total is their sum. |
| Extraction.NextPriceMatch | rfpsystem/src/Frontend/Components/ProposalComparison/ProposalComparison.js:58 | The next match starts at a digit or comma at or after the search position, and no digit or comma lies before it. No digit or comma lies between the end of its amount and where the next search resumes. None is returned exactly when no digit or comma is left. |
| Extraction.MatchFrom | rfpsystem/src/Frontend/Components/ProposalComparison/ProposalComparison.js:58 | A match at a digit or comma captures a non-empty amount, and the part it consumes after the amount holds no digit or comma. |
| Extraction.MatchesInTextOrder | rfpsystem/src/Frontend/Components/ProposalComparison/ProposalComparison.js:58-62 | The matches of matchAll do not overlap and come in text order, so pricing is in order of appearance. |
| Extraction.EveryAmountCharCaptured | rfpsystem/src/Frontend/Components/ProposalComparison/ProposalComparison.js:58 | Every digit and comma of the text lies inside the amount of some match; no price token is skipped. |
| Extraction.CommasAreWorthNothing | rfpsystem/src/Frontend/Components/ProposalComparison/ProposalComparison.js:60-61 | A comma-only amount is empty once the commas are removed, and it is worth 0 cents, which the `price > 0` test drops. |
| Extraction.PositivePrices | rfpsystem/src/Frontend/Components/ProposalComparison/ProposalComparison.js:59-61 | Only prices > 0 are kept, and no more entries than matches. |
| Extraction.NoDigitsNoPrices | rfpsystem/src/Frontend/Components/ProposalComparison/ProposalComparison.js:58-62 | In a text without digits every match is worth 0, so pricing is empty. |
| Extraction.NoDigitsGivesDefaults | rfpsystem/src/Frontend/Components/ProposalComparison/ProposalComparison.js:47-76 | A text without digits gives empty pricing, total 0 and "Not specified" for warranty, delivery and payment. No input fails. |
| Extraction.TotalIsZeroIffNoPrices | rfpsystem/src/Frontend/Components/ProposalComparison/ProposalComparison.js:64-66 | The total is 0 exactly when pricing is empty. |
| Extraction.MatchAt | rfpsystem/src/Frontend/Components/ProposalComparison/ProposalComparison.js:68-75 | Whatever the warranty, delivery or payment pattern captures as its number is a non-empty run of digits. `WarrantyMatch`/`WarrantyMatchSound` and their delivery and payment partners show that it matches exactly where the pattern stands. |
| Extraction.Leftmost | rfpsystem/src/Frontend/Components/ProposalComparison/ProposalComparison.js:68-75 | `String.match` takes the leftmost position where the pattern matches. No earlier position matches, and None means no position matches. |
| Extraction.MatchAtDigitBefore | rfpsystem/src/Frontend/Components/ProposalComparison/ProposalComparison.js:68-72 | A warranty or delivery match inside a number also matches one digit earlier. |
| Extraction.LeftmostStartsAtRun | rfpsystem/src/Frontend/Components/ProposalComparison/ProposalComparison.js:68-72 | The leftmost warranty or delivery match starts at the beginning of a run of digits, so the whole number is captured. |
| Extraction.NextPriceMatchIsMatchFrom | rfpsystem/src/Frontend/Components/ProposalComparison/ProposalComparison.js:58 | The search from a position finds the match at the first digit or comma from there on. |
| Extraction.NextPriceMatchAtStart | rfpsystem/src/Frontend/Components/ProposalComparison/ProposalComparison.js:58 | The search from a position yields the match at the first digit or comma from there on, or None when there is none. |
| Extraction.PriceStartIs | rfpsystem/src/Frontend/Components/ProposalComparison/ProposalComparison.js:58 | The amount of the next match begins at the first digit or comma, wherever it lies. |
| Extraction.PriceRunEndIs | rfpsystem/src/Frontend/Components/ProposalComparison/ProposalComparison.js:58 | The greedy `[\d,]+` ends exactly where the run of digits and commas ends. |
| Extraction.MatchFromRun | rfpsystem/src/Frontend/Components/ProposalComparison/ProposalComparison.js:58-60 | An amount that is a maximal run of digits and commas with no `.dd` after it is the whole run, and it is worth the run's digits, commas removed, as whole units. |
| Extraction.MatchFromRunWithCents | rfpsystem/src/Frontend/Components/ProposalComparison/ProposalComparison.js:58-60 | A maximal run followed by a point and two digits is captured with them, and the two digits count as cents. |
| Extraction.TrailEndIs | rfpsystem/src/Frontend/Components/ProposalComparison/ProposalComparison.js:58 | After the amount, the match consumes the white space and then "per" or "for" (3 letters) or "each" (4 letters) in any case, or nothing more when no such word follows. |
| Extraction.PlainMatchFrom | rfpsystem/src/Frontend/Components/ProposalComparison/ProposalComparison.js:58-60 | A match with no cents and no unit word is fixed completely: its amount, where it resumes and its value in cents. |
| Extraction.RemoveCommasKeepsTheRest | rfpsystem/src/Frontend/Components/ProposalComparison/ProposalComparison.js:60 | Removing commas keeps every other character as many times as it occurs. |
| Extraction.RemoveCommasAppend | rfpsystem/src/Frontend/Components/ProposalComparison/ProposalComparison.js:60 | Removing commas works piece by piece, so the other characters keep their order. |
| Extraction.RemoveCommasOfCommaFree | rfpsystem/src/Frontend/Components/ProposalComparison/ProposalComparison.js:60 | A text without commas is left unchanged. |
| Extraction.CommaBetween | rfpsystem/src/Frontend/Components/ProposalComparison/ProposalComparison.js:60 | A single comma between two comma-free parts is exactly what goes: "1,200" becomes "1200". |
| Extraction.PriceMatchesStep | rfpsystem/src/Frontend/Components/ProposalComparison/ProposalComparison.js:58-59 | matchAll yields the match found from a position, followed by the matches found from where that one resumes. An unfolding helper for the worked examples. |
| Extraction.PricesStep | rfpsystem/src/Frontend/Components/ProposalComparison/ProposalComparison.js:59-61 | The kept prices are the first match's price if it is positive, followed by the prices after it. An unfolding helper for the worked examples. |
| Extraction.WarrantyShape | rfpsystem/src/Frontend/Components/ProposalComparison/ProposalComparison.js:68 | Reference definition of where `(\d+)\s*years?\s*warranty` stands, written as the pattern reads: digits, white space, "year" or "years", white space, "warranty", ignoring case. |
| Extraction.DeliveryShape | rfpsystem/src/Frontend/Components/ProposalComparison/ProposalComparison.js:71 | Reference definition of where `(\d+)\s*(days?|weeks?)` stands: digits, white space, "day" or "week" ignoring case, and the "s" after it when there is one. |
| Extraction.PaymentShape | rfpsystem/src/Frontend/Components/ProposalComparison/ProposalComparison.js:74 | Reference definition of where `net\s*(\d+)` stands: "net" ignoring case, white space and a whole run of digits. |
| Extraction.WarrantyMatchSound | rfpsystem/src/Frontend/Components/ProposalComparison/ProposalComparison.js:68-69 | MatchAt finds the warranty pattern only where it stands, and the capture is the digits it starts with. |
| Extraction.DeliveryMatchSound | rfpsystem/src/Frontend/Components/ProposalComparison/ProposalComparison.js:71-72 | MatchAt finds the delivery pattern only where it stands, and the capture is its digits and its unit as written. |
| Extraction.PaymentMatchSound | rfpsystem/src/Frontend/Components/ProposalComparison/ProposalComparison.js:74-75 | MatchAt finds the payment pattern only where it stands, and the capture is the digits after "net". |
| Extraction.RemoveCommas | rfpsystem/src/Frontend/Components/ProposalComparison/ProposalComparison.js:60 | `.replace(/,/g, '')` leaves no comma. That it keeps every other character in order is stated by `RemoveCommasKeepsTheRest` and `RemoveCommasAppend`. |
| Extraction.PriceCents | rfpsystem/src/Frontend/Components/ProposalComparison/ProposalComparison.js:60 | Reference definition of `parseFloat` of the comma-free amount, in cents. `MatchFromRun` and `MatchFromRunWithCents` state its value on a whole run. |
| Extraction.PriceMatches | rfpsystem/src/Frontend/Components/ProposalComparison/ProposalComparison.js:58-59 | Reference definition of the sequence `matchAll` yields, one `NextPriceMatch` after another; `MatchesInTextOrder` and `EveryAmountCharCaptured` state its properties. |
| Extraction.PriceRunEnd | rfpsystem/src/Frontend/Components/ProposalComparison/ProposalComparison.js:58 | The greedy `[\d,]+` takes only digits and commas and stops at the first other character or at the end. |
| Extraction.AmountEnd | rfpsystem/src/Frontend/Components/ProposalComparison/ProposalComparison.js:58 | The amount ends at or after the end of the run of digits and commas; `MatchFromRun` and `MatchFromRunWithCents` say exactly where. |
| Extraction.TrailEnd | rfpsystem/src/Frontend/Components/ProposalComparison/ProposalComparison.js:58 | The trailing part after the amount holds no digit or comma; `TrailEndIs` says exactly what it consumes. |
| Extraction.FirstMatch | rfpsystem/src/Frontend/Components/ProposalComparison/ProposalComparison.js:68-75 | Reference definition of `String.match`: the capture at the leftmost matching position. `FirstMatchNone` and `FirstMatchAt` state its properties. |
| Extraction.WarrantyText | rfpsystem/src/Frontend/Components/ProposalComparison/ProposalComparison.js:69 | Reference definition of the warranty field: the captured years followed by " years", or "Not specified"; `SampleWarranty` and `Scoring.WarrantyYearsOfTerms` state what it yields. |
| Extraction.DeliveryText | rfpsystem/src/Frontend/Components/ProposalComparison/ProposalComparison.js:72 | Reference definition of the delivery field: the captured number, a space and the unit as written, or "Not specified"; `Scoring.DeliveryDaysOfTerms` states what parseInt reads from it. |
| Extraction.PaymentText | rfpsystem/src/Frontend/Components/ProposalComparison/ProposalComparison.js:75 | Reference definition of the payment field: "Net " and the captured number, or "Not specified"; `Scoring.NetDaysOfTerms` states what the scorer reads from it. |
| Extraction.WarrantyMatch | rfpsystem/src/Frontend/Components/ProposalComparison/ProposalComparison.js:68-69 | Digits, white space, "year" or "years", white space and "warranty", in any case, match the warranty pattern, which captures those digits. |
| Extraction.DeliveryMatch | rfpsystem/src/Frontend/Components/ProposalComparison/ProposalComparison.js:71-72 | Digits, white space and "day(s)" or "week(s)" in any case match the delivery pattern, which captures the digits and the unit as written. |
| Extraction.PaymentMatch | rfpsystem/src/Frontend/Components/ProposalComparison/ProposalComparison.js:74-75 | "net" in any case, white space and a maximal run of digits match the payment pattern, which captures all those digits. |
| Extraction.FirstMatchNone | rfpsystem/src/Frontend/Components/ProposalComparison/ProposalComparison.js:68-75 | `String.match` finds nothing exactly when the pattern matches at no position. |
| Extraction.FirstMatchAt | rfpsystem/src/Frontend/Components/ProposalComparison/ProposalComparison.js:68-75 | A match with none at an earlier position is the one `String.match` reports. |
| Extraction.Pricing | rfpsystem/src/Frontend/Components/ProposalComparison/ProposalComparison.js:58-62 | Every price kept is positive. |
| Extraction.Sum | rfpsystem/src/Frontend/Components/ProposalComparison/ProposalComparison.js:65 | The reduce total is at least each of its prices. |
| Extraction.Terms | rfpsystem/src/Frontend/Components/ProposalComparison/ProposalComparison.js:47-77 | The record's total is the sum of its pricing, each price is positive and at most the total, and additionalServices is empty. |
| ExtractionExamples.OnePointFiveIsTwoPrices | rfpsystem/src/Frontend/Components/ProposalComparison/ProposalComparison.js:58-61 | "1.5" has no two decimals, so it prices as 1 and 5: [100, 500] in cents. |
| ExtractionExamples.LoneCommaIsNoPrice | rfpsystem/src/Frontend/Components/ProposalComparison/ProposalComparison.js:58-61 | "," gives empty pricing: a comma alone is no price. |
| ExtractionExamples.SampleTerms | rfpsystem/src/Frontend/Components/ProposalComparison/ProposalComparison.js:47-77 | "$1,200.50 for installation and 2 years warranty, delivery in 10 days, Net 30" parses to pricing [120050, 200, 1000, 3000] cents, total 124250, "2 years", "10 days" and "Net 30". |
| ExtractionExamples.SamplePricing | rfpsystem/src/Frontend/Components/ProposalComparison/ProposalComparison.js:58-62 | The sample prices as [120050, 200, 1000, 3000] cents, in text order. |
| ExtractionExamples.SampleWarranty | rfpsystem/src/Frontend/Components/ProposalComparison/ProposalComparison.js:68-69 | The sample's warranty field is "2 years". |
| ExtractionExamples.SampleDelivery | rfpsystem/src/Frontend/Components/ProposalComparison/ProposalComparison.js:71-72 | The sample's delivery field is "10 days". |
| ExtractionExamples.SamplePayment | rfpsystem/src/Frontend/Components/ProposalComparison/ProposalComparison.js:74-75 | The sample's payment field is "Net 30". |
| Text.FirstDigitRun | rfpsystem/src/Frontend/Components/ProposalComparison/ProposalComparison.js:102 | `.match(/\d+/)?.[0]` is a digit string, and undefined exactly when the text has no digit. |
| JsNumber.ParseInt | rfpsystem/src/Frontend/Components/ProposalComparison/ProposalComparison.js:92 | parseInt gives a number only for a text that holds a digit. |
| JsNumber.ParseFrom | rfpsystem/src/Frontend/Components/ProposalComparison/ProposalComparison.js:92 | parseInt from a position gives a number only when a digit follows that position. |
| JsNumber.ParseIntOfLeadingDigits | rfpsystem/src/Frontend/Components/ProposalComparison/ProposalComparison.js:92 | parseInt of a digit string followed by a non-digit is the value of those digits. With radix 10, a following "x" does not make a hexadecimal prefix. |
| JsNumber.ParseIntOfNonNumeric | rfpsystem/src/Frontend/Components/ProposalComparison/ProposalComparison.js:92-97 | parseInt of a text starting with a letter, such as "Not specified", is NaN. |
| Scoring.MinPositiveTotal | rfpsystem/src/Frontend/Components/ProposalComparison/ProposalComparison.js:85-86 | None exactly when every total of the batch is 0. Otherwise it is a positive total of the batch and at most every positive total. |
| Scoring.BatchMinimum | rfpsystem/src/Frontend/Components/ProposalComparison/ProposalComparison.js:85-86 | Three steps compute the least positive total, with Infinity when there is none: map zero totals to Infinity, filter `p > 0`, then take `Math.min`. |
| Scoring.BatchPrices | rfpsystem/src/Frontend/Components/ProposalComparison/ProposalComparison.js:85 | Mapping each proposal to its total, or to Infinity when the total is falsy, gives one entry per proposal; `BatchMinimum` states what the pipeline computes. |
| Scoring.KeepPositive | rfpsystem/src/Frontend/Components/ProposalComparison/ProposalComparison.js:86 | `.filter(p => p > 0)` keeps no more entries than it is given; `BatchMinimum` states what the pipeline computes. |
| Scoring.JsMin | rfpsystem/src/Frontend/Components/ProposalComparison/ProposalComparison.js:86 | Reference definition of `Math.min` over the filtered list, Infinity when it is empty; `BatchMinimum` ties it to `MinPositiveTotal`. |
| Scoring.PriceTerm | rfpsystem/src/Frontend/Components/ProposalComparison/ProposalComparison.js:84-89 | Reference definition of the price term against the least positive total: 0 without a price, Infinity without a positive total, else 40 times minimum over total. `CalculateScore`, `CheapestGetsForty` and `CheaperScoresHigher` state its properties. |
| Scoring.ScoreOf | rfpsystem/src/Frontend/Components/ProposalComparison/ProposalComparison.js:80-107 | Reference definition of the score: the rounded sum of the price term and the three tier points. `CalculateScore` is proved equal to it, and `ScoreInRange` and `ScoreIsInfiniteIff` state its properties. |
| Scoring.WarrantyYears | rfpsystem/src/Frontend/Components/ProposalComparison/ProposalComparison.js:92 | Reference definition of `parseInt(parsed.warranty)`; `WarrantyYearsOfTerms` states its value on extracted terms. |
| Scoring.DeliveryDays | rfpsystem/src/Frontend/Components/ProposalComparison/ProposalComparison.js:97 | Reference definition of `parseInt(parsed.deliveryTime)`; `DeliveryDaysOfTerms` states its value on extracted terms. |
| Scoring.NetDays | rfpsystem/src/Frontend/Components/ProposalComparison/ProposalComparison.js:102 | Reference definition of `parseInt(parsed.paymentTerms?.match(/\d+/)?.[0])`; `NetDaysOfTerms` states its value on extracted terms. |
| Scoring.WarrantyPoints | rfpsystem/src/Frontend/Components/ProposalComparison/ProposalComparison.js:92-95 | The warranty tier gives 0, 10, 15 or 20 points. |
| Scoring.DeliveryPoints | rfpsystem/src/Frontend/Components/ProposalComparison/ProposalComparison.js:97-100 | The delivery tier gives 0, 10, 15 or 20 points. |
| Scoring.PaymentPoints | rfpsystem/src/Frontend/Components/ProposalComparison/ProposalComparison.js:102-105 | The payment tier gives 0, 10, 15 or 20 points. |
| Scoring.TierThresholds | rfpsystem/src/Frontend/Components/ProposalComparison/ProposalComparison.js:92-105 | Every threshold is inclusive: 20, 15 and 10 points from 3, 2 and 1 years; up to 14, 30 and 45 days; from Net 60, 45 and 30. |
| Scoring.TiersAreMonotone | rfpsystem/src/Frontend/Components/ProposalComparison/ProposalComparison.js:92-105 | More warranty years or net days never earn fewer points, and more delivery days never earn more. NaN earns 0 in every tier. |
| Scoring.NonPriceAtMostSixty | rfpsystem/src/Frontend/Components/ProposalComparison/ProposalComparison.js:92-105 | The three tiers give at most 60 points together. |
| Scoring.Round | rfpsystem/src/Frontend/Components/ProposalComparison/ProposalComparison.js:107 | Math.round gives the whole number within half of the sum, with halves rounded up. Infinity stays Infinity. |
| Scoring.RoundWhole | rfpsystem/src/Frontend/Components/ProposalComparison/ProposalComparison.js:107 | Rounding a whole number gives that number. |
| Scoring.CalculateScore | rfpsystem/src/Frontend/Components/ProposalComparison/ProposalComparison.js:80-108 | The step-by-step `score +=` computation equals `ScoreOf`: the rounded sum of the price term against the batch minimum and the three tier points. |
| Scoring.WarrantyYearsOfTerms | rfpsystem/src/Frontend/Components/ProposalComparison/ProposalComparison.js:92 | parseInt of the extracted warranty field is the number of years captured, or NaN for "Not specified". |
| Scoring.DeliveryDaysOfTerms | rfpsystem/src/Frontend/Components/ProposalComparison/ProposalComparison.js:97 | parseInt of the extracted delivery field is the captured number, whatever the unit, so weeks count as days. |
| Scoring.NetDaysOfTerms | rfpsystem/src/Frontend/Components/ProposalComparison/ProposalComparison.js:102 | The payment field reads back as the number captured after "net", or NaN for "Not specified". |
| Scoring.ScoreIsInfiniteIff | rfpsystem/src/Frontend/Components/ProposalComparison/ProposalComparison.js:84-90 | The score is Infinity exactly when the proposal is priced and no total in the batch is positive. |
| Scoring.UnpricedScore | rfpsystem/src/Frontend/Components/ProposalComparison/ProposalComparison.js:84 | A proposal without a price scores its tier points alone. |
| Scoring.FirstLoadScore | rfpsystem/src/Frontend/Components/ProposalComparison/ProposalComparison.js:85-86 | Against the empty first-load batch, a priced proposal scores Infinity and an unpriced one scores its tier points. |
| Scoring.CheapestGetsForty | rfpsystem/src/Frontend/Components/ProposalComparison/ProposalComparison.js:88-89 | The cheapest priced proposal of its batch gets exactly 40 price points. |
| Scoring.CheaperScoresHigher | rfpsystem/src/Frontend/Components/ProposalComparison/ProposalComparison.js:88-89 | Against a batch with a positive total, of two positive totals the lower never earns fewer price points. |
| Scoring.ScoreInRange | rfpsystem/src/Frontend/Components/ProposalComparison/ProposalComparison.js:80-107 | A proposal whose total appears in the batch scores a whole number from 0 to 100. |
| Scoring.TwoProposalPriceTerms | rfpsystem/src/Frontend/Components/ProposalComparison/ProposalComparison.js:88-89 | In a batch of $100 and $200, the price terms are 40 and 20. |
| Scoring.StaleBatchExceedsHundred | rfpsystem/src/Frontend/Components/ProposalComparison/ProposalComparison.js:85 | Take a $100 proposal offering "3 years", "10 days" and "Net 60", scored against an older batch whose only total is $200. It scores 140. |
| Recommendation.Insert | rfpsystem/src/Frontend/Components/ProposalComparison/ProposalComparison.js:111 | Inserting into a sorted list adds exactly one entry; `SortIsOrderedPermutation` states that the sort keeps the multiset and the order. |
| Recommendation.SortByScore | rfpsystem/src/Frontend/Components/ProposalComparison/ProposalComparison.js:111 | The sorted copy has as many entries as the input; `SortIsOrderedPermutation` and `SortHeadIsFirstBest` state the rest. |
| Recommendation.HighScore | rfpsystem/src/Frontend/Components/ProposalComparison/ProposalComparison.js:115 | Reference definition of `best.score >= 80`, which Infinity also passes; `PushedMembership` uses it. |
| Recommendation.Message | rfpsystem/src/Frontend/Components/ProposalComparison/ProposalComparison.js:115-124 | Reference definition of the five reason texts; `MessagesDistinct` states that they are the source's strings and pairwise distinct. |
| Recommendation.RankingIsTotalPreorder | rfpsystem/src/Frontend/Components/ProposalComparison/ProposalComparison.js:111 | The comparator `b.score - a.score` orders scores totally and transitively, with Infinity highest. |
| Recommendation.FirstBestIndex | rfpsystem/src/Frontend/Components/ProposalComparison/ProposalComparison.js:111-112 | The chosen index has a maximal score, and every earlier proposal scores strictly lower. |
| Recommendation.SortIsOrderedPermutation | rfpsystem/src/Frontend/Components/ProposalComparison/ProposalComparison.js:111 | The sorted copy is a permutation of the input, in descending order of score. |
| Recommendation.SortHeadIsFirstBest | rfpsystem/src/Frontend/Components/ProposalComparison/ProposalComparison.js:111-112 | The head of the stable sort is the first proposal of maximal score, so ties go to the earlier proposal. |
| Recommendation.MinTotal | rfpsystem/src/Frontend/Components/ProposalComparison/ProposalComparison.js:115 | `Math.min` over all totals, zeros included, is one of the totals and at most each of them. |
| Recommendation.MessagesDistinct | rfpsystem/src/Frontend/Components/ProposalComparison/ProposalComparison.js:114-123 | The five reason texts are pairwise distinct. |
| Recommendation.PushedMembership | rfpsystem/src/Frontend/Components/ProposalComparison/ProposalComparison.js:114-120 | The pushes give each reason exactly when its condition holds, and never the fallback. |
| Recommendation.PushedInOrder | rfpsystem/src/Frontend/Components/ProposalComparison/ProposalComparison.js:114-120 | The pushed reasons are in push order, each at most once. The list is empty only when no condition holds. |
| Recommendation.GenerateRecommendation | rfpsystem/src/Frontend/Components/ProposalComparison/ProposalComparison.js:110-126 | An empty list gives None, where the source throws reading the score of `sorted[0]`. Otherwise the vendor is the first proposal of maximal score, and the reasons are never empty. Each reason is given exactly when its condition holds, in push order. The conditions are: score >= 80 or Infinity; total equal to the minimum of all totals; warranty >= 2; delivery <= 30. The fallback is given exactly when none holds. |
| Recommendation.SingleProposalHasBestPricing | rfpsystem/src/Frontend/Components/ProposalComparison/ProposalComparison.js:115-117 | A lone proposal is chosen and always has the best pricing. |
| Server.Truthy | rfpsystem/server/server.js:97 | Reference definition of JavaScript truthiness on JSON values: null, false, 0 and "" are falsy. |
| Server.Field | rfpsystem/server/server.js:97 | `payload.key` is present exactly when the payload is an object that holds the key. |
| Server.Given | rfpsystem/server/server.js:97 | Reference definition of `payload && payload.key` being truthy; the POST handlers' 400 paths are stated with it. |
| Server.OrElse | rfpsystem/server/server.js:105-106 | A defaulted field is the payload's field when that is truthy, and the fallback otherwise. |
| Server.Port | rfpsystem/server/server.js:9 | The port is never 0. It is the parsed PORT when that is a non-zero number, and 5000 when PORT is unset, NaN or 0. |
| Server.PortFromEnvironment | rfpsystem/server/server.js:9 | PORT=8080 gives port 8080. |
| Server.HexPortFallsBack | rfpsystem/server/server.js:9 | With radix 10, PORT=0x50 reads as 0 and falls back to 5000. |
| Server.Loaded | rfpsystem/server/server.js:36 | A blank or missing file reads as the empty list; otherwise the stored list is returned. |
| Server.AfterRead | rfpsystem/server/server.js:38-41 | Reading a missing file creates it holding "[]". Any other file is left as it is. |
| Server.Store.ReadVendors | rfpsystem/server/server.js:33-44 | Returns the loaded vendor list, creates the file if it is missing, and leaves the other files alone. |
| Server.Store.ReadRfpRequests | rfpsystem/server/server.js:50-61 | Returns the loaded request list, creates the file if it is missing, and leaves the other files alone. |
| Server.Store.ReadVendorResponses | rfpsystem/server/server.js:67-78 | Returns the loaded response list, creates the file if it is missing, and leaves the other files alone. |
| Server.NewVendor | rfpsystem/server/server.js:102-108 | The new vendor keeps the truthy name, takes the given id and time, and defaults contact and email to ''. |
| Server.NewRfpRequest | rfpsystem/server/server.js:138-148 | The new request keeps vendorId and defaults name, email, subject, body and rfpDetails to ''. sentDate defaults to the current time. |
| Server.NewVendorResponse | rfpsystem/server/server.js:179-188 | The new response keeps vendorId and response, defaults name and email to '', attachments to [] and rfpRequestId to null. |
| Server.Store.PostVendor | rfpsystem/server/server.js:94-116 | A falsy payload or name gives 400 and leaves every file as it was. Otherwise exactly the new vendor is appended after the loaded list, and the other files are untouched. |
| Server.Store.PostRfpRequest | rfpsystem/server/server.js:130-156 | A falsy payload or vendorId gives 400 and changes nothing. Otherwise exactly one request is appended. |
| Server.Store.PostVendorResponse | rfpsystem/server/server.js:168-196 | vendorId is checked before response, and each failure has its own 400 message and changes nothing. Otherwise exactly one response is appended. |
| Server.ParseVendorResponse | rfpsystem/server/server.js:199-244 | A null body gives 500. A falsy responseText gives 400 "Missing responseText". A truthy non-string gives 500. A string gives exactly the client's extraction `Terms`. |
| Server.EmptyTextParsesToDefaults | rfpsystem/server/server.js:202-204 | The client parses "" to the defaults. The server counts an empty responseText as missing, so by `ParseVendorResponse` it answers 400 instead. |

## Left out

- React state, effects, fetch and rendering are left out. This includes the glue at ProposalComparison.js:22-37 that scores each fetched proposal; the batch is an explicit parameter instead.
- The in-place sort of the rendered table (ProposalComparison.js:172) is left out. It is UI and mutates the component's state array.
- Express routing, body parsing and the GET handlers are left out; the handlers' logic is modelled directly.
- Server.Store.PostVendor, Server.Store.PostRfpRequest and Server.Store.PostVendorResponse run as one atomic step each. The source awaits between reading its file and writing it back (server.js:101/110, 137/150, 178/190). Two interleaved requests can therefore read the same list, and one of the appended records is then lost; the model does not capture this.
- File I/O errors other than a missing file, and `JSON.parse` of a corrupt file, are left out. These are the 500 paths of the POST handlers. A file is modelled as its list of records.
- `Date.now()` ids and ISO timestamps are parameters, so nothing is claimed about id uniqueness. The two clock readings in POST /api/rfp-requests, for sentDate and createdAt, are modelled as one value.
- IEEE floating point is left out. Prices are exact integer cents, which is exact for amounts with at most two decimals. Scores use exact reals, with Infinity as a constructor.
- `parseFloat` of digit strings too long for a double is left out, and so is the float rounding of their sums.
- Array.prototype.sort: the model proves that the sort is a descending permutation and that its head is the first best proposal. It does not state stability for the other positions, which the recommendation does not use.
- VendorCard.js, BackendPoint.js and the other components are not part of this model.
- The `additionalServices` field is always empty, because the source never fills it.
