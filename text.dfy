/**
 * Character classes and scanners shared by the hand-written regular expressions
 * of the extraction and by the model of JavaScript's parseInt.
 */
module Text {

  import opened Wrappers

  /** `\d` of a JavaScript regular expression without the `u` flag: the ASCII digits. */
  predicate IsDigit(c: char) { '0' <= c <= '9' }

  /** `\s` of a JavaScript regular expression. The same set (white space and line
      terminators) is what parseInt skips before a number. */
  predicate IsSpace(c: char) {
    var n := c as int;
    n == 0x09 || n == 0x0A || n == 0x0B || n == 0x0C || n == 0x0D || n == 0x20 ||
    n == 0xA0 || n == 0x1680 || (0x2000 <= n <= 0x200A) || n == 0x2028 || n == 0x2029 ||
    n == 0x202F || n == 0x205F || n == 0x3000 || n == 0xFEFF
  }

  /** The case folding of the `i` flag as it affects the ASCII letters of the patterns:
      without the `u` flag no non-ASCII character folds onto an ASCII letter. */
  function ToLower(c: char): (r: char)
    ensures 'A' <= c <= 'Z' ==> 'a' <= r <= 'z'
    ensures !('A' <= c <= 'Z') ==> r == c
  {
    if 'A' <= c <= 'Z' then (c as int + 32) as char else c
  }

  /** The lower-case literal `word` stands at position `i` of `s`, ignoring ASCII case. */
  predicate WordAt(s: string, i: nat, word: string) {
    i + |word| <= |s| && forall k :: 0 <= k < |word| ==> ToLower(s[i + k]) == word[k]
  }

  /** A word does not stand where one of its letters does not. */
  lemma NotWordAt(s: string, i: nat, word: string, k: nat)
    requires k < |word| && i + k < |s| && ToLower(s[i + k]) != word[k]
    ensures !WordAt(s, i, word)
  {
  }

  /** A three-letter word stands where its three letters do. */
  lemma WordOfThree(s: string, i: nat, word: string)
    requires |word| == 3 && i + 3 <= |s|
    requires ToLower(s[i]) == word[0] && ToLower(s[i + 1]) == word[1] && ToLower(s[i + 2]) == word[2]
    ensures WordAt(s, i, word)
  {
    forall k | 0 <= k < 3 ensures ToLower(s[i + k]) == word[k] {
      assert k == 0 || k == 1 || k == 2;
    }
  }

  /** End of the greedy `\s*` that starts at `i`. */
  function SkipSpaces(s: string, i: nat): (j: nat)
    requires i <= |s|
    ensures i <= j <= |s|
    ensures forall k :: i <= k < j ==> IsSpace(s[k])
    ensures j == |s| || !IsSpace(s[j])
    decreases |s| - i
  {
    if i < |s| && IsSpace(s[i]) then SkipSpaces(s, i + 1) else i
  }

  /** A run of white space from `i` that ends at a non-space is what `\s*` takes. */
  lemma {:induction false} SkipSpacesIs(s: string, i: nat, j: nat)
    requires i <= j <= |s|
    requires forall k :: i <= k < j ==> IsSpace(s[k])
    requires j == |s| || !IsSpace(s[j])
    ensures SkipSpaces(s, i) == j
    decreases j - i
  {
    if i < j {
      SkipSpacesIs(s, i + 1, j);
    }
  }

  /** The two number bases parseInt reads here. */
  datatype Base = Decimal | Hexadecimal

  predicate IsBaseDigit(c: char, b: Base) {
    IsDigit(c) || (b == Hexadecimal && ('a' <= c <= 'f' || 'A' <= c <= 'F'))
  }

  /** The value of one digit character (0 for a character that is not a digit). */
  function DigitValue(c: char): (v: nat)
    ensures v < 16
    ensures IsDigit(c) ==> v < 10
  {
    if IsDigit(c) then c as int - '0' as int
    else if 'a' <= c <= 'f' then c as int - 'a' as int + 10
    else if 'A' <= c <= 'F' then c as int - 'A' as int + 10
    else 0
  }

  function Radix(b: Base): nat {
    if b == Decimal then 10 else 16
  }

  /** The positional value of a digit string in base `b`. */
  function Value(d: string, b: Base): nat {
    if d == [] then 0 else Value(d[..|d| - 1], b) * Radix(b) + DigitValue(d[|d| - 1])
  }

  /** End of the longest run of `b`-digits that starts at `i` (greedy `\d+` for decimals). */
  function RunEnd(s: string, i: nat, b: Base): (j: nat)
    requires i <= |s|
    ensures i <= j <= |s|
    ensures forall k :: i <= k < j ==> IsBaseDigit(s[k], b)
    ensures j == |s| || !IsBaseDigit(s[j], b)
    decreases |s| - i
  {
    if i < |s| && IsBaseDigit(s[i], b) then RunEnd(s, i + 1, b) else i
  }

  /** A run of `b`-digits from `i` that ends at a non-digit is what the greedy run takes. */
  lemma {:induction false} RunEndIs(s: string, i: nat, j: nat, b: Base)
    requires i <= j <= |s|
    requires forall k :: i <= k < j ==> IsBaseDigit(s[k], b)
    requires j == |s| || !IsBaseDigit(s[j], b)
    ensures RunEnd(s, i, b) == j
    decreases j - i
  {
    if i < j {
      RunEndIs(s, i + 1, j, b);
    }
  }

  /** A non-empty string of decimal digits, such as any capture of `(\d+)`. */
  predicate IsDigits(d: string) {
    |d| > 0 && forall k :: 0 <= k < |d| ==> IsDigit(d[k])
  }

  /** First position at or after `i` holding a decimal digit (|s| when there is none). */
  function NextDigit(s: string, i: nat): (k: nat)
    requires i <= |s|
    ensures i <= k <= |s|
    ensures forall q :: i <= q < k ==> !IsDigit(s[q])
    ensures k < |s| ==> IsDigit(s[k])
    decreases |s| - i
  {
    if i == |s| || IsDigit(s[i]) then i else NextDigit(s, i + 1)
  }

  /** `s.match(/\d+/)?.[0]`: the leftmost, longest run of digits. */
  function FirstDigitRun(s: string): (r: Option<string>)
    ensures r.Some? ==> IsDigits(r.value)
    ensures r.None? <==> forall k :: 0 <= k < |s| ==> !IsDigit(s[k])
  {
    var k := NextDigit(s, 0);
    if k == |s| then None else Some(s[k..RunEnd(s, k, Decimal)])
  }

  /** A run that is exactly the digit string `d` ends where `d` ends. */
  lemma RunEndOfDigits(d: string, rest: string)
    requires IsDigits(d)
    requires rest == [] || !IsDigit(rest[0])
    ensures RunEnd(d + rest, 0, Decimal) == |d|
    ensures (d + rest)[..|d|] == d
  {
  }
}
