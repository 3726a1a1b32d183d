/**
  * The part of JavaScript's string semantics the editor relies on:
  * `String.prototype.trim` and the truthiness of its result.
  */
module JsString {

  /**
    * The ECMAScript WhiteSpace and LineTerminator code points, the set `trim`
    * strips: TAB to CR, SPACE, NBSP, the Unicode space separators, LS, PS and BOM.
    */
  predicate IsWhitespace(c: char) {
    var n := c as int;
    (9 <= n <= 13) || n == 32 || n == 0xA0 || n == 0x1680 || (0x2000 <= n <= 0x200A)
    || n == 0x2028 || n == 0x2029 || n == 0x202F || n == 0x205F || n == 0x3000 || n == 0xFEFF
  }

  /** Every character is whitespace: exactly the strings for which `!s.trim()` holds. */
  predicate IsBlank(s: string) {
    forall i :: 0 <= i < |s| ==> IsWhitespace(s[i])
  }

  /** `s.trim()` is truthy. */
  predicate HasText(s: string) {
    !IsBlank(s)
  }

  /** The first index at or after `i` that does not hold whitespace (or `|s|`). */
  function SkipForward(s: string, i: nat): (k: nat)
    requires i <= |s|
    ensures i <= k <= |s|
    ensures forall m :: i <= m < k ==> IsWhitespace(s[m])
    ensures k < |s| ==> !IsWhitespace(s[k])
    decreases |s| - i
  {
    if i < |s| && IsWhitespace(s[i]) then SkipForward(s, i + 1) else i
  }

  /** The least index `k` in `lo..j` such that `s[k..j]` is all whitespace. */
  function SkipBackward(s: string, lo: nat, j: nat): (k: nat)
    requires lo <= j <= |s|
    ensures lo <= k <= j
    ensures forall m :: k <= m < j ==> IsWhitespace(s[m])
    ensures lo < k ==> !IsWhitespace(s[k - 1])
    decreases j
  {
    if lo < j && IsWhitespace(s[j - 1]) then SkipBackward(s, lo, j - 1) else j
  }

  /** Where the text kept by `trim` starts. */
  function TrimStart(s: string): nat {
    SkipForward(s, 0)
  }

  /** Where the text kept by `trim` ends. */
  function TrimEnd(s: string): nat {
    SkipBackward(s, TrimStart(s), |s|)
  }

  /**
    * `s.trim()`: the slice of `s` left after dropping a blank prefix and a
    * blank suffix; it neither starts nor ends with whitespace, and it is empty
    * exactly when `s` is blank.
    */
  function Trim(s: string): (r: string)
    ensures TrimStart(s) <= TrimEnd(s) <= |s| && r == s[TrimStart(s)..TrimEnd(s)]
    ensures forall m :: 0 <= m < TrimStart(s) ==> IsWhitespace(s[m])
    ensures forall m :: TrimEnd(s) <= m < |s| ==> IsWhitespace(s[m])
    ensures r == [] || (!IsWhitespace(r[0]) && !IsWhitespace(r[|r| - 1]))
    ensures r == [] <==> IsBlank(s)
  {
    var a := TrimStart(s);
    var b := TrimEnd(s);
    assert a < b ==> s[a..b][0] == s[a] && s[a..b][b - a - 1] == s[b - 1];
    s[a..b]
  }

  /** Trimming twice is trimming once: a saved, already trimmed text survives a second save. */
  lemma TrimIdempotent(s: string)
    ensures Trim(Trim(s)) == Trim(s)
  {
    var r := Trim(s);
    if r != [] {
      assert !IsWhitespace(r[0]);
      assert TrimStart(r) == 0;
      assert !IsWhitespace(r[|r| - 1]);
      assert TrimEnd(r) == |r|;
    }
  }
}
