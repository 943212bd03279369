/**
 * The string primitives the console relies on: JavaScript's `String.prototype.trim`,
 * `toLowerCase`, `indexOf(...) > -1` as a substring test, and the repeated appending
 * of one character that every layout helper performs.
 */
module Text {

  /** ECMAScript WhiteSpace and LineTerminator code points: what `trim` removes. */
  predicate IsSpace(c: char)
  {
    c in SpaceChars || '\U{2000}' <= c <= '\U{200A}'
  }

  /** The whitespace code points outside the range U+2000..U+200A. */
  const SpaceChars: set<char> := {
    '\t', '\n', '\U{B}', '\U{C}', '\r', ' ', '\U{A0}', '\U{1680}',
    '\U{2028}', '\U{2029}', '\U{202F}', '\U{205F}', '\U{3000}', '\U{FEFF}'
  }

  predicate AllSpace(s: string)
  {
    forall k :: 0 <= k < |s| ==> IsSpace(s[k])
  }

  /**
   * The position of the first non-whitespace character of `s` at or after `i`,
   * or `|s|` when there is none: everything skipped is whitespace.
   */
  function FirstNonSpace(s: string, i: nat): (n: nat)
    requires i <= |s|
    ensures i <= n <= |s|
    ensures forall k :: i <= k < n ==> IsSpace(s[k])
    ensures n == |s| || !IsSpace(s[n])
    decreases |s| - i
  {
    if i < |s| && IsSpace(s[i]) then FirstNonSpace(s, i + 1) else i
  }

  /**
   * The position just after the last non-whitespace character of `s` before `j`,
   * or 0 when there is none: everything skipped is whitespace.
   */
  function EndNonSpace(s: string, j: nat): (n: nat)
    requires j <= |s|
    ensures n <= j
    ensures forall k :: n <= k < j ==> IsSpace(s[k])
    ensures n == 0 || !IsSpace(s[n - 1])
  {
    if 0 < j && IsSpace(s[j - 1]) then EndNonSpace(s, j - 1) else j
  }

  /**
   * `str.trim()`: the result begins and ends with a non-whitespace character, or is
   * empty exactly when the input is all whitespace.
   */
  function Trim(s: string): (r: string)
    ensures |r| <= |s|
    ensures r == [] || (!IsSpace(r[0]) && !IsSpace(r[|r| - 1]))
    ensures r == [] <==> AllSpace(s)
  {
    var start := FirstNonSpace(s, 0);
    var end := EndNonSpace(s, |s|);
    if start == |s| then []
    else
      assert start < end;
      s[start..end]
  }

  /**
   * Trimming removes whitespace and nothing else: the result sits in `s` after
   * a run of whitespace and before another.
   */
  lemma TrimDropsOnlySpace(s: string)
    ensures var t := Trim(s);
      var a := FirstNonSpace(s, 0);
      a + |t| <= |s| &&
      AllSpace(s[..a]) && s[a..a + |t|] == t && AllSpace(s[a + |t|..])
  {
  }

  /** Text that neither starts nor ends with whitespace is left as it is. */
  lemma TrimUnchanged(s: string)
    requires s == [] || (!IsSpace(s[0]) && !IsSpace(s[|s| - 1]))
    ensures Trim(s) == s
  {
    assert s[0..|s|] == s;
  }

  /** `toLowerCase` on one character; only the ASCII capitals are mapped. */
  function LowerChar(c: char): (d: char)
    ensures 'A' <= c <= 'Z' ==> d as int == c as int + 32
    ensures !('A' <= c <= 'Z') ==> d == c
  {
    if 'A' <= c <= 'Z' then (c as int + 32) as char else c
  }

  /** `str.toLowerCase()`, character by character. */
  function ToLower(s: string): (r: string)
    ensures |r| == |s|
    ensures forall k :: 0 <= k < |s| ==> r[k] == LowerChar(s[k])
  {
    seq(|s|, k requires 0 <= k < |s| => LowerChar(s[k]))
  }

  /** Lowering neither creates nor destroys whitespace, so it commutes with trimming. */
  lemma TrimToLower(s: string)
    ensures Trim(ToLower(s)) == ToLower(Trim(s))
  {
    FirstNonSpaceToLower(s, 0);
    EndNonSpaceToLower(s, |s|);
    var start := FirstNonSpace(s, 0);
    var end := EndNonSpace(s, |s|);
    if start < |s| {
      ToLowerSlice(s, start, end);
    }
  }

  lemma LowerCharKeepsSpace(c: char)
    ensures IsSpace(LowerChar(c)) == IsSpace(c)
  {
  }

  lemma {:induction false} FirstNonSpaceToLower(s: string, i: nat)
    requires i <= |s|
    ensures FirstNonSpace(ToLower(s), i) == FirstNonSpace(s, i)
    decreases |s| - i
  {
    if i < |s| {
      LowerCharKeepsSpace(s[i]);
      if IsSpace(s[i]) {
        FirstNonSpaceToLower(s, i + 1);
      }
    }
  }

  lemma {:induction false} EndNonSpaceToLower(s: string, j: nat)
    requires j <= |s|
    ensures EndNonSpace(ToLower(s), j) == EndNonSpace(s, j)
  {
    if 0 < j {
      LowerCharKeepsSpace(s[j - 1]);
      if IsSpace(s[j - 1]) {
        EndNonSpaceToLower(s, j - 1);
      }
    }
  }

  /** Lowering works character by character, so it commutes with taking a slice. */
  lemma ToLowerSlice(s: string, a: nat, b: nat)
    requires a <= b <= |s|
    ensures ToLower(s)[a..b] == ToLower(s[a..b])
  {
  }

  /** Lowering a lowered string changes nothing. */
  lemma ToLowerIdempotent(s: string)
    ensures ToLower(ToLower(s)) == ToLower(s)
  {
  }

  /** `s.indexOf(pattern) > -1`: `pattern` occurs in `s` at some position. */
  predicate Contains(s: string, pattern: string)
  {
    exists i :: 0 <= i <= |s| - |pattern| && OccursAt(s, pattern, i)
  }

  predicate OccursAt(s: string, pattern: string, i: int)
    requires 0 <= i <= |s| - |pattern|
  {
    s[i..i + |pattern|] == pattern
  }

  /** `n` copies of `c`, as built by `for (i = 0; i < n; i++) line += c`. */
  function Repeat(c: char, n: nat): (r: string)
    ensures |r| == n
    ensures forall k :: 0 <= k < n ==> r[k] == c
  {
    if n == 0 then [] else Repeat(c, n - 1) + [c]
  }
}
