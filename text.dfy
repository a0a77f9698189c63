/**
 * Python string helpers the core relies on: the whitespace test behind
 * `str.isspace`, `str.strip()` without arguments, and the prefix, suffix and
 * substring tests used to state what a rendered prompt contains.
 */
module Text {

  /** Python's whitespace for `str`: the characters `str.isspace` accepts. */
  predicate IsSpace(c: char)
    ensures (c == ' ' || c == '\t' || c == '\n' || c == '\r' || c == '\U{B}' || c == '\U{C}') ==> IsSpace(c)
    ensures IsSpace(c) ==> c <= '\U{3000}' && !('0' <= c <= '9') && !('A' <= c <= 'Z') && !('a' <= c <= 'z')
  {
    ('\t' <= c <= '\r')            // tab, line feed, vertical tab, form feed, carriage return
    || ('\U{1C}' <= c <= ' ')      // file, group, record and unit separators, space
    || c == '\U{85}' || c == '\U{A0}' || c == '\U{1680}'
    || ('\U{2000}' <= c <= '\U{200A}')
    || c == '\U{2028}' || c == '\U{2029}' || c == '\U{202F}' || c == '\U{205F}'
    || c == '\U{3000}'
  }

  predicate AllSpace(s: string) {
    forall k | 0 <= k < |s| :: IsSpace(s[k])
  }

  /** Neither the first nor the last character is whitespace. */
  predicate NoOuterSpace(s: string) {
    s == [] || (!IsSpace(s[0]) && !IsSpace(s[|s| - 1]))
  }

  /** The length of the maximal leading run of whitespace. */
  function LeadingSpaces(s: string): (n: nat)
    ensures n <= |s|
    ensures forall k | 0 <= k < n :: IsSpace(s[k])
    ensures n == |s| || !IsSpace(s[n])
  {
    if s != [] && IsSpace(s[0]) then 1 + LeadingSpaces(s[1..]) else 0
  }

  /** Where the maximal trailing run of whitespace begins. */
  function TrailingStart(s: string): (m: nat)
    ensures m <= |s|
    ensures forall k | m <= k < |s| :: IsSpace(s[k])
    ensures m == 0 || !IsSpace(s[m - 1])
  {
    if s != [] && IsSpace(s[|s| - 1]) then TrailingStart(s[..|s| - 1]) else |s|
  }

  /**
   * Python's `str.strip()`: `s` without its maximal leading and trailing runs
   * of whitespace. The result is empty exactly when `s` is all whitespace,
   * and otherwise starts and ends with a non-space character.
   */
  function Strip(s: string): (r: string)
    ensures |r| <= |s|
    ensures NoOuterSpace(r)
    ensures r == [] <==> AllSpace(s)
  {
    var i := LeadingSpaces(s);
    if i == |s| then [] else s[i..TrailingStart(s)]
  }

  /**
   * What Strip removes is whitespace: `Strip(s)` is the window of `s` that
   * starts after the leading whitespace run, with only whitespace on each side.
   */
  lemma {:induction false} StripWindow(s: string) returns (lead: nat)
    ensures lead + |Strip(s)| <= |s| && OccursAt(s, Strip(s), lead)
    ensures AllSpace(s[..lead]) && AllSpace(s[lead + |Strip(s)|..])
  {
    lead := LeadingSpaces(s);
    var tail := if lead == |s| then |s| else TrailingStart(s);
    assert Strip(s) == s[lead..tail];
    forall k | 0 <= k < |s[tail..]| ensures IsSpace(s[tail..][k]) {
      assert s[tail..][k] == s[tail + k];
    }
  }

  /**
   * Strip removes maximal runs and nothing else: for any split of `s` into an
   * all-space head, a middle without outer whitespace and an all-space tail,
   * `Strip(s)` is that middle.
   */
  lemma {:induction false} StripUnique(s: string, i: nat, j: nat)
    requires i <= j <= |s|
    requires AllSpace(s[..i]) && AllSpace(s[j..]) && NoOuterSpace(s[i..j])
    ensures Strip(s) == s[i..j]
  {
    forall k | 0 <= k < i ensures IsSpace(s[k]) { assert s[k] == s[..i][k]; }
    forall k | j <= k < |s| ensures IsSpace(s[k]) { assert s[k] == s[j..][k - j]; }
    if i < j {
      assert s[i] == s[i..j][0] && s[j - 1] == s[i..j][j - 1 - i];
      assert LeadingSpaces(s) == i;
      assert TrailingStart(s) == j;
    }
  }

  /** Stripping twice strips nothing more. */
  lemma {:induction false} StripIdempotent(s: string)
    ensures Strip(Strip(s)) == Strip(s)
  {
  }

  predicate StartsWith(s: string, p: string) {
    |p| <= |s| && s[..|p|] == p
  }

  predicate EndsWith(s: string, q: string) {
    |q| <= |s| && s[|s| - |q|..] == q
  }

  /** `t` occurs in `s` starting at index `i`. */
  predicate OccursAt(s: string, t: string, i: nat) {
    i + |t| <= |s| && s[i..i + |t|] == t
  }

  /** Python's `t in s` for strings. */
  predicate Contains(s: string, t: string) {
    exists i: nat | i <= |s| :: OccursAt(s, t, i)
  }

  /** An occurrence stays where it is when text is appended. */
  lemma {:induction false} OccursExtend(s: string, t: string, i: nat, q: string)
    requires OccursAt(s, t, i)
    ensures OccursAt(s + q, t, i) && Contains(s + q, t)
  {
    assert (s + q)[i..i + |t|] == s[i..i + |t|];
    assert OccursAt(s + q, t, i);
  }

  /** A string occurs at the end of a concatenation it ends. */
  lemma {:induction false} OccursAtEnd(a: string, t: string)
    ensures OccursAt(a + t, t, |a|)
  {
    assert (a + t)[|a|..|a| + |t|] == t;
  }

  /** The middle of a concatenation occurs in it, right after the head. */
  lemma {:induction false} ConcatOccurs(a: string, t: string, b: string)
    ensures OccursAt(a + t + b, t, |a|)
    ensures Contains(a + t + b, t)
  {
    assert (a + t + b)[|a|..|a| + |t|] == t;
    assert OccursAt(a + t + b, t, |a|);
  }
}
