/** The regular expressions the registration handler runs, read as written:
    `/<script.?>.?<\/script>/gi` on the email and the character classes
    `[A-Z]`, `[a-z]`, `[0-9]`, `[!@#$%^&*]` on the password. None uses the `u` flag. */
module Patterns {
  import opened JsString

  /** The ECMAScript line terminators, which `.` never matches. */
  predicate IsLineTerminator(c: char) {
    c == '\n' || c == '\r' || c as int == 0x2028 || c as int == 0x2029
  }

  /** What one `.` can consume here. Without the `u` flag `.` takes one UTF-16 code unit;
      every `.?` of the script pattern is followed by `>` or `<`, so a character outside the
      Basic Multilingual Plane (two units) can never be the one `.` takes. */
  predicate Dot(c: char) {
    !IsLineTerminator(c) && IsBmp(c)
  }

  /** ASCII upper-casing. With the `i` flag and no `u` flag, ECMAScript never folds a
      non-ASCII character onto an ASCII one, so against the all-ASCII pattern below
      case-insensitive equality is equality after this mapping. */
  function AsciiUpper(c: char): char {
    if 'a' <= c <= 'z' then (c as int - 32) as char else c
  }

  /** `w` equals the pattern text `p`, ignoring ASCII case. */
  predicate MatchesIgnoringCase(w: string, p: string) {
    |w| == |p| && forall k :: 0 <= k < |p| ==> AsciiUpper(w[k]) == AsciiUpper(p[k])
  }

  const ScriptOpen := "<script"
  const ScriptClose := "</script>"

  /** Declarative reading of `<script.?>.?<\/script>` matching `s` at position `i`,
      with `a` and `b` characters (each at most one) taken by the two `.?`. */
  predicate ScriptTagAt(s: string, i: nat, a: nat, b: nat) {
    && a <= 1 && b <= 1 && i + 17 + a + b <= |s|
    && LiteralAt(s, i, ScriptOpen)
    && (a == 1 ==> Dot(s[i + 7]))
    && s[i + 7 + a] == '>'
    && (b == 1 ==> Dot(s[i + 8 + a]))
    && LiteralAt(s, i + 8 + a + b, ScriptClose)
  }

  /** Some substring of `s` matches the script pattern. */
  ghost predicate ContainsScriptTag(s: string) {
    exists i: nat, a: nat, b: nat :: ScriptTagAt(s, i, a, b)
  }

  // The backtracking matcher, one predicate per remaining piece of the pattern.
  // Each `.?` is greedy: it first tries to take one character, then none.

  /** The pattern text `p` occurs at `j`, ignoring case. */
  predicate LiteralAt(s: string, j: nat, p: string) {
    j + |p| <= |s| && MatchesIgnoringCase(s[j..j + |p|], p)
  }

  /** `.?<\/script>` from `j`. */
  predicate AfterGreater(s: string, j: nat) {
    (j < |s| && Dot(s[j]) && LiteralAt(s, j + 1, ScriptClose)) || LiteralAt(s, j, ScriptClose)
  }

  /** `>.?<\/script>` from `j`. */
  predicate AtGreater(s: string, j: nat) {
    j < |s| && s[j] == '>' && AfterGreater(s, j + 1)
  }

  /** `.?>.?<\/script>` from `j`. */
  predicate AfterOpen(s: string, j: nat) {
    (j < |s| && Dot(s[j]) && AtGreater(s, j + 1)) || AtGreater(s, j)
  }

  /** The whole pattern from start position `i`. */
  predicate MatchFrom(s: string, i: nat) {
    LiteralAt(s, i, ScriptOpen) && AfterOpen(s, i + 7)
  }

  /** The search `RegExp.prototype.test` performs: every start position from `i` on, in order.
      The literal is re-created on each call, so the `g` flag starts every search at 0. */
  function SearchFrom(s: string, i: nat): bool
    decreases |s| - i
  {
    if i > |s| then false else MatchFrom(s, i) || SearchFrom(s, i + 1)
  }

  /** A match found by the backtracking matcher is a match in the declarative sense. */
  lemma MatchFromSound(s: string, i: nat)
    requires MatchFrom(s, i)
    ensures exists a: nat, b: nat :: ScriptTagAt(s, i, a, b)
  {
    var a: nat := if i + 7 < |s| && Dot(s[i + 7]) && AtGreater(s, i + 8) then 1 else 0;
    var j := i + 8 + a;
    var b: nat := if j < |s| && Dot(s[j]) && LiteralAt(s, j + 1, ScriptClose) then 1 else 0;
    assert ScriptTagAt(s, i, a, b);
  }

  /** Every declarative match is found by the backtracking matcher. */
  lemma MatchFromComplete(s: string, i: nat, a: nat, b: nat)
    requires ScriptTagAt(s, i, a, b)
    ensures MatchFrom(s, i)
  {
  }

  /** The search from `i` succeeds exactly when the pattern matches at some position `>= i`. */
  lemma {:induction false} SearchFromIff(s: string, i: nat)
    ensures SearchFrom(s, i) <==> exists k: nat, a: nat, b: nat :: i <= k && ScriptTagAt(s, k, a, b)
    decreases |s| - i
  {
    if i <= |s| {
      SearchFromIff(s, i + 1);
      if MatchFrom(s, i) {
        MatchFromSound(s, i);
      }
      if exists k: nat, a: nat, b: nat :: i <= k && ScriptTagAt(s, k, a, b) {
        var k: nat, a: nat, b: nat :| i <= k && ScriptTagAt(s, k, a, b);
        if k == i {
          MatchFromComplete(s, k, a, b);
        } else {
          assert SearchFrom(s, i + 1);
        }
      }
    }
  }

  /** `/<script.?>.?<\/script>/gi.test(s)`. */
  function ScriptPatternTest(s: string): (found: bool)
    ensures found <==> ContainsScriptTag(s)
  {
    SearchFromIff(s, 0);
    SearchFrom(s, 0)
  }

  /** `/[c]/.test(s)` for a character class `cls`. */
  function TestClass(s: string, cls: char -> bool): (found: bool)
    ensures found <==> exists k :: 0 <= k < |s| && cls(s[k])
  {
    if |s| == 0 then false
    else
      var rest := TestClass(s[1..], cls);
      assert forall k :: 1 <= k < |s| ==> s[k] == s[1..][k - 1];
      cls(s[0]) || rest
  }

  /** `[A-Z]`. */
  predicate IsUpper(c: char) { 'A' <= c <= 'Z' }

  /** `[a-z]`. */
  predicate IsLower(c: char) { 'a' <= c <= 'z' }

  /** `[0-9]`. */
  predicate IsDigit(c: char) { '0' <= c <= '9' }

  /** `[!@#$%^&*]`. */
  predicate IsSpecial(c: char) {
    c == '!' || c == '@' || c == '#' || c == '$' || c == '%' || c == '^' || c == '&' || c == '*'
  }
}
