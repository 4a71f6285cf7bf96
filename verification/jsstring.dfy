/** The few JavaScript string operations the request gate and the validation policy use.
    A Dafny `string` holds Unicode scalar values; JavaScript strings are UTF-16 code units,
    so a character outside the Basic Multilingual Plane counts as two units here. */
module JsString {

  /** True when `c` is a single UTF-16 code unit. */
  predicate IsBmp(c: char) {
    (c as int) < 0x1_0000
  }

  /** The number of UTF-16 code units that encode `c`. */
  function Utf16Units(c: char): (n: nat)
    ensures n == 1 <==> IsBmp(c)
    ensures n == 2 <==> !IsBmp(c)
  {
    if IsBmp(c) then 1 else 2
  }

  /** `s.length` in JavaScript: the number of UTF-16 code units of `s`. */
  function Utf16Length(s: string): (n: nat)
    ensures |s| <= n <= 2 * |s|
    ensures n == |s| <==> forall k :: 0 <= k < |s| ==> IsBmp(s[k])
    ensures |s| == 1 ==> n == Utf16Units(s[0])
  {
    if |s| == 0 then 0
    else
      var rest := Utf16Length(s[1..]);
      assert forall k :: 1 <= k < |s| ==> s[k] == s[1..][k - 1];
      Utf16Units(s[0]) + rest
  }

  /** The length of a concatenation is the sum of the lengths; with the one-character
      case this fixes `Utf16Length` as the sum of the characters' code units. */
  lemma {:induction false} Utf16LengthConcat(a: string, b: string)
    ensures Utf16Length(a + b) == Utf16Length(a) + Utf16Length(b)
    decreases |a|
  {
    if |a| > 0 {
      assert (a + b)[1..] == a[1..] + b;
      Utf16LengthConcat(a[1..], b);
    } else {
      assert a + b == b;
    }
  }

  /** `s.startsWith(p)`. */
  predicate StartsWith(s: string, p: string) {
    |p| <= |s| && s[..|p|] == p
  }

  /** The index of the first occurrence of `c` in `s`, or `|s|` when there is none. */
  function IndexOf(s: string, c: char): (k: nat)
    ensures k <= |s|
    ensures forall j :: 0 <= j < k ==> s[j] != c
    ensures k < |s| ==> s[k] == c
  {
    if |s| == 0 || s[0] == c then 0
    else
      var k := 1 + IndexOf(s[1..], c);
      assert s[..k] == [s[0]] + s[1..][..k - 1];
      k
  }

  /** `s.split(sep)` for a one-character separator: the maximal separator-free runs,
      in order, including empty runs between adjacent separators and at the ends. */
  function Split(s: string, sep: char): (fields: seq<string>)
    ensures |fields| >= 1
    ensures fields[0] == s[..IndexOf(s, sep)]
    ensures sep in s <==> |fields| >= 2
    ensures forall i :: 0 <= i < |fields| ==> sep !in fields[i]
    decreases |s|
  {
    var k := IndexOf(s, sep);
    if k == |s| then
      assert s[..k] == s;
      [s]
    else
      [s[..k]] + Split(s[k + 1..], sep)
  }

  /** `fields.join(sep)`. */
  function Join(fields: seq<string>, sep: char): string
  {
    if |fields| == 0 then ""
    else if |fields| == 1 then fields[0]
    else fields[0] + [sep] + Join(fields[1..], sep)
  }

  /** Splitting loses nothing: joining the fields back with the separator gives the input. */
  lemma {:induction false} JoinSplit(s: string, sep: char)
    ensures Join(Split(s, sep), sep) == s
    decreases |s|
  {
    var k := IndexOf(s, sep);
    if k < |s| {
      var fields := Split(s, sep);
      var rest := Split(s[k + 1..], sep);
      assert fields == [s[..k]] + rest;
      assert fields[1..] == rest;
      JoinSplit(s[k + 1..], sep);
      calc {
        Join(fields, sep);
        fields[0] + [sep] + Join(rest, sep);
        s[..k] + [sep] + s[k + 1..];
        s;
      }
    } else {
      assert s[..k] == s;
    }
  }
}
