/** The two input checks of the registration handler, run before the user store is consulted. */
module Validation {
  import opened JsString
  import opened Patterns

  /** The email is accepted: the email validator accepts it and it contains no
      script-tag-shaped substring in the sense of the pattern as written. */
  ghost predicate EmailAcceptable(isEmail: string -> bool, email: string) {
    isEmail(email) && !ContainsScriptTag(email)
  }

  /** The guard of the email check (routes/auth.js, line 23). */
  function EmailRejected(isEmail: string -> bool, email: string): (rejected: bool)
    ensures rejected <==> !EmailAcceptable(isEmail, email)
  {
    !isEmail(email) || ScriptPatternTest(email)
  }

  /** The password policy: at least 8 UTF-16 code units, and at least one upper-case letter,
      one lower-case letter, one digit and one of `!@#$%^&*`. */
  ghost predicate PasswordStrong(password: string) {
    && Utf16Length(password) >= 8
    && (exists k :: 0 <= k < |password| && IsUpper(password[k]))
    && (exists k :: 0 <= k < |password| && IsLower(password[k]))
    && (exists k :: 0 <= k < |password| && IsDigit(password[k]))
    && (exists k :: 0 <= k < |password| && IsSpecial(password[k]))
  }

  /** The guard of the password check (routes/auth.js, lines 27-33). */
  function PasswordTooWeak(password: string): (weak: bool)
    ensures weak <==> !PasswordStrong(password)
  {
    || Utf16Length(password) < 8
    || !TestClass(password, IsUpper)
    || !TestClass(password, IsLower)
    || !TestClass(password, IsDigit)
    || !TestClass(password, IsSpecial)
  }

  /** A password of fewer than 8 characters, none outside the Basic Multilingual Plane, is weak. */
  lemma ShortPasswordIsWeak(password: string)
    requires |password| < 8
    requires forall k :: 0 <= k < |password| ==> IsBmp(password[k])
    ensures PasswordTooWeak(password)
  {
  }

  /** An ordinary inline script, as a registration email. */
  const InlineScript := "<script>alert(1)</script>"

  lemma InlineScriptChars()
    ensures InlineScript[7] == '>' && InlineScript[8] == 'a' && InlineScript[9] == 'l'
    ensures forall i :: 1 <= i <= 8 ==> InlineScript[i] != '<'
  {
  }

  /** The pattern only catches tags with at most one character inside and between them:
      an ordinary inline script passes it, and only the email validator can reject it. */
  lemma InlineScriptPassesPattern()
    ensures !ContainsScriptTag(InlineScript)
  {
    var s := InlineScript;
    InlineScriptChars();
    forall i: nat, a: nat, b: nat
      ensures !ScriptTagAt(s, i, a, b)
    {
      if a > 1 || b > 1 || i + 17 + a + b > |s| {
      } else if i != 0 {
        assert s[i..i + 7][0] == s[i];
      } else if a == 0 {
        assert s[8 + b..17 + b][0] == s[8 + b];
      }
    }
  }

  const UpperOpen := "<SCRIPT"
  const MixedClose := "</sCrIpT>"

  /** A registration email hiding a mixed-case tag with one character in each slot. */
  const MixedCaseEmail := "a" + UpperOpen + " >x" + MixedClose + "@b.co"

  lemma MixedCaseEmailSlices()
    ensures |MixedCaseEmail| == 25
    ensures MixedCaseEmail[1..8] == UpperOpen
    ensures MixedCaseEmail[8] == ' ' && MixedCaseEmail[9] == '>' && MixedCaseEmail[10] == 'x'
    ensures MixedCaseEmail[11..20] == MixedClose
  {
    var prefix := "a" + UpperOpen + " >x";
    assert MixedCaseEmail == prefix + MixedClose + "@b.co";
    assert prefix[1..8] == UpperOpen;
    assert prefix[8..11] == " >x";
  }

  lemma UpperCaseTagsMatch()
    ensures MatchesIgnoringCase(UpperOpen, ScriptOpen)
    ensures MatchesIgnoringCase(MixedClose, ScriptClose)
  {
  }

  /** The match ignores case and allows one character in each slot. */
  lemma MixedCaseTagIsCaught(isEmail: string -> bool)
    ensures EmailRejected(isEmail, MixedCaseEmail)
  {
    MixedCaseEmailSlices();
    UpperCaseTagsMatch();
    assert ScriptTagAt(MixedCaseEmail, 1, 1, 1);
  }
}
