/** Script names: the pattern `^[a-z0-9\-.]+\.ps1$` (IgnoreCase, Singleline) that both the
    multi-directory locator and the single-directory executor check, and the normalisation that
    appends ".ps1" to a requested name that lacks it. */
module ScriptNames {
  import opened AsciiText

  const Extension: string := ".ps1"

  /** The error strings the locator and the executor share. */
  const InvalidNameMessage: string := "Script name is invalid"
  const NotFoundMessage: string := "Script file does not exist"

  /** The class [a-z0-9\-.] under RegexOptions.IgnoreCase: the character is lower-cased first. */
  predicate InNameClass(c: char) {
    var l := ToLower(c);
    'a' <= l <= 'z' || '0' <= l <= '9' || l == '-' || l == '.'
  }

  /** `[a-z0-9\-.]+\.ps1` spanning all of s: at least one class character, then ".ps1" in any
      case. Since every character of ".ps1" is itself in the class, greedy matching with
      backtracking succeeds exactly when the last four characters spell the extension. */
  predicate MatchesWhole(s: string) {
    && |s| > |Extension|
    && (forall i :: 0 <= i < |s| - |Extension| ==> InNameClass(s[i]))
    && EndsWithIgnoreCase(s, Extension)
  }

  /** Regex.IsMatch for `^[a-z0-9\-.]+\.ps1$`. Without RegexOptions.Multiline, .NET's `$` matches
      at the very end and also just before one final '\n', so "a.ps1\n" is accepted too. */
  predicate IsValidScriptName(name: string) {
    || MatchesWhole(name)
    || (|name| > 0 && name[|name| - 1] == '\n' && MatchesWhole(name[..|name| - 1]))
  }

  /** The name with ".ps1" appended unless it already ends with it, ignoring case. */
  function Normalize(name: string): (r: string)
    ensures EndsWithIgnoreCase(r, Extension)
    ensures |name| <= |r| && r[..|name|] == name
    ensures r == name <==> EndsWithIgnoreCase(name, Extension)
    ensures r != name ==> r[|name|..] == Extension
  {
    if EndsWithIgnoreCase(name, Extension) then name else name + Extension
  }

  /** Normalising twice changes nothing more: "X.PS1" stays "X.PS1", "x" becomes "x.ps1" once. */
  lemma NormalizeIdempotent(name: string)
    ensures Normalize(Normalize(name)) == Normalize(name)
  {
  }

  /** Lower-casing commutes with taking a suffix or a prefix. */
  lemma LowerSlices(s: string, k: nat)
    requires k <= |s|
    ensures Lower(s[k..]) == Lower(s)[k..]
    ensures Lower(s[..k]) == Lower(s)[..k]
  {
    forall i | 0 <= i < |s| - k
      ensures Lower(s[k..])[i] == Lower(s)[k..][i]
    {
      assert s[k..][i] == s[k + i];
    }
  }

  /** An ignore-case suffix test only looks at the lower-cased string. */
  lemma EndsWithIgnoresCase(a: string, b: string, suffix: string)
    requires Lower(a) == Lower(b)
    ensures EndsWithIgnoreCase(a, suffix) <==> EndsWithIgnoreCase(b, suffix)
  {
    assert |a| == |b| by { assert |Lower(a)| == |Lower(b)|; }
    if |suffix| <= |a| {
      LowerSlices(a, |a| - |suffix|);
      LowerSlices(b, |b| - |suffix|);
    }
  }

  /** The whole-string match only looks at the lower-cased string. */
  lemma MatchesWholeIgnoresCase(a: string, b: string)
    requires Lower(a) == Lower(b)
    ensures MatchesWhole(a) <==> MatchesWhole(b)
  {
    assert |a| == |b| by { assert |Lower(a)| == |Lower(b)|; }
    forall i | 0 <= i < |a|
      ensures InNameClass(a[i]) <==> InNameClass(b[i])
    {
      EqualsIgnoreCaseAt(a, b, i);
    }
    EndsWithIgnoresCase(a, b, Extension);
  }

  /** Two names equal ignoring case both end in a line feed or neither does, and what precedes
      it is again equal ignoring case. */
  lemma TrailingLineFeedIgnoresCase(a: string, b: string)
    requires EqualsIgnoreCase(a, b)
    ensures |a| == |b|
    ensures (|a| > 0 && a[|a| - 1] == '\n') <==> (|b| > 0 && b[|b| - 1] == '\n')
    ensures |a| > 0 ==> Lower(a[..|a| - 1]) == Lower(b[..|b| - 1])
  {
    assert |a| == |b| by { assert |Lower(a)| == |Lower(b)|; }
    if |a| > 0 {
      var n := |a| - 1;
      EqualsIgnoreCaseAt(a, b, n);
      LowerSlices(a, n);
      LowerSlices(b, n);
    }
  }

  /** Whether a name is valid does not depend on its case: a file name that equals a valid
      requested name ignoring case is itself valid. */
  lemma {:induction false} ValidityIgnoresCase(a: string, b: string)
    requires EqualsIgnoreCase(a, b)
    ensures IsValidScriptName(a) <==> IsValidScriptName(b)
  {
    MatchesWholeIgnoresCase(a, b);
    TrailingLineFeedIgnoresCase(a, b);
    if |a| > 0 && a[|a| - 1] == '\n' {
      MatchesWholeIgnoresCase(a[..|a| - 1], b[..|b| - 1]);
    }
  }

  /** For a name without a line feed, the pattern holds exactly when every character is a
      letter, a digit, '-' or '.', and the name is longer than ".ps1" and ends with it in any
      case. */
  lemma {:induction false} ValidNameCharacters(name: string)
    requires forall i :: 0 <= i < |name| ==> name[i] != '\n'
    ensures IsValidScriptName(name) <==>
              && |name| > |Extension|
              && (forall i :: 0 <= i < |name| ==> InNameClass(name[i]))
              && EndsWithIgnoreCase(name, Extension)
  {
    if IsValidScriptName(name) {
      var k := |name| - |Extension|;
      forall i | k <= i < |name|
        ensures InNameClass(name[i])
      {
        EqualsIgnoreCaseAt(name[k..], Extension, i - k);
        assert InNameClass(Extension[i - k]);
      }
    }
  }

  /** After normalisation the trailing-'\n' acceptance of `$` cannot happen: a normalised name
      ends in a character that lower-cases to '1'. The lookups only ever test normalised names. */
  lemma NormalizedNameEndsInExtension(name: string)
    ensures IsValidScriptName(Normalize(name)) <==> MatchesWhole(Normalize(name))
  {
    var r := Normalize(name);
    EqualsIgnoreCaseAt(r[|r| - |Extension|..], Extension, |Extension| - 1);
    assert r[|r| - 1] != '\n';
  }

  /** The quirk itself, on a concrete name: the pattern accepts "run.ps1\n", but the normalised
      request built from it, "run.ps1\n.ps1", is rejected. */
  lemma TrailingNewlineQuirk()
    ensures IsValidScriptName("run.ps1\n")
    ensures Normalize("run.ps1\n") == "run.ps1\n.ps1"
    ensures !IsValidScriptName(Normalize("run.ps1\n"))
  {
    var s := "run.ps1\n";
    assert s[..|s| - 1] == "run.ps1";
    assert Lower("run.ps1"[3..]) == ".ps1";
    assert Lower(s[4..]) == "ps1\n";
    var t := "run.ps1\n.ps1";
    assert !InNameClass(t[7]);
    assert t[|t| - 1] == '1';
  }
}
