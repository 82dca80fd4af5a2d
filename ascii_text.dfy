/** The .NET string operations the core relies on, restricted to ASCII: whitespace tests and
    Trim, ordinal case-insensitive comparison, ToLower, and String.Split on ',' and ';'. */
module AsciiText {

  /** Char.IsWhiteSpace on ASCII: tab, line feed, vertical tab, form feed, carriage return, space. */
  predicate IsWhiteSpace(c: char) {
    c == ' ' || ('\t' <= c <= '\r')
  }

  /** string.IsNullOrWhiteSpace for a non-null string: empty, or whitespace only. */
  predicate IsBlank(s: string) {
    forall i :: 0 <= i < |s| ==> IsWhiteSpace(s[i])
  }

  /** The number of whitespace characters in front of the text of s. */
  function LeadingWhiteSpace(s: string): (k: nat)
    ensures k <= |s|
    ensures IsBlank(s[..k])
    ensures k < |s| ==> !IsWhiteSpace(s[k])
  {
    if s == [] || !IsWhiteSpace(s[0]) then 0 else 1 + LeadingWhiteSpace(s[1..])
  }

  /** The length of s without its trailing whitespace. */
  function TextEnd(s: string): (k: nat)
    ensures k <= |s|
    ensures IsBlank(s[k..])
    ensures k > 0 ==> !IsWhiteSpace(s[k - 1])
  {
    if s == [] || !IsWhiteSpace(s[|s| - 1]) then |s| else TextEnd(s[..|s| - 1])
  }

  /** string.Trim(): the slice of s that starts at its first and ends at its last
      non-whitespace character; nothing but whitespace is dropped on either side. */
  function Trim(s: string): (r: string)
    ensures IsBlank(s) <==> r == []
    ensures r != [] ==> !IsWhiteSpace(r[0]) && !IsWhiteSpace(r[|r| - 1])
    ensures LeadingWhiteSpace(s) + |r| <= |s|
    ensures r == s[LeadingWhiteSpace(s)..LeadingWhiteSpace(s) + |r|]
    ensures IsBlank(s[LeadingWhiteSpace(s) + |r|..])
  {
    var start := LeadingWhiteSpace(s);
    var rest := s[start..];
    var end := TextEnd(rest);
    var r := rest[..end];
    BlankSplit(s, start);
    BlankSplit(rest, end);
    assert end > 0 ==> !IsBlank(rest[..end]) by {
      if end > 0 { assert rest[..end][end - 1] == rest[end - 1]; }
    }
    assert r != [] ==> r[0] == s[start] && r[|r| - 1] == rest[end - 1];
    assert s[start + |r|..] == rest[end..];
    assert s[start..start + |r|] == r;
    r
  }

  /** A string is blank exactly when both parts of any cut of it are. */
  lemma BlankSplit(s: string, k: nat)
    requires k <= |s|
    ensures IsBlank(s) <==> IsBlank(s[..k]) && IsBlank(s[k..])
  {
    if IsBlank(s[..k]) && IsBlank(s[k..]) {
      forall i | 0 <= i < |s| ensures IsWhiteSpace(s[i]) {
        if i < k { assert s[..k][i] == s[i]; } else { assert s[k..][i - k] == s[i]; }
      }
    }
  }

  /** Char.ToLowerInvariant on ASCII: only 'A'..'Z' change. */
  function ToLower(c: char): (l: char)
    ensures 'A' <= c <= 'Z' ==> 'a' <= l <= 'z' && l as int - c as int == 32
    ensures !('A' <= c <= 'Z') ==> l == c
  {
    if 'A' <= c <= 'Z' then (c as int + 32) as char else c
  }

  /** string.ToLower() on ASCII. */
  function Lower(s: string): (r: string)
    ensures |r| == |s|
    ensures forall i :: 0 <= i < |s| ==> r[i] == ToLower(s[i])
  {
    seq(|s|, i requires 0 <= i < |s| => ToLower(s[i]))
  }

  /** string.Equals(a, b, StringComparison.OrdinalIgnoreCase) on ASCII. */
  predicate EqualsIgnoreCase(a: string, b: string) {
    Lower(a) == Lower(b)
  }

  /** s.EndsWith(suffix, StringComparison.OrdinalIgnoreCase) on ASCII. */
  predicate EndsWithIgnoreCase(s: string, suffix: string) {
    |suffix| <= |s| && EqualsIgnoreCase(s[|s| - |suffix|..], suffix)
  }

  /** Two strings equal ignoring case agree, position by position, up to ToLower. */
  lemma EqualsIgnoreCaseAt(a: string, b: string, i: int)
    requires EqualsIgnoreCase(a, b) && 0 <= i < |a|
    ensures |a| == |b| && ToLower(a[i]) == ToLower(b[i])
  {
    assert |Lower(a)| == |Lower(b)|;
    assert Lower(a)[i] == Lower(b)[i];
  }

  /** The separators of String.Split(',', ';'). */
  predicate IsSeparator(c: char) {
    c == ',' || c == ';'
  }

  /** String.Split(',', ';'): the pieces between separators, empty ones included, in order. */
  function Split(s: string): (pieces: seq<string>)
    ensures |pieces| >= 1
  {
    if s == [] then [[]]
    else
      var rest := Split(s[1..]);
      if IsSeparator(s[0]) then [[]] + rest
      else [[s[0]] + rest[0]] + rest[1..]
  }

  /** The separator characters of s, in order. */
  function Separators(s: string): (seps: string)
    ensures forall i :: 0 <= i < |seps| ==> IsSeparator(seps[i])
  {
    if s == [] then []
    else if IsSeparator(s[0]) then [s[0]] + Separators(s[1..])
    else Separators(s[1..])
  }

  /** Joins pieces, putting the i-th separator between piece i and piece i + 1. */
  function JoinWith(pieces: seq<string>, seps: string): string
    requires |pieces| == |seps| + 1
  {
    if seps == [] then pieces[0] else pieces[0] + [seps[0]] + JoinWith(pieces[1..], seps[1..])
  }

  /** No piece of a split contains a separator. */
  lemma {:induction false} SplitPiecesHaveNoSeparator(s: string)
    ensures forall k, i :: 0 <= k < |Split(s)| && 0 <= i < |Split(s)[k]| ==> !IsSeparator(Split(s)[k][i])
  {
    if s != [] {
      SplitPiecesHaveNoSeparator(s[1..]);
      var rest := Split(s[1..]);
      if !IsSeparator(s[0]) {
        var head := [s[0]] + rest[0];
        assert forall i :: 0 <= i < |head| ==> !IsSeparator(head[i]) by {
          forall i | 0 <= i < |head| ensures !IsSeparator(head[i]) {
            if i > 0 { assert head[i] == rest[0][i - 1]; }
          }
        }
        assert Split(s) == [head] + rest[1..];
      }
    }
  }

  /** Splitting loses nothing: there is one more piece than there are separators, and joining
      the pieces back with the separators gives the original string. */
  lemma {:induction false} SplitJoinRoundTrip(s: string)
    ensures |Split(s)| == |Separators(s)| + 1
    ensures JoinWith(Split(s), Separators(s)) == s
  {
    if s != [] {
      SplitJoinRoundTrip(s[1..]);
      var rest := Split(s[1..]);
      var seps := Separators(s[1..]);
      if IsSeparator(s[0]) {
        assert Split(s) == [[]] + rest;
        assert Separators(s) == [s[0]] + seps;
        assert JoinWith(Split(s), Separators(s)) == [] + [s[0]] + JoinWith(rest, seps);
        assert s == [s[0]] + s[1..];
      } else {
        JoinWithExtendsHead(s[0], rest, seps);
        assert s == [s[0]] + s[1..];
      }
    }
  }

  /** Prefixing the first piece with c prefixes the joined string with c. */
  lemma JoinWithExtendsHead(c: char, pieces: seq<string>, seps: string)
    requires |pieces| == |seps| + 1
    ensures JoinWith([[c] + pieces[0]] + pieces[1..], seps) == [c] + JoinWith(pieces, seps)
  {
    var extended := [[c] + pieces[0]] + pieces[1..];
    assert extended[0] == [c] + pieces[0];
    if seps != [] {
      assert extended[1..] == pieces[1..];
      assert JoinWith(extended, seps) == ([c] + pieces[0]) + [seps[0]] + JoinWith(pieces[1..], seps[1..]);
    }
  }
}
