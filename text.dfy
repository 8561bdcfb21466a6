/** The few Python `str` operations the modelled code relies on: `isspace`,
    `strip`, `upper`, `startswith`, `in`, `replace`, `split` and `str(int)`.
    Characters are Unicode scalar values; case mapping is ASCII only. */
module PyText {

  /** Python's `str.isspace` on one character (also the class `\s` matches
      in a `str` regular expression). */
  predicate IsSpace(c: char) {
    || c == ' '
    || ('\t' <= c <= '\r')
    || ('\U{1C}' <= c <= '\U{1F}')
    || c == '\U{85}' || c == '\U{A0}' || c == '\U{1680}'
    || ('\U{2000}' <= c <= '\U{200A}')
    || c == '\U{2028}' || c == '\U{2029}' || c == '\U{202F}' || c == '\U{205F}'
    || c == '\U{3000}'
  }

  predicate AllSpace(s: string) {
    forall i :: 0 <= i < |s| ==> IsSpace(s[i])
  }

  /** No whitespace at either end: what `strip` guarantees. */
  predicate Trimmed(s: string) {
    s == [] || (!IsSpace(s[0]) && !IsSpace(s[|s| - 1]))
  }

  /** Index of the first non-whitespace character at or after `k`, or `|s|`. */
  function SkipSpaces(s: string, k: nat): (n: nat)
    requires k <= |s|
    ensures k <= n <= |s|
    ensures forall i :: k <= i < n ==> IsSpace(s[i])
    ensures n < |s| ==> !IsSpace(s[n])
    decreases |s| - k
  {
    if k == |s| || !IsSpace(s[k]) then k else SkipSpaces(s, k + 1)
  }

  /** Number of whitespace characters just before index `k`. */
  function SpacesBefore(s: string, k: nat): (n: nat)
    requires k <= |s|
    ensures n <= k
    ensures forall i :: k - n <= i < k ==> IsSpace(s[i])
    ensures n < k ==> !IsSpace(s[k - n - 1])
  {
    if k == 0 || !IsSpace(s[k - 1]) then 0 else 1 + SpacesBefore(s, k - 1)
  }

  /** Number of leading whitespace characters. */
  function LeadingSpaces(s: string): (n: nat)
    ensures n <= |s|
    ensures forall i :: 0 <= i < n ==> IsSpace(s[i])
    ensures n < |s| ==> !IsSpace(s[n])
  {
    SkipSpaces(s, 0)
  }

  /** Number of trailing whitespace characters. */
  function TrailingSpaces(s: string): (n: nat)
    ensures n <= |s|
    ensures forall i :: |s| - n <= i < |s| ==> IsSpace(s[i])
    ensures n < |s| ==> !IsSpace(s[|s| - n - 1])
  {
    SpacesBefore(s, |s|)
  }

  lemma LeadingSpacesAll(s: string)
    ensures AllSpace(s[..LeadingSpaces(s)])
  {
    var n := LeadingSpaces(s);
    forall i | 0 <= i < n ensures IsSpace(s[..n][i]) {
      assert s[..n][i] == s[i];
    }
  }

  lemma TrailingSpacesAll(s: string)
    ensures AllSpace(s[|s| - TrailingSpaces(s)..])
  {
    var n := TrailingSpaces(s);
    var t := s[|s| - n..];
    forall i | 0 <= i < |t| ensures IsSpace(t[i]) {
      assert t[i] == s[|s| - n + i];
    }
  }

  /** Python's `s.strip()`: drops whitespace at both ends and keeps the
      middle untouched; a string of whitespace only becomes empty. */
  function Strip(s: string): (r: string)
    ensures Trimmed(r)
  {
    var a := LeadingSpaces(s);
    if a == |s| then []
    else
      var b := TrailingSpaces(s);
      assert b < |s| - a;
      s[a..|s| - b]
  }

  /** Where the stripped text sits in the original. */
  lemma StripSlice(s: string)
    ensures LeadingSpaces(s) == |s| ==> Strip(s) == []
    ensures LeadingSpaces(s) < |s| ==>
      LeadingSpaces(s) + TrailingSpaces(s) < |s| && Strip(s) == s[LeadingSpaces(s)..|s| - TrailingSpaces(s)]
  {
    var a, b := LeadingSpaces(s), TrailingSpaces(s);
    if a < |s| {
      assert b < |s| - a;
    }
  }

  /** `strip` removes whitespace at both ends and nothing else. */
  lemma StripIsInfix(s: string)
    ensures var r := Strip(s);
      exists k :: 0 <= k <= |s| - |r| && r == s[k..k + |r|] && AllSpace(s[..k]) && AllSpace(s[k + |r|..])
  {
    var a, b := LeadingSpaces(s), TrailingSpaces(s);
    StripSlice(s);
    LeadingSpacesAll(s);
    if a == |s| {
      assert Strip(s) == s[a..a] && s[a..] == [];
    } else {
      TrailingSpacesAll(s);
      assert Strip(s) == s[a..a + |Strip(s)|];
      assert a + |Strip(s)| == |s| - b;
    }
  }

  /** A text that starts with a non-space and has another non-space at `k`
      keeps its first `k + 1` characters through `strip`. */
  lemma StripKeepsHead(s: string, k: nat)
    requires k < |s| && !IsSpace(s[0]) && !IsSpace(s[k])
    ensures k < |Strip(s)| && Strip(s)[..k + 1] == s[..k + 1]
  {
    StripSlice(s);
    assert LeadingSpaces(s) == 0;
    assert k < |s| - TrailingSpaces(s);
  }

  /** ASCII upper-casing of one character. */
  function UpperChar(c: char): char {
    if 'a' <= c <= 'z' then (c as int - 32) as char else c
  }

  predicate IsLowerAscii(c: char) {
    'a' <= c <= 'z'
  }

  /** Python's `s.upper()`, restricted to ASCII letters. */
  function Upper(s: string): (r: string)
    ensures |r| == |s|
  {
    seq(|s|, i requires 0 <= i < |s| => UpperChar(s[i]))
  }

  /** Upper-casing leaves no lower-case ASCII letter and changes nothing else. */
  lemma UpperLetters(s: string)
    ensures forall i :: 0 <= i < |s| ==> !IsLowerAscii(Upper(s)[i])
    ensures forall i :: 0 <= i < |s| && !IsLowerAscii(s[i]) ==> Upper(s)[i] == s[i]
  {
    forall i | 0 <= i < |s| ensures Upper(s)[i] == UpperChar(s[i]) {
    }
  }

  /** Upper-casing works character by character, so it commutes with slicing. */
  lemma UpperSlice(s: string, i: nat, j: nat)
    requires i <= j <= |s|
    ensures Upper(s[i..j]) == Upper(s)[i..j]
  {
    forall k | 0 <= k < j - i ensures Upper(s[i..j])[k] == Upper(s)[i..j][k] {
      assert Upper(s[i..j])[k] == UpperChar(s[i + k]);
    }
  }

  /** Two characters equal up to ASCII case (SQLite's LIKE and `upper` comparisons). */
  predicate SameLetter(a: char, b: char) {
    UpperChar(a) == UpperChar(b)
  }

  /** Upper-casing changes letters only in their case. */
  lemma UpperSameLetters(s: string)
    ensures forall i :: 0 <= i < |s| ==> SameLetter(Upper(s)[i], s[i])
  {
    forall i | 0 <= i < |s| ensures SameLetter(Upper(s)[i], s[i]) {
      assert Upper(s)[i] == UpperChar(s[i]);
    }
  }

  /** Upper-casing keeps a trimmed text trimmed. */
  lemma UpperKeepsTrimmed(t: string)
    requires Trimmed(t)
    ensures Trimmed(Upper(t))
  {
    if t != [] {
      UpperCharKeepsSpace(t[0]);
      UpperCharKeepsSpace(t[|t| - 1]);
    }
  }

  predicate StartsWith(s: string, prefix: string) {
    |prefix| <= |s| && s[..|prefix|] == prefix
  }

  predicate EndsWith(s: string, suffix: string) {
    |suffix| <= |s| && s[|s| - |suffix|..] == suffix
  }

  predicate OccursAt(s: string, pat: string, i: int) {
    0 <= i <= |s| - |pat| && s[i..i + |pat|] == pat
  }

  /** Python's `pat in s` for a non-empty `pat`. */
  predicate Contains(s: string, pat: string) {
    exists i :: 0 <= i <= |s| - |pat| && OccursAt(s, pat, i)
  }

  /** A string contains every piece it is built from. */
  lemma InfixContained(a: string, b: string, c: string)
    ensures Contains(a + b + c, b)
  {
    assert (a + b + c)[|a|..|a| + |b|] == b;
    assert OccursAt(a + b + c, b, |a|);
  }

  /** Text around an occurrence does not hide it. */
  lemma ContainsWithin(a: string, b: string, c: string, pat: string)
    requires Contains(b, pat)
    ensures Contains(a + b + c, pat)
  {
    var i :| 0 <= i <= |b| - |pat| && OccursAt(b, pat, i);
    assert (a + b + c)[|a| + i..|a| + i + |pat|] == b[i..i + |pat|];
    assert OccursAt(a + b + c, pat, |a| + i);
  }

  /** Python's `s.replace(pat, rep)`: every non-overlapping occurrence of
      `pat`, scanning left to right, is replaced by `rep`. */
  function ReplaceAll(s: string, pat: string, rep: string): (r: string)
    requires pat != []
    ensures !Contains(s, pat) ==> r == s
    decreases |s|
  {
    if |s| < |pat| then s
    else if s[..|pat|] == pat then
      assert OccursAt(s, pat, 0);
      rep + ReplaceAll(s[|pat|..], pat, rep)
    else
      var rest := ReplaceAll(s[1..], pat, rep);
      assert !Contains(s, pat) ==> !Contains(s[1..], pat) by {
        if Contains(s[1..], pat) {
          var i :| 0 <= i <= |s| - 1 - |pat| && OccursAt(s[1..], pat, i);
          assert s[i + 1..i + 1 + |pat|] == s[1..][i..i + |pat|];
          assert OccursAt(s, pat, i + 1);
        }
      }
      assert !Contains(s, pat) ==> [s[0]] + s[1..] == s;
      [s[0]] + rest
  }

  /** Python's `s.split(sep)` for a one-character separator. */
  function Split(s: string, sep: char): (parts: seq<string>)
    ensures |parts| >= 1
    ensures sep !in s ==> parts == [s]
    ensures sep in s ==> |parts| >= 2
    ensures forall i :: 0 <= i < |parts| ==> sep !in parts[i]
    decreases |s|
  {
    if sep !in s then [s]
    else
      var i := FirstIndex(s, sep);
      [s[..i]] + Split(s[i + 1..], sep)
  }

  function FirstIndex(s: string, c: char): (i: nat)
    requires c in s
    ensures i < |s| && s[i] == c && c !in s[..i]
  {
    if s[0] == c then 0
    else
      var j := FirstIndex(s[1..], c);
      assert s[..j + 1] == [s[0]] + s[1..][..j];
      j + 1
  }

  /** `sep.join(parts)`. */
  function Join(sep: string, parts: seq<string>): string {
    if parts == [] then ""
    else if |parts| == 1 then parts[0]
    else parts[0] + sep + Join(sep, parts[1..])
  }

  predicate IsDigit(c: char) {
    '0' <= c <= '9'
  }

  function DigitChar(d: nat): (c: char)
    requires d < 10
    ensures IsDigit(c)
  {
    ('0' as int + d) as char
  }

  /** Python's `str(n)` for a non-negative integer. */
  function NatStr(n: nat): (r: string)
    ensures |r| >= 1
    ensures forall i :: 0 <= i < |r| ==> IsDigit(r[i])
    ensures |r| > 1 ==> r[0] != '0'
  {
    if n < 10 then [DigitChar(n)] else NatStr(n / 10) + [DigitChar(n % 10)]
  }

  /** Reading a digit string back as a number: the partner of `NatStr`. */
  function DigitsValue(s: string): nat
    requires forall i :: 0 <= i < |s| ==> IsDigit(s[i])
  {
    if s == [] then 0
    else
      assert IsDigit(s[|s| - 1]);
      10 * DigitsValue(s[..|s| - 1]) + (s[|s| - 1] as int - '0' as int)
  }

  lemma {:induction false} NatStrRoundTrip(n: nat)
    ensures DigitsValue(NatStr(n)) == n
  {
    if n >= 10 {
      var s := NatStr(n);
      assert s[..|s| - 1] == NatStr(n / 10);
      NatStrRoundTrip(n / 10);
    }
  }

  /** `str` is injective on non-negative integers, so distinct snippet
      numbers print differently. */
  lemma NatStrInjective(m: nat, n: nat)
    ensures NatStr(m) == NatStr(n) ==> m == n
  {
    NatStrRoundTrip(m);
    NatStrRoundTrip(n);
  }

  /** Stripping twice is stripping once. */
  lemma {:induction false} StripIdempotent(s: string)
    ensures Strip(Strip(s)) == Strip(s)
  {
    TrimmedStripsToItself(Strip(s));
  }

  lemma {:induction false} TrimmedStripsToItself(s: string)
    requires Trimmed(s)
    ensures Strip(s) == s
  {
    if s != [] {
      assert LeadingSpaces(s) == 0;
      assert TrailingSpaces(s) == 0;
      assert s[0..|s|] == s;
    }
  }

  lemma {:induction false} AllSpaceStripsToEmpty(s: string)
    requires AllSpace(s)
    ensures Strip(s) == []
  {
    assert LeadingSpaces(s) == |s|;
  }

  /** A string whose strip is empty consists of whitespace only. */
  lemma {:induction false} StripEmptyMeansAllSpace(s: string)
    requires Strip(s) == []
    ensures AllSpace(s)
  {
    StripSlice(s);
    assert LeadingSpaces(s) == |s|;
  }

  /** ASCII upper-casing keeps every whitespace character and every
      non-whitespace character on its side of the divide. */
  lemma UpperCharKeepsSpace(c: char)
    ensures IsSpace(UpperChar(c)) <==> IsSpace(c)
  {
  }

  lemma {:induction false} UpperIdempotent(s: string)
    ensures Upper(Upper(s)) == Upper(s)
  {
    UpperLetters(s);
    UpperLetters(Upper(s));
  }

  /** Upper-casing commutes with stripping. */
  lemma {:induction false} StripUpperCommute(s: string)
    ensures Strip(Upper(s)) == Upper(Strip(s))
  {
    var u := Upper(s);
    LeadingSpacesUpper(s);
    TrailingSpacesUpper(s);
    var a, b := LeadingSpaces(s), TrailingSpaces(s);
    StripSlice(s);
    StripSlice(u);
    if a < |s| {
      UpperSlice(s, a, |s| - b);
    }
  }


  lemma LeadingSpacesUpper(s: string)
    ensures LeadingSpaces(Upper(s)) == LeadingSpaces(s)
  {
    SkipSpacesUpper(s, 0);
  }

  lemma {:induction false} SkipSpacesUpper(s: string, k: nat)
    requires k <= |s|
    ensures SkipSpaces(Upper(s), k) == SkipSpaces(s, k)
    decreases |s| - k
  {
    if k < |s| {
      assert Upper(s)[k] == UpperChar(s[k]);
      UpperCharKeepsSpace(s[k]);
      SkipSpacesUpper(s, k + 1);
    }
  }

  lemma TrailingSpacesUpper(s: string)
    ensures TrailingSpaces(Upper(s)) == TrailingSpaces(s)
  {
    SpacesBeforeUpper(s, |s|);
  }

  lemma {:induction false} SpacesBeforeUpper(s: string, k: nat)
    requires k <= |s|
    ensures SpacesBefore(Upper(s), k) == SpacesBefore(s, k)
  {
    if k > 0 {
      assert Upper(s)[k - 1] == UpperChar(s[k - 1]);
      UpperCharKeepsSpace(s[k - 1]);
      SpacesBeforeUpper(s, k - 1);
    }
  }
}
