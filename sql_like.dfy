/** SQLite's `LIKE` operator as the callsign search uses it:
    `callsign LIKE ? || '%'` with no `ESCAPE` clause. */
module SqlLike {
  import opened PyText

  /** `text LIKE pattern`: `%` matches any run of characters, `_` exactly one
      character, and any other character matches itself up to ASCII case. */
  predicate Like(pattern: string, text: string)
    decreases |pattern| + |text|
  {
    if pattern == [] then text == []
    else if pattern[0] == '%' then Like(pattern[1..], text) || (text != [] && Like(pattern, text[1..]))
    else text != [] && (pattern[0] == '_' || SameLetter(pattern[0], text[0])) && Like(pattern[1..], text[1..])
  }

  /** A string with no `LIKE` wildcard in it. */
  predicate Literal(s: string) {
    '%' !in s && '_' !in s
  }

  predicate StartsWithIgnoringCase(text: string, prefix: string) {
    |prefix| <= |text| && forall i :: 0 <= i < |prefix| ==> SameLetter(prefix[i], text[i])
  }

  /** A lone `%` matches every string. */
  lemma {:induction false} PercentMatchesAll(text: string)
    ensures Like("%", text)
    decreases |text|
  {
    if text != [] {
      PercentMatchesAll(text[1..]);
    }
  }

  /** `text` starts with `prefix` read as a pattern: each `_` accepts any
      character, every other character matches up to ASCII case. */
  predicate PrefixMatches(text: string, prefix: string) {
    |prefix| <= |text| && forall i :: 0 <= i < |prefix| ==> prefix[i] == '_' || SameLetter(prefix[i], text[i])
  }

  /** For a prefix without `%`, `prefix || '%'` matches exactly the texts
      that start with the prefix, `_` standing for any one character. */
  lemma {:induction false} PrefixLike(prefix: string, text: string)
    requires '%' !in prefix
    ensures Like(prefix + "%", text) <==> PrefixMatches(text, prefix)
    decreases |prefix|
  {
    if prefix == [] {
      assert prefix + "%" == "%";
      PercentMatchesAll(text);
    } else {
      var p := prefix + "%";
      assert p[0] == prefix[0] && p[1..] == prefix[1..] + "%";
      assert '%' !in prefix[1..] by {
        forall i | 0 <= i < |prefix[1..]| ensures prefix[1..][i] != '%' {
          assert prefix[1..][i] == prefix[i + 1];
        }
      }
      if text != [] {
        PrefixLike(prefix[1..], text[1..]);
        if PrefixMatches(text[1..], prefix[1..]) && (prefix[0] == '_' || SameLetter(prefix[0], text[0])) {
          forall i | 0 <= i < |prefix| ensures prefix[i] == '_' || SameLetter(prefix[i], text[i]) {
            if i > 0 {
              assert prefix[1..][i - 1] == prefix[i] && text[1..][i - 1] == text[i];
            }
          }
        }
        if PrefixMatches(text, prefix) {
          forall i | 0 <= i < |prefix[1..]| ensures prefix[1..][i] == '_' || SameLetter(prefix[1..][i], text[1..][i]) {
            assert prefix[i + 1] == '_' || SameLetter(prefix[i + 1], text[i + 1]);
          }
        }
      }
    }
  }

  /** For a prefix free of wildcards, `prefix || '%'` is exactly a
      case-insensitive "starts with". */
  lemma LiteralPrefixLike(prefix: string, text: string)
    requires Literal(prefix)
    ensures Like(prefix + "%", text) <==> StartsWithIgnoringCase(text, prefix)
  {
    PrefixLike(prefix, text);
    if PrefixMatches(text, prefix) {
      forall i | 0 <= i < |prefix| ensures SameLetter(prefix[i], text[i]) {
        assert prefix[i] in prefix;
      }
    }
  }

  /** `KK7` as a prefix: it matches `KK7CMT` and `KK7XYZ`, not `K7ABC`, in
      either letter case. */
  lemma CallsignPrefixExamples()
    ensures Like("KK7%", "KK7CMT") && Like("KK7%", "KK7XYZ")
    ensures !Like("KK7%", "K7ABC")
    ensures Like("kk7%", "KK7CMT")
  {
    assert "KK7" + "%" == "KK7%";
    assert "kk7" + "%" == "kk7%";
    LiteralPrefixLike("KK7", "KK7CMT");
    LiteralPrefixLike("KK7", "KK7XYZ");
    LiteralPrefixLike("KK7", "K7ABC");
    LiteralPrefixLike("kk7", "KK7CMT");
    assert !SameLetter("KK7"[1], "K7ABC"[1]);
  }

  /** `_` in the searched callsign is a wildcard: where the pattern has an
      `_`, any character in the text matches it. */
  lemma UnderscoreIsWildcard(prefix: string, text: string, i: nat, c: char)
    requires '%' !in prefix && i < |prefix| && i < |text| && prefix[i] == '_'
    ensures Like(prefix + "%", text) <==> Like(prefix + "%", text[i := c])
  {
    PrefixLike(prefix, text);
    PrefixLike(prefix, text[i := c]);
  }
}
