/** shExpMatch, the matcher that a PAC file calls: `*` stands for any text and `?` for any character. */
module Glob {
  import opened Text

  function Matches(pattern: string, s: string): bool
    decreases |pattern| + |s|
  {
    if pattern == "" then s == ""
    else if pattern[0] == '*' then Matches(pattern[1..], s) || (s != "" && Matches(pattern, s[1..]))
    else s != "" && (pattern[0] == '?' || pattern[0] == s[0]) && Matches(pattern[1..], s[1..])
  }

  predicate Plain(s: string) {
    '*' !in s && '?' !in s
  }

  lemma {:induction false} PlainMatchesItself(p: string, s: string)
    requires Plain(p)
    ensures Matches(p, s) <==> s == p
  {
    if p != "" {
      assert p[0] in p;
      assert p == [p[0]] + p[1..];
      assert forall c :: c in p[1..] ==> c in p;
      if s != "" {
        assert s == [s[0]] + s[1..];
        PlainMatchesItself(p[1..], s[1..]);
      }
    }
  }

  /** A star in front: some tail of the text matches the rest of the pattern. */
  lemma {:induction false} StarMatchesTails(p: string, s: string)
    ensures Matches("*" + p, s) <==> exists k: nat :: k <= |s| && Matches(p, s[k..])
    decreases |s|
  {
    var star := "*" + p;
    assert star[0] == '*' && star[1..] == p;
    assert s[0..] == s;
    if s != "" {
      StarMatchesTails(p, s[1..]);
      if Matches(star, s[1..]) {
        var k: nat :| k <= |s[1..]| && Matches(p, s[1..][k..]);
        assert s[1..][k..] == s[k + 1..];
      }
      forall k: nat | 0 < k <= |s| && Matches(p, s[k..]) ensures Matches(star, s[1..]) {
        assert s[1..][k - 1..] == s[k..];
      }
    }
  }

  /** The pattern *.suffix matches exactly the hosts that end with a dot and the suffix. */
  lemma DotPatternIsDotSuffix(suffix: string, host: string)
    requires Plain(suffix)
    ensures Matches("*." + suffix, host) <==> EndsWith(host, "." + suffix)
  {
    var tail := "." + suffix;
    assert "*." + suffix == "*" + tail;
    StarMatchesTails(tail, host);
    forall k: nat | k <= |host| ensures Matches(tail, host[k..]) <==> host[k..] == tail {
      PlainMatchesItself(tail, host[k..]);
    }
    if EndsWith(host, tail) {
      var k: nat := |host| - |tail|;
      assert k <= |host| && Matches(tail, host[k..]);
    }
  }

  /** One text that a pattern matches: stars dropped, question marks filled in. */
  function Sample(p: string): string {
    if p == "" then ""
    else if p[0] == '*' then Sample(p[1..])
    else [if p[0] == '?' then 'x' else p[0]] + Sample(p[1..])
  }

  lemma {:induction false} SampleMatches(p: string)
    ensures Matches(p, Sample(p)) && |Sample(p)| <= |p|
    ensures Sample(p) == p ==> Plain(p)
  {
    if p != "" {
      SampleMatches(p[1..]);
      assert p == [p[0]] + p[1..];
      var s := Sample(p);
      if p[0] != '*' {
        assert s[1..] == Sample(p[1..]);
      }
    }
  }

  /** The reading "ends with a dot and the suffix" is right for every host if and only if the suffix contains no
      glob character. */
  lemma DotSuffixExactlyWhenPlain(suffix: string)
    ensures (forall host :: Matches("*." + suffix, host) <==> EndsWith(host, "." + suffix)) <==> Plain(suffix)
  {
    if Plain(suffix) {
      forall host ensures Matches("*." + suffix, host) <==> EndsWith(host, "." + suffix) {
        DotPatternIsDotSuffix(suffix, host);
      }
    } else {
      var tail := "." + suffix;
      var host := Sample(tail);
      SampleMatches(tail);
      assert tail[1..] == suffix;
      assert host[0..] == host;
      assert "*." + suffix == "*" + tail;
      StarMatchesTails(tail, host);
      assert Matches("*." + suffix, host);
      assert forall c :: c in suffix ==> c in tail;
    }
  }
}
