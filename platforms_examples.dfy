/** Worked cases of the Windows matcher on concrete version strings. */
module PlatformsExamples {
  import opened Wrappers
  import opened GoStrings
  import opened GoStrconv
  import opened Platforms

  lemma JoinThree(a: string, b: string, c: string)
    ensures Join([a, b, c]) == a + "." + b + "." + c
  {
    var parts := [a, b, c];
    assert parts[1..] == [b, c] && parts[1..][1..] == [c];
    assert Join([b, c]) == b + "." + c;
  }

  lemma SplitThree(a: string, b: string, c: string)
    requires DotFree(a) && DotFree(b) && DotFree(c)
    ensures Split(a + "." + b + "." + c) == [a, b, c]
  {
    var parts := [a, b, c];
    assert AllDotFree(parts);
    JoinThree(a, b, c);
    SplitJoin(parts);
  }

  /** A prefix "a.b.n" with a 16-bit decimal `n` has build number `n`. */
  lemma BuildNumberOf(m: WindowsMatcher, a: string, b: string, n: uint16)
    requires DotFree(a) && DotFree(b)
    requires m.osVersionPrefix == a + "." + b + "." + FormatUint(n as nat)
    ensures GetBuildNumber(m) == Some(n)
  {
    DigitsHaveNoDot(FormatUint(n as nat));
    SplitThree(a, b, FormatUint(n as nat));
  }

  lemma Format17763()
    ensures FormatUint(17763) == "17763"
  {
    assert FormatUint(17) == "17";
    assert FormatUint(1776) == "1776";
  }

  lemma Format14393()
    ensures FormatUint(14393) == "14393"
  {
    assert FormatUint(14) == "14";
    assert FormatUint(1439) == "1439";
  }

  lemma Format1713()
    ensures FormatUint(1713) == "1713"
  {
    assert FormatUint(17) == "17";
  }

  lemma JoinFour(a: string, b: string, c: string, d: string)
    ensures Join([a, b, c, d]) == a + "." + b + "." + c + "." + d
  {
    var parts := [a, b, c, d];
    assert parts[1..] == [b, c, d] && parts[1..][1..] == [c, d] && parts[1..][1..][1..] == [d];
    assert Join([c, d]) == c + "." + d;
    assert Join([b, c, d]) == b + "." + (c + "." + d);
    assert Join(parts) == a + "." + (b + "." + (c + "." + d));
  }

  /** The revision of "a.b.c.r". */
  lemma RevisionOf(v: string, a: string, b: string, c: string, r: int)
    requires DotFree(a) && DotFree(b) && DotFree(c) && MinInt <= r <= MaxInt
    requires v == a + "." + b + "." + c + "." + Itoa(r)
    ensures Revision(v) == r
  {
    JoinFour(a, b, c, Itoa(r));
    RevisionOfFourthComponent(a, b, c, r, []);
    assert [a, b, c, Itoa(r)] + [] == [a, b, c, Itoa(r)];
  }

  /** An RS5 host accepts an older image version. */
  lemma RS5AcceptsOlderImage(m: WindowsMatcher, p: Platform)
    requires m.platform.os == "windows" && m.defaultMatcher(p)
    requires m.osVersionPrefix == "10.0.17763" && p.osVersion == "10.0.14393.2214"
    ensures GetBuildNumber(m) == Some(17763)
    ensures Match(m, p)
  {
    Format17763();
    assert m.osVersionPrefix == "10" + "." + "0" + "." + "17763";
    BuildNumberOf(m, "10", "0", 17763);
  }

  /** A pre-RS5 host accepts an image of its own build. */
  lemma PreRS5AcceptsSameBuild(m: WindowsMatcher, p: Platform)
    requires m.platform.os == "windows" && m.defaultMatcher(p)
    requires m.osVersionPrefix == "10.0.14393" && p.osVersion == "10.0.14393.2214"
    ensures GetBuildNumber(m) == Some(14393)
    ensures Match(m, p)
  {
    Format14393();
    assert m.osVersionPrefix == "10" + "." + "0" + "." + "14393";
    BuildNumberOf(m, "10", "0", 14393);
    MatchByLiteralPrefix(m, p);
  }

  /** A pre-RS5 host rejects an image of a different build. */
  lemma PreRS5RejectsOtherBuild(m: WindowsMatcher, q: Platform)
    requires m.platform.os == "windows" && m.defaultMatcher(q)
    requires m.osVersionPrefix == "10.0.14393" && q.osVersion == "10.0.17763.1"
    ensures !Match(m, q)
  {
    Format14393();
    assert m.osVersionPrefix == "10" + "." + "0" + "." + "14393";
    BuildNumberOf(m, "10", "0", 14393);
    MatchByLiteralPrefix(m, q);
    assert q.osVersion[6] != m.osVersionPrefix[6];
  }

  /** A two-part prefix has no build number, so matching falls back to the
      literal prefix. */
  lemma TwoPartPrefixFallsBack(m: WindowsMatcher, p: Platform, q: Platform)
    requires m.platform.os == "windows" && m.defaultMatcher(p) && m.defaultMatcher(q)
    requires m.osVersionPrefix == "10.0"
    requires p.osVersion == "10.0.1.2" && q.osVersion == "11.0.1.2"
    ensures GetBuildNumber(m).None?
    ensures Match(m, p) && !Match(m, q)
  {
    assert m.osVersionPrefix == "10" + "." + "0";
    SplitDotFree("0");
    SplitCons("10", "0");
    assert q.osVersion[1] != m.osVersionPrefix[1];
  }

  /** The prefix comparison is on text, not on components: a host whose
      prefix is "10.0.1713" accepts build 17134. */
  lemma LiteralPrefixSpansComponents(m: WindowsMatcher, p: Platform)
    requires m.platform.os == "windows" && m.defaultMatcher(p)
    requires m.osVersionPrefix == "10.0.1713" && p.osVersion == "10.0.17134.2"
    ensures GetBuildNumber(m) == Some(1713)
    ensures Match(m, p)
  {
    Format1713();
    assert m.osVersionPrefix == "10" + "." + "0" + "." + "1713";
    BuildNumberOf(m, "10", "0", 1713);
  }

  lemma RevisionFive()
    ensures Revision("10.0.17763.5") == 5
  {
    assert Itoa(5) == "5";
    RevisionOf("10.0.17763.5", "10", "0", "17763", 5);
  }

  lemma RevisionTen()
    ensures Revision("10.0.17763.10") == 10
  {
    assert Itoa(10) == "10";
    RevisionOf("10.0.17763.10", "10", "0", "17763", 10);
  }

  /** Of two matching revisions of one build, revision 10 goes before revision 5. */
  lemma HigherRevisionFirst(m: WindowsMatcher, p1: Platform, p2: Platform)
    requires p1.osVersion == "10.0.17763.5" && p2.osVersion == "10.0.17763.10"
    requires Match(m, p1) && Match(m, p2)
    ensures !Less(m, p1, p2) && Less(m, p2, p1)
  {
    RevisionFive();
    RevisionTen();
  }

  /** `Atoi` accepts leading zeros and a '+' sign and rejects trailing letters. */
  lemma AtoiCases()
    ensures Atoi("007") == Some(7)
    ensures Atoi("+5") == Some(5)
    ensures Atoi("-12") == Some(-12)
    ensures Atoi("1x").None? && Atoi("-").None? && Atoi("").None?
  {
    assert "007"[..2] == "00" && "00"[..1] == "0";
    assert DecimalValue("007") == 7;
    assert UnsignedPart("-12") == "12" && "12"[..1] == "1";
    assert UnsignedPart("1x") == "1x" && !IsDigit("1x"[1]);
  }
}
