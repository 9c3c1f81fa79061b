/** The Windows platform matcher of containerd's `platforms` package
    (platforms/defaults_windows.go): which image platforms a Windows host
    accepts, and in which order it prefers them. */
module Platforms {
  import opened Wrappers
  import opened GoStrings
  import opened GoStrconv

  newtype uint16 = x: int | 0 <= x < 0x1_0000

  /** Build number of Windows Server 2019 (RS5), the first build whose Hyper-V
      isolation runs both older and newer container images. */
  const WindowsOSVersionRS5: uint16 := 17763

  /** The four fields of the OCI platform object the matcher reads. */
  datatype Platform = Platform(os: string, architecture: string, osVersion: string, variant: string)

  /** `windowsmatcher`: the reference platform, its cached version prefix and
      the base OS/architecture/variant matcher, which is not modelled and is
      taken here as an arbitrary predicate. */
  datatype WindowsMatcher = WindowsMatcher(
    platform: Platform,
    osVersionPrefix: string,
    defaultMatcher: Platform -> bool)

  /** The OS version `DefaultSpec` formats with "%d.%d.%d". */
  function FormatOSVersion(major: uint16, minor: uint16, build: uint16): (v: string)
    ensures Split(v) == [FormatUint(major as nat), FormatUint(minor as nat), FormatUint(build as nat)]
  {
    var parts := [FormatUint(major as nat), FormatUint(minor as nat), FormatUint(build as nat)];
    DigitsHaveNoDot(parts[0]);
    DigitsHaveNoDot(parts[1]);
    DigitsHaveNoDot(parts[2]);
    SplitJoin(parts);
    assert Join(parts[2..]) == parts[2];
    assert Join(parts[1..]) == parts[1] + "." + Join(parts[2..]);
    assert Join(parts) == parts[0] + "." + parts[1] + "." + parts[2];
    parts[0] + "." + parts[1] + "." + parts[2]
  }

  /** `DefaultSpec`, with the host queries (OS name, architecture, CPU variant
      and the kernel's major, minor and build numbers) passed in. Its OS version
      has exactly three components, each a plain decimal numeral. */
  function DefaultSpec(goos: string, goarch: string, variant: string,
                       major: uint16, minor: uint16, build: uint16): (p: Platform)
    ensures p.os == goos && p.architecture == goarch && p.variant == variant
    ensures Split(p.osVersion) == [FormatUint(major as nat), FormatUint(minor as nat), FormatUint(build as nat)]
    ensures |Split(p.osVersion)| == 3
    ensures forall i :: 0 <= i < 3 ==> Split(p.osVersion)[i] != "" && IsDigits(Split(p.osVersion)[i])
    ensures DecimalValue(Split(p.osVersion)[0]) == major as nat
    ensures DecimalValue(Split(p.osVersion)[1]) == minor as nat
    ensures DecimalValue(Split(p.osVersion)[2]) == build as nat
  {
    Platform(goos, goarch, FormatOSVersion(major, minor, build), variant)
  }

  /** `windowsmatcher.getBuildNumber`: the cached prefix must split into
      exactly three parts whose third is a base-10 numeral of at most 65535;
      that numeral's value is the build number, anything else is an error. */
  function GetBuildNumber(m: WindowsMatcher): (r: Option<uint16>)
    ensures var parts := Split(m.osVersionPrefix);
      r.Some? <==> |parts| == 3 && parts[2] != "" && IsDigits(parts[2]) && DecimalValue(parts[2]) <= 65535
    ensures r.Some? ==> r.value as int == DecimalValue(Split(m.osVersionPrefix)[2])
  {
    var parts := Split(m.osVersionPrefix);
    assert EffectiveBits(16) == 16;
    Pow2Sixteen();
    if |parts| != 3 then None
    else
      match ParseUint(parts[2], 16)
      case None => None
      case Some(b) => Some(b as uint16)
  }

  /** The host accepts every OS version: the build number parses and is RS5
      or later. A prefix that does not parse falls back, like an older build,
      to the literal prefix comparison. */
  predicate AcceptsAnyVersion(m: WindowsMatcher)
  {
    var b := GetBuildNumber(m);
    b.Some? && b.value >= WindowsOSVersionRS5
  }

  /** `windowsmatcher.Match`: never accepts more than the base matcher, and
      on Windows accepts only from RS5 on or by the literal version prefix. */
  predicate Match(m: WindowsMatcher, p: Platform): (r: bool)
    ensures r ==> m.defaultMatcher(p)
    ensures r && m.platform.os == "windows" ==>
      AcceptsAnyVersion(m) || HasPrefix(p.osVersion, m.osVersionPrefix)
  {
    var match_ := m.defaultMatcher(p);
    if match_ && m.platform.os == "windows" then
      if AcceptsAnyVersion(m) then true
      else HasPrefix(p.osVersion, m.osVersionPrefix)
    else
      match_
  }

  /** `revision`: the fourth dot-separated component as an `int`, or 0 when
      there are fewer than four components or the fourth is not an integer. */
  function Revision(v: string): (r: int)
    ensures |Split(v)| < 4 ==> r == 0
    ensures |Split(v)| >= 4 && Atoi(Split(v)[3]).None? ==> r == 0
    ensures |Split(v)| >= 4 && Atoi(Split(v)[3]).Some? ==> r == Atoi(Split(v)[3]).value
    ensures MinInt <= r <= MaxInt
  {
    var parts := Split(v);
    if |parts| < 4 then 0
    else
      match Atoi(parts[3])
      case None => 0
      case Some(r) => r
  }

  /** `windowsmatcher.Less`: matching platforms first, and among matching
      platforms the one with the larger revision first. */
  predicate Less(m: WindowsMatcher, p1: Platform, p2: Platform): (r: bool)
    ensures r ==> Match(m, p1)
    ensures r && Match(m, p2) ==> Revision(p1.osVersion) > Revision(p2.osVersion)
  {
    var m1, m2 := Match(m, p1), Match(m, p2);
    if m1 && m2 then Revision(p1.osVersion) > Revision(p2.osVersion)
    else m1 && !m2
  }

  function Min(a: nat, b: nat): nat
  {
    if a < b then a else b
  }

  /** `prefix`: the version cut down to its first three components. */
  function Prefix(v: string): (r: string)
    ensures |Split(v)| < 4 ==> r == v
    ensures Split(r) == Split(v)[..Min(|Split(v)|, 3)]
    ensures HasPrefix(v, r)
  {
    var parts := Split(v);
    if |parts| < 4 then
      JoinSplit(v);
      assert parts[..|parts|] == parts;
      v
    else
      var head := parts[..3];
      assert AllDotFree(head) by {
        forall i | 0 <= i < 3 ensures DotFree(head[i]) {
          assert head[i] == parts[i];
        }
      }
      SplitJoin(head);
      JoinSplit(v);
      JoinTakeIsPrefix(parts, 3);
      Join(head)
  }

  // ---------------------------------------------------------------------
  // Match

  /** A candidate the base matcher rejects is never matched. */
  lemma MatchNeedsBaseMatch(m: WindowsMatcher, p: Platform)
    requires !m.defaultMatcher(p)
    ensures !Match(m, p)
  {
  }

  /** A reference platform other than Windows applies no version policy. */
  lemma MatchNonWindows(m: WindowsMatcher, p: Platform)
    requires m.platform.os != "windows"
    ensures Match(m, p) == m.defaultMatcher(p)
  {
  }

  /** From RS5 on, a Windows host accepts every candidate the base matcher
      accepts, whatever its OS version. */
  lemma MatchAnyVersionFromRS5(m: WindowsMatcher, p: Platform)
    requires m.platform.os == "windows" && m.defaultMatcher(p)
    requires AcceptsAnyVersion(m)
    ensures Match(m, p)
  {
  }

  /** Before RS5, or when the cached prefix does not parse, a Windows host
      accepts exactly the base-matched candidates whose OS version has the
      cached prefix as a literal prefix. */
  lemma MatchByLiteralPrefix(m: WindowsMatcher, p: Platform)
    requires m.platform.os == "windows" && m.defaultMatcher(p)
    requires !AcceptsAnyVersion(m)
    ensures Match(m, p) <==> HasPrefix(p.osVersion, m.osVersionPrefix)
  {
  }

  /** A candidate with the same major, minor and build components as a
      three-part cached prefix is matched by a Windows host, whatever its
      build number. */
  lemma {:induction false} MatchSameBuild(m: WindowsMatcher, p: Platform)
    requires m.platform.os == "windows" && m.defaultMatcher(p)
    requires |Split(m.osVersionPrefix)| == 3
    requires |Split(p.osVersion)| >= 3 && Split(p.osVersion)[..3] == Split(m.osVersionPrefix)
    ensures Match(m, p)
  {
    JoinSplit(p.osVersion);
    JoinSplit(m.osVersionPrefix);
    JoinTakeIsPrefix(Split(p.osVersion), 3);
  }

  /** A matcher whose prefix is cut from the host's own version accepts every
      base-matched candidate that agrees with the host on the first three
      components, the host's own version included. */
  lemma {:induction false} MatchHostBuild(m: WindowsMatcher, p: Platform)
    requires m.osVersionPrefix == Prefix(m.platform.osVersion)
    requires m.defaultMatcher(p)
    requires |Split(m.platform.osVersion)| >= 3 && |Split(p.osVersion)| >= 3
    requires Split(p.osVersion)[..3] == Split(m.platform.osVersion)[..3]
    ensures Match(m, p)
  {
    if m.platform.os == "windows" {
      MatchSameBuild(m, p);
    }
  }

  /** On a `DefaultSpec` host, `prefix` leaves the OS version unchanged and
      `getBuildNumber` returns the host's build. */
  lemma {:induction false} DefaultSpecBuildNumber(goos: string, goarch: string, variant: string,
                                                  major: uint16, minor: uint16, build: uint16,
                                                  base: Platform -> bool)
    ensures var h := DefaultSpec(goos, goarch, variant, major, minor, build);
      Prefix(h.osVersion) == h.osVersion &&
      GetBuildNumber(WindowsMatcher(h, Prefix(h.osVersion), base)) == Some(build)
  {
    var h := DefaultSpec(goos, goarch, variant, major, minor, build);
    assert Split(h.osVersion)[2] == FormatUint(build as nat);
  }

  /** A Windows `DefaultSpec` host at RS5 or later accepts exactly what its
      base matcher accepts; an older one additionally requires the candidate's
      OS version to start with "major.minor.build". */
  lemma {:induction false} DefaultSpecMatch(goarch: string, variant: string,
                                            major: uint16, minor: uint16, build: uint16,
                                            base: Platform -> bool, p: Platform)
    ensures var h := DefaultSpec("windows", goarch, variant, major, minor, build);
      var m := WindowsMatcher(h, Prefix(h.osVersion), base);
      Match(m, p) <==> base(p) && (build >= WindowsOSVersionRS5 || HasPrefix(p.osVersion, h.osVersion))
  {
    DefaultSpecBuildNumber("windows", goarch, variant, major, minor, build, base);
  }

  // ---------------------------------------------------------------------
  // Revision

  lemma {:induction false} ItoaDotFree(r: int)
    ensures DotFree(Itoa(r))
  {
    DigitsHaveNoDot(FormatUint(if r < 0 then -r else r));
    if r < 0 {
      assert forall c :: c in Itoa(r) ==> c == '-' || c in FormatUint(-r);
    }
  }

  /** The revision of a version whose fourth component is `Itoa(r)` is `r`. */
  lemma {:induction false} RevisionOfFourthComponent(a: string, b: string, c: string, r: int, rest: seq<string>)
    requires DotFree(a) && DotFree(b) && DotFree(c) && AllDotFree(rest)
    requires MinInt <= r <= MaxInt
    ensures Revision(Join([a, b, c, Itoa(r)] + rest)) == r
  {
    var parts := [a, b, c, Itoa(r)] + rest;
    ItoaDotFree(r);
    assert AllDotFree(parts) by {
      forall i | 0 <= i < |parts| ensures DotFree(parts[i]) {
        if i >= 4 {
          assert parts[i] == rest[i - 4];
        }
      }
    }
    SplitJoin(parts);
    AtoiItoa(r);
  }

  // ---------------------------------------------------------------------
  // Less

  /** No platform is preferred over itself. */
  lemma LessIrreflexive(m: WindowsMatcher, p: Platform)
    ensures !Less(m, p, p)
  {
  }

  lemma LessAsymmetric(m: WindowsMatcher, p1: Platform, p2: Platform)
    requires Less(m, p1, p2)
    ensures !Less(m, p2, p1)
  {
  }

  lemma LessTransitive(m: WindowsMatcher, p1: Platform, p2: Platform, p3: Platform)
    requires Less(m, p1, p2) && Less(m, p2, p3)
    ensures Less(m, p1, p3)
  {
  }

  /** Neither of two platforms is preferred over the other. */
  predicate Tied(m: WindowsMatcher, p1: Platform, p2: Platform)
  {
    !Less(m, p1, p2) && !Less(m, p2, p1)
  }

  /** Ties are transitive, so `Less` is a strict weak order, as sorting needs. */
  lemma TiedTransitive(m: WindowsMatcher, p1: Platform, p2: Platform, p3: Platform)
    requires Tied(m, p1, p2) && Tied(m, p2, p3)
    ensures Tied(m, p1, p3)
  {
  }

  /** A matching platform goes before a non-matching one, two non-matching
      platforms are not ordered, and two matching ones go by descending revision. */
  lemma LessMatchesFirst(m: WindowsMatcher, p1: Platform, p2: Platform)
    ensures Match(m, p1) && !Match(m, p2) ==> Less(m, p1, p2)
    ensures !Match(m, p1) ==> !Less(m, p1, p2)
    ensures Match(m, p1) && Match(m, p2) ==>
      (Less(m, p1, p2) <==> Revision(p1.osVersion) > Revision(p2.osVersion))
  {
  }

  /** Two matching "a.b.c.r" versions are ordered by their revision numbers. */
  lemma {:induction false} LessByRevisionNumber(m: WindowsMatcher, p1: Platform, p2: Platform,
                                                a: string, b: string, c: string, r1: int, r2: int)
    requires DotFree(a) && DotFree(b) && DotFree(c)
    requires MinInt <= r1 <= MaxInt && MinInt <= r2 <= MaxInt
    requires p1.osVersion == Join([a, b, c, Itoa(r1)]) && p2.osVersion == Join([a, b, c, Itoa(r2)])
    requires Match(m, p1) && Match(m, p2)
    ensures Less(m, p1, p2) <==> r1 > r2
  {
    RevisionOfFourthComponent(a, b, c, r1, []);
    RevisionOfFourthComponent(a, b, c, r2, []);
    assert [a, b, c, Itoa(r1)] + [] == [a, b, c, Itoa(r1)];
    assert [a, b, c, Itoa(r2)] + [] == [a, b, c, Itoa(r2)];
  }

  // ---------------------------------------------------------------------
  // Prefix

  /** Cutting a version to three components twice is the same as once. */
  lemma PrefixIdempotent(v: string)
    ensures Prefix(Prefix(v)) == Prefix(v)
  {
  }

  /** The prefix of "a.b.c.d..." is "a.b.c". */
  lemma {:induction false} PrefixOfLongVersion(parts: seq<string>)
    requires |parts| >= 4 && AllDotFree(parts)
    ensures Prefix(Join(parts)) == Join(parts[..3])
  {
    SplitJoin(parts);
    var head := parts[..3];
    assert AllDotFree(head) by {
      forall i | 0 <= i < 3 ensures DotFree(head[i]) {
        assert head[i] == parts[i];
      }
    }
    SplitJoin(head);
  }
}
