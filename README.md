# Windows platform matcher of containerd, in Dafny

This project models the Windows platform matcher of containerd's `platforms`
package (`platforms/defaults_windows.go`) and proves properties of it. A
Windows host is described by a reference platform (OS, architecture, OS
version, variant). The matcher decides two things:

- `Match`: does the host accept an image platform?
- `Less`: which of two image platforms does the host prefer?

A candidate must first pass the base OS/architecture/variant matcher. On a
Windows host a version policy then applies. The cached three-part version
prefix (`major.minor.build`) is parsed for its build number. From build
17763 (RS5) on, every OS version is accepted. Otherwise, or when the prefix
does not parse, the candidate's OS version must start with the prefix as a
literal string. `Less` puts matching platforms first and orders matching
platforms by descending revision, the fourth version component.

Files:

- `wrappers.dfy`: `Option`, which stands for Go's `(value, error)` results.
- `go_strings.dfy`: Go's `strings.Split`, `strings.Join` and `strings.HasPrefix`
  with the separator ".", and their round-trip laws.
- `go_strconv.dfy`: `strconv.ParseUint` in base 10, `strconv.Atoi` with Go's
  64-bit `int` range, and the decimal formatting of `%d` and `Itoa`.
- `platforms.dfy`: the platform and matcher records and `DefaultSpec`,
  `getBuildNumber`, `Match`, `revision`, `Less` and `prefix`, with their laws.
- `platforms_examples.dfy`: worked cases on concrete version strings.

The RS5 build number is the constant `Platforms.WindowsOSVersionRS5`
(platforms/defaults_windows.go:31), a `uint16` equal to 17763.

The base matcher is not part of this file. It is the field
`defaultMatcher: Platform -> bool` of `WindowsMatcher`, and every lemma holds
for every such predicate. The code that builds a `windowsmatcher` is not part
of this model either. Lemmas that need the prefix to come from the host's
version take `osVersionPrefix == Prefix(platform.osVersion)` as a hypothesis.

The doc comment of `Match` says it matches "the same windows major, minor and
build version". The code compares text, not components. `MatchSameBuild`
proves the direction the comment promises. `LiteralPrefixSpansComponents`
shows that the converse fails: prefix "10.0.1713" accepts "10.0.17134.2".
Host builds below RS5 have five digits in practice, so the model keeps the
literal comparison as written.

## Model

| member | source | states |
|---|---|---|
| `GoStrings.Split` | platforms/defaults_windows.go:89 | `strings.Split(s, ".")` returns one part more than `s` has dots, and no part contains a dot |
| `GoStrings.Join` | platforms/defaults_windows.go:115 | `strings.Join(parts, ".")` starts with the first part; `SplitJoin` and `JoinSplit` make it the inverse of `Split` |
| `GoStrings.HasPrefix` | platforms/defaults_windows.go:68 | `strings.HasPrefix(s, p)` holds exactly when `p` is a prefix of `s` as a sequence |
| `GoStrings.JoinSplit` | platforms/defaults_windows.go:111-115 | joining the parts of a split with "." gives back the original string |
| `GoStrings.SplitJoin` | platforms/defaults_windows.go:111-115 | splitting a join of one or more dot-free parts gives back those parts |
| `GoStrings.JoinTakeIsPrefix` | platforms/defaults_windows.go:115 | joining the first k parts gives a literal prefix of joining all of them |
| `GoStrconv.ParseUint` | platforms/defaults_windows.go:94 | `ParseUint(s, 10, bitSize)` succeeds exactly for a non-empty run of decimal digits whose value is below 2^bitSize; the result is that value |
| `GoStrconv.ParseFormatUint` | platforms/defaults_windows.go:94 | every value below 2^bitSize, printed in decimal, parses back to itself |
| `GoStrconv.Atoi` | platforms/defaults_windows.go:103 | `Atoi` succeeds exactly when the input, after one optional '+' or '-', is a non-empty run of decimal digits whose signed value is in the 64-bit `int` range, and then returns that signed value |
| `GoStrconv.Itoa` | platforms/defaults_windows.go:103 | not called in this file: the inverse of `Atoi` used by `AtoiItoa` and `RevisionOfFourthComponent`; it prints the decimal digits of the value, after a '-' when it is negative |
| `GoStrconv.AtoiItoa` | platforms/defaults_windows.go:103 | every 64-bit `int`, printed by `Itoa`, parses back to itself with `Atoi` |
| `GoStrconv.FormatUint` | platforms/defaults_windows.go:41 | `%d` of an unsigned value is a non-empty digit string without a leading zero whose decimal value is that value |
| `Platforms.FormatOSVersion` | platforms/defaults_windows.go:41 | the "%d.%d.%d" host version splits into exactly the three decimal numerals of major, minor and build |
| `Platforms.DefaultSpec` | platforms/defaults_windows.go:36-45 | the default platform carries the host's OS, architecture and variant, and its OS version splits into exactly the canonical numerals (no leading zeros) of major, minor and build |
| `Platforms.GetBuildNumber` | platforms/defaults_windows.go:88-96 | succeeds exactly when the prefix splits into three parts and the third is a decimal numeral of at most 65535, and then returns that numeral's value |
| `Platforms.DefaultSpecBuildNumber` | platforms/defaults_windows.go:88-95 | for the platform `DefaultSpec` returns, `prefix` leaves the version unchanged and `getBuildNumber` returns the host's build |
| `Platforms.Match` | platforms/defaults_windows.go:55-72 | a match is always accepted by the base matcher, and on Windows it needs a parsed build of at least RS5 or the cached prefix as a literal prefix of the candidate's version |
| `Platforms.MatchNeedsBaseMatch` | platforms/defaults_windows.go:55-71 | a candidate the base matcher rejects is never matched |
| `Platforms.MatchNonWindows` | platforms/defaults_windows.go:56-71 | when the reference OS is not "windows", `Match` is exactly the base matcher's answer |
| `Platforms.MatchAnyVersionFromRS5` | platforms/defaults_windows.go:58-66 | on Windows, when the build number parses and is at least 17763, every base-matched candidate is matched, whatever its OS version |
| `Platforms.MatchByLiteralPrefix` | platforms/defaults_windows.go:58-68 | on Windows, when the build number does not parse or is below 17763, a base-matched candidate is matched exactly when its OS version starts with the cached prefix |
| `Platforms.MatchSameBuild` | platforms/defaults_windows.go:53-68 | on Windows with a three-part prefix, a base-matched candidate with the same first three components is matched |
| `Platforms.MatchHostBuild` | platforms/defaults_windows.go:53-71 | with the prefix cut from the host's version, every base-matched candidate that has the host's first three components is matched |
| `Platforms.DefaultSpecMatch` | platforms/defaults_windows.go:36-68 | a Windows `DefaultSpec` host accepts what the base matcher accepts from RS5 on, and before RS5 only candidates whose version starts with "major.minor.build" |
| `Platforms.Revision` | platforms/defaults_windows.go:98-108 | the revision is 0 for fewer than four components or a fourth component that `Atoi` rejects, and otherwise the fourth component's `Atoi` value |
| `Platforms.RevisionOfFourthComponent` | platforms/defaults_windows.go:98-107 | the revision of a version "a.b.c.r..." whose fourth component is `Itoa(r)` is `r` |
| `Platforms.Less` | platforms/defaults_windows.go:77-84 | a preferred platform always matches, and when the other one matches too its revision is strictly larger |
| `Platforms.LessIrreflexive` | platforms/defaults_windows.go:77-84 | no platform is preferred over itself |
| `Platforms.LessAsymmetric` | platforms/defaults_windows.go:77-84 | if p1 is preferred over p2 then p2 is not preferred over p1 |
| `Platforms.LessTransitive` | platforms/defaults_windows.go:77-84 | preference is transitive |
| `Platforms.TiedTransitive` | platforms/defaults_windows.go:77-84 | being unordered is transitive, so `Less` is a strict weak order |
| `Platforms.LessMatchesFirst` | platforms/defaults_windows.go:77-84 | a matching platform precedes a non-matching one, a non-matching one precedes nothing, and two matching ones are ordered by strictly greater revision |
| `Platforms.LessByRevisionNumber` | platforms/defaults_windows.go:77-84 | two matching versions "a.b.c.r1" and "a.b.c.r2" are ordered exactly when r1 > r2 |
| `Platforms.Prefix` | platforms/defaults_windows.go:110-116 | a version with fewer than four components is returned unchanged; the result splits into the first min(n, 3) components of the input and is a literal prefix of it |
| `Platforms.PrefixIdempotent` | platforms/defaults_windows.go:110-116 | applying `prefix` twice gives the same result as applying it once |
| `Platforms.PrefixOfLongVersion` | platforms/defaults_windows.go:110-116 | the prefix of "a.b.c.d..." with dot-free components is "a.b.c" |
| `PlatformsExamples.BuildNumberOf` | platforms/defaults_windows.go:88-95 | a prefix "a.b.n" with a 16-bit decimal n has build number n |
| `PlatformsExamples.RS5AcceptsOlderImage` | platforms/defaults_windows.go:58-66 | prefix "10.0.17763" has build 17763 and accepts the base-matched image "10.0.14393.2214" |
| `PlatformsExamples.PreRS5AcceptsSameBuild` | platforms/defaults_windows.go:58-68 | prefix "10.0.14393" has build 14393 and accepts the base-matched image "10.0.14393.2214" |
| `PlatformsExamples.PreRS5RejectsOtherBuild` | platforms/defaults_windows.go:58-68 | prefix "10.0.14393" rejects the image "10.0.17763.1" |
| `PlatformsExamples.TwoPartPrefixFallsBack` | platforms/defaults_windows.go:58-68 | prefix "10.0" has no build number, accepts "10.0.1.2" and rejects "11.0.1.2" |
| `PlatformsExamples.LiteralPrefixSpansComponents` | platforms/defaults_windows.go:58-68 | prefix "10.0.1713" has build 1713 and still accepts "10.0.17134.2", because the comparison is on text |
| `PlatformsExamples.AtoiCases` | platforms/defaults_windows.go:103 | `Atoi` reads "007" as 7, "+5" as 5 and "-12" as -12, and rejects "1x", "-" and "" |
| `PlatformsExamples.HigherRevisionFirst` | platforms/defaults_windows.go:77-84 | of the matching images "10.0.17763.5" and "10.0.17763.10", the second is preferred |

## Left out

- The host queries of `DefaultSpec` are foreign calls: `windows.RtlGetNtVersionNumbers`, `runtime.GOOS`, `runtime.GOARCH` and `cpuVariant()`. They become parameters of `DefaultSpec`.
- The error log in `Match` for an unparsable prefix is a global logger call. It has no effect on the result and is not modelled.
- `Default()` and `Only(...)` are defined outside this file, and so are the base `Matcher` and `MatchComparer` types. The base matcher is an arbitrary predicate.
- The code that builds a `windowsmatcher` and fills `osVersionPrefix` is not part of this model. The prefix is a field, and lemmas that need it to come from the host version say so.
- `GetBuildNumber` returns `None` on every error. The error message and the value Go returns next to the error are not modelled, because `Match` ignores both.
- `GoStrconv.ParseUint` models base 10 only, the only base this file uses.
- `GoStrconv.Atoi` models Go's 64-bit `int`. A 32-bit build, where `Atoi` rejects values beyond 32 bits, is not modelled.
- `Platform` has only the four fields this file reads. The other fields of the OCI platform object are not modelled.
- Go strings are byte sequences, while a Dafny `string` is a sequence of Unicode characters. On valid UTF-8 the two agree on splitting at '.', on `HasPrefix` and on the ASCII digit tests. Invalid UTF-8 is not modelled.
