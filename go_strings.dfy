/** The three functions of Go's `strings` package that the Windows matcher
    uses, specialised to the separator ".": `Split`, `Join` and `HasPrefix`. */
module GoStrings {

  /** Number of '.' characters in `s`. */
  function Dots(s: string): nat
  {
    if s == [] then 0 else (if s[0] == '.' then 1 else 0) + Dots(s[1..])
  }

  predicate DotFree(s: string)
  {
    '.' !in s
  }

  predicate AllDotFree(parts: seq<string>)
  {
    forall i :: 0 <= i < |parts| ==> DotFree(parts[i])
  }

  /** `strings.Split(s, ".")`: a string with n dots splits into n + 1 dot-free
      parts, and the empty string splits into the single part "". */
  function Split(s: string): (parts: seq<string>)
    ensures |parts| == Dots(s) + 1
    ensures AllDotFree(parts)
  {
    if s == [] then [""]
    else if s[0] == '.' then [""] + Split(s[1..])
    else
      var rest := Split(s[1..]);
      [[s[0]] + rest[0]] + rest[1..]
  }

  /** `strings.Join(parts, ".")`: the parts with one "." between neighbours. */
  function Join(parts: seq<string>): (s: string)
    ensures |parts| >= 1 ==> HasPrefix(s, parts[0])
  {
    if parts == [] then ""
    else if |parts| == 1 then parts[0]
    else parts[0] + "." + Join(parts[1..])
  }

  /** `strings.HasPrefix(s, p)`: `p` is a literal prefix of `s`. */
  predicate HasPrefix(s: string, p: string): (r: bool)
    ensures r <==> p <= s
  {
    |p| <= |s| && s[..|p|] == p
  }

  /** Joining the parts of a split gives back the original string. */
  lemma {:induction false} JoinSplit(s: string)
    ensures Join(Split(s)) == s
  {
    if s == [] {
    } else if s[0] == '.' {
      JoinSplit(s[1..]);
      assert s == "." + s[1..];
    } else {
      var rest := Split(s[1..]);
      var parts := Split(s);
      JoinSplit(s[1..]);
      assert parts == [[s[0]] + rest[0]] + rest[1..];
      if |rest| == 1 {
        assert s == [s[0]] + rest[0];
      } else {
        assert parts[1..] == rest[1..];
        assert Join(parts) == ([s[0]] + rest[0]) + "." + Join(rest[1..]);
        assert Join(rest) == rest[0] + "." + Join(rest[1..]);
        assert s == [s[0]] + (rest[0] + "." + Join(rest[1..]));
      }
    }
  }

  /** A dot-free string splits into itself. */
  lemma {:induction false} SplitDotFree(p: string)
    requires DotFree(p)
    ensures Split(p) == [p]
  {
    if p != [] {
      assert p[0] in p;
      assert forall c :: c in p[1..] ==> c in p;
      SplitDotFree(p[1..]);
      assert [p[0]] + p[1..] == p;
    }
  }

  /** Splitting `p.t` with a dot-free `p` yields `p` followed by the parts of `t`. */
  lemma {:induction false} SplitCons(p: string, t: string)
    requires DotFree(p)
    ensures Split(p + "." + t) == [p] + Split(t)
  {
    var s := p + "." + t;
    if p == [] {
      assert s == "." + t;
      assert s[1..] == t;
    } else {
      assert p[0] in p;
      assert forall c :: c in p[1..] ==> c in p;
      assert s[1..] == p[1..] + "." + t;
      SplitCons(p[1..], t);
      assert [s[0]] + p[1..] == p;
    }
  }

  /** Splitting a join of non-empty, dot-free parts gives back the parts. */
  lemma {:induction false} SplitJoin(parts: seq<string>)
    requires |parts| >= 1 && AllDotFree(parts)
    ensures Split(Join(parts)) == parts
  {
    if |parts| == 1 {
      SplitDotFree(parts[0]);
    } else {
      assert DotFree(parts[0]);
      SplitJoin(parts[1..]);
      SplitCons(parts[0], Join(parts[1..]));
      assert [parts[0]] + parts[1..] == parts;
    }
  }

  /** Joining the first `k` parts gives a literal prefix of joining them all. */
  lemma {:induction false} JoinTakeIsPrefix(parts: seq<string>, k: nat)
    requires 1 <= k <= |parts|
    ensures HasPrefix(Join(parts), Join(parts[..k]))
  {
    if k == 1 {
      assert parts[..1] == [parts[0]];
    } else {
      JoinTakeIsPrefix(parts[1..], k - 1);
      assert parts[..k][1..] == parts[1..][..k - 1];
      var head := parts[0] + ".";
      var tail := Join(parts[1..][..k - 1]);
      assert Join(parts[..k]) == head + tail;
      assert Join(parts) == head + Join(parts[1..]);
      assert Join(parts)[..|head + tail|] == head + Join(parts[1..])[..|tail|];
    }
  }
}
