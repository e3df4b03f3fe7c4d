/**
 * Python string operations used by the mock servers: substring test (`p in t`),
 * `str.replace` and ASCII lower-casing, with the facts about `str.replace`
 * that the HTML sanitisers of the echo tools rely on.
 */
module Text {

  /** Python's `p in t` for two strings. */
  predicate IsSubstring(p: string, t: string)
    decreases |t|
  {
    if |t| < |p| then false
    else if t[..|p|] == p then true
    else |t| > 0 && IsSubstring(p, t[1..])
  }

  /**
   * Python's `s.replace(pat, rep)`: every occurrence of `pat`, scanning from
   * the left and never overlapping an occurrence already replaced, becomes `rep`.
   */
  function Replace(s: string, pat: string, rep: string): string
    requires |pat| > 0
    decreases |s|
  {
    if |s| < |pat| then s
    else if s[..|pat|] == pat then rep + Replace(s[|pat|..], pat, rep)
    else [s[0]] + Replace(s[1..], pat, rep)
  }

  /** `a` could be the beginning of an occurrence of `p` (it agrees with `p` as far as both go). */
  predicate PrefixCompatible(a: string, p: string)
  {
    if |a| >= |p| then a[..|p|] == p else a == p[..|a|]
  }

  /**
   * A replacement text `rep` that can never take part in an occurrence of `p`:
   * its first character does not occur in `p`, and no later position of `rep`
   * can start an occurrence of `p`.
   */
  predicate Inert(rep: string, p: string)
  {
    && |rep| > 0
    && rep[0] !in p
    && forall k :: 0 < k < |rep| ==> !PrefixCompatible(rep[k..], p)
  }

  /** Python's `s.lower()` restricted to ASCII letters. */
  function LowerAscii(s: string): (r: string)
    ensures |r| == |s|
    ensures forall i :: 0 <= i < |s| && !('A' <= s[i] <= 'Z') ==> r[i] == s[i]
    ensures forall i :: 0 <= i < |s| && 'A' <= s[i] <= 'Z' ==> r[i] == (s[i] as int + 32) as char
  {
    if s == [] then []
    else [if 'A' <= s[0] <= 'Z' then (s[0] as int + 32) as char else s[0]] + LowerAscii(s[1..])
  }

  lemma {:induction false} SubstringLength(p: string, t: string)
    requires IsSubstring(p, t)
    ensures |p| <= |t|
  {
  }

  /** An occurrence in a suffix of `t` is an occurrence in `t`. */
  lemma {:induction false} SubstringOfSuffix(p: string, t: string, j: nat)
    requires j <= |t|
    ensures IsSubstring(p, t[j..]) ==> IsSubstring(p, t)
    decreases j
  {
    if j > 0 && IsSubstring(p, t[j..]) {
      assert t[1..][j - 1..] == t[j..];
      SubstringOfSuffix(p, t[1..], j - 1);
      if t[..|p|] != p {
        assert |t| > 0;
      }
    }
  }

  /** A text that begins with `p` begins with something prefix-compatible with `p` at its front part `x`. */
  lemma PrefixOfConcat(x: string, t: string, p: string)
    ensures (|x + t| >= |p| && (x + t)[..|p|] == p) ==> PrefixCompatible(x, p)
  {
    var u := x + t;
    if |u| >= |p| && u[..|p|] == p {
      if |x| >= |p| {
        assert x[..|p|] == u[..|p|];
      } else {
        assert x == u[..|x|];
      }
    }
  }

  /** A text none of whose positions can start `p`, put in front of a text without `p`, adds no occurrence of `p`. */
  lemma {:induction false} NoOccurrenceAcross(x: string, t: string, p: string)
    requires |p| > 0
    requires forall k :: 0 <= k < |x| ==> !PrefixCompatible(x[k..], p)
    requires !IsSubstring(p, t)
    ensures !IsSubstring(p, x + t)
    decreases |x|
  {
    if x != [] {
      assert x[0..] == x;
      PrefixOfConcat(x, t, p);
      forall k | 0 <= k < |x[1..]| ensures !PrefixCompatible(x[1..][k..], p) {
        assert x[1..][k..] == x[k + 1..];
      }
      NoOccurrenceAcross(x[1..], t, p);
      assert (x + t)[1..] == x[1..] + t;
    } else {
      assert x + t == t;
    }
  }

  /**
   * The first `m` characters of `Replace(u, pat, rep)` either are the first `m`
   * characters of `u` unchanged, or contain the first character of `rep`.
   */
  lemma {:induction false} ReplacePrefix(u: string, pat: string, rep: string, m: nat)
    requires |pat| > 0 && |rep| > 0
    requires m <= |Replace(u, pat, rep)|
    ensures (m <= |u| && Replace(u, pat, rep)[..m] == u[..m]) || rep[0] in Replace(u, pat, rep)[..m]
    decreases |u|
  {
    var r := Replace(u, pat, rep);
    if |u| < |pat| {
    } else if u[..|pat|] == pat {
      if m > 0 {
        assert r[..m][0] == rep[0];
      }
    } else if m > 0 {
      var r1 := Replace(u[1..], pat, rep);
      assert r == [u[0]] + r1;
      ReplacePrefix(u[1..], pat, rep, m - 1);
      if m - 1 <= |u[1..]| && r1[..m - 1] == u[1..][..m - 1] {
        assert r[..m] == [u[0]] + r1[..m - 1];
        assert u[..m] == [u[0]] + u[1..][..m - 1];
      } else {
        assert r1[..m - 1] == r[1..m];
        assert rep[0] in r[..m];
      }
    }
  }

  /**
   * `Replace(s, pat, rep)` contains no occurrence of `p` when `rep` is inert
   * for `p` and either `p` is the replaced pattern itself (it is removed) or
   * `s` had no occurrence of `p` (none is created).
   */
  lemma {:induction false} ReplaceAvoids(s: string, pat: string, rep: string, p: string)
    requires |pat| > 0 && |p| > 0
    requires Inert(rep, p)
    requires p == pat || !IsSubstring(p, s)
    ensures !IsSubstring(p, Replace(s, pat, rep))
    decreases |s|
  {
    var r := Replace(s, pat, rep);
    if |s| < |pat| {
      if p != pat {
        assert r == s;
      }
    } else if s[..|pat|] == pat {
      var tail := s[|pat|..];
      SubstringOfSuffix(p, s, |pat|);
      ReplaceAvoids(tail, pat, rep, p);
      forall k | 0 <= k < |rep| ensures !PrefixCompatible(rep[k..], p) {
        if k == 0 {
          assert rep[0..] == rep;
          assert p[0] in p;
        }
      }
      NoOccurrenceAcross(rep, Replace(tail, pat, rep), p);
    } else {
      var r1 := Replace(s[1..], pat, rep);
      assert r == [s[0]] + r1;
      SubstringOfSuffix(p, s, 1);
      ReplaceAvoids(s[1..], pat, rep, p);
      KeptStart(s, pat, rep, p);
      assert r[1..] == r1;
    }
  }

  /**
   * When `s` does not begin with `pat`, an occurrence of `p` at the front of
   * `Replace(s, pat, rep)` is either an occurrence at the front of `s` or uses
   * the first character of `rep`.
   */
  lemma KeptStart(s: string, pat: string, rep: string, p: string)
    requires |pat| > 0 && |rep| > 0 && |p| > 0
    requires |s| >= |pat| && s[..|pat|] != pat
    ensures var r := Replace(s, pat, rep);
      (|r| >= |p| && r[..|p|] == p) ==> ((|p| <= |s| && s[..|p|] == p) || rep[0] in p)
  {
    var r := Replace(s, pat, rep);
    var r1 := Replace(s[1..], pat, rep);
    assert r == [s[0]] + r1;
    if |r| >= |p| && r[..|p|] == p {
      ReplacePrefix(s[1..], pat, rep, |p| - 1);
      if |p| - 1 <= |s[1..]| && r1[..|p| - 1] == s[1..][..|p| - 1] {
        assert r[..|p|] == [s[0]] + r1[..|p| - 1];
        assert s[1..][..|p| - 1] == s[1..|p|];
        assert s[..|p|] == [s[0]] + s[1..|p|];
      } else {
        assert r1[..|p| - 1] == p[1..];
      }
    }
  }

  /** Replacing a pattern that does not occur changes nothing. */
  lemma {:induction false} ReplaceAbsent(s: string, pat: string, rep: string)
    requires |pat| > 0
    requires !IsSubstring(pat, s)
    ensures Replace(s, pat, rep) == s
    decreases |s|
  {
    if |s| >= |pat| {
      assert s[..|pat|] != pat;
      ReplaceAbsent(s[1..], pat, rep);
      assert s == [s[0]] + s[1..];
    }
  }

  /** Two strings that are prefix-compatible agree on every position both have. */
  lemma PrefixCompatibleAt(a: string, p: string, i: nat)
    ensures (PrefixCompatible(a, p) && i < |a| && i < |p|) ==> a[i] == p[i]
  {
    if PrefixCompatible(a, p) && i < |a| && i < |p| {
      if |a| >= |p| {
        assert a[..|p|][i] == a[i];
      } else {
        assert p[..|a|][i] == p[i];
      }
    }
  }

  /** A replacement text is inert for `p` when the first character of `p` occurs nowhere in it. */
  lemma InertByFirstChar(rep: string, p: string)
    requires |rep| > 0 && |p| > 0
    requires rep[0] !in p && p[0] !in rep
    ensures Inert(rep, p)
  {
    forall k | 0 < k < |rep| ensures !PrefixCompatible(rep[k..], p) {
      PrefixCompatibleAt(rep[k..], p, 0);
    }
  }

  /** One step of `Replace` past a position where `pat` does not start. */
  lemma ReplaceMiss(s: string, pat: string, rep: string)
    requires |pat| > 0 && |s| >= |pat| && s[..|pat|] != pat
    ensures Replace(s, pat, rep) == [s[0]] + Replace(s[1..], pat, rep)
  {
  }

  /** One step of `Replace` at a position where `pat` starts. */
  lemma ReplaceHit(s: string, pat: string, rep: string)
    requires |pat| > 0 && |s| >= |pat| && s[..|pat|] == pat
    ensures Replace(s, pat, rep) == rep + Replace(s[|pat|..], pat, rep)
  {
  }

  /** A text shorter than `pat` is left as it is. */
  lemma ReplaceShort(s: string, pat: string, rep: string)
    requires |pat| > 0 && |s| < |pat|
    ensures Replace(s, pat, rep) == s
  {
  }

  /** Deleting `pat` from a text that ends in it, when its first character occurs nowhere before, leaves the rest. */
  lemma {:induction false} ReplaceSuffix(c: string, pat: string)
    requires |pat| > 0 && pat[0] !in c
    ensures Replace(c + pat, pat, "") == c
    decreases |c|
  {
    var s := c + pat;
    if c == [] {
      assert s == pat;
      ReplaceHit(s, pat, "");
      assert s[|pat|..] == [];
    } else {
      assert s[..|pat|][0] == c[0] != pat[0];
      ReplaceMiss(s, pat, "");
      assert s[1..] == c[1..] + pat;
      ReplaceSuffix(c[1..], pat);
      assert c == [c[0]] + c[1..];
    }
  }
}
