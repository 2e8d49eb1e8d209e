/**
 * The Python string operations the client relies on (`strip`, `replace`,
 * `in`, `split(sep)[-1]`, `str(int)`, `sep.join`), and the two whitespace
 * collapses it performs with regular expressions, as functions on `string`.
 */
module Text {

  import opened Wrappers
  import Sequences

  /** Python's `str.isspace()` for one character. */
  predicate IsSpace(c: char) {
    || c == ' ' || c == '\t' || c == '\n' || c == '\r' || c == '\U{000B}' || c == '\U{000C}'
    || ('\U{001C}' <= c <= '\U{001F}')
    || c == '\U{0085}' || c == '\U{00A0}' || c == '\U{1680}'
    || ('\U{2000}' <= c <= '\U{200A}')
    || c == '\U{2028}' || c == '\U{2029}' || c == '\U{202F}' || c == '\U{205F}' || c == '\U{3000}'
  }

  /** True when `s` has no leading and no trailing whitespace. */
  predicate Stripped(s: string) {
    s == [] || (!IsSpace(s[0]) && !IsSpace(s[|s| - 1]))
  }

  /** `s.lstrip()`: the suffix of `s` left after dropping leading whitespace. */
  function TrimStart(s: string): (r: string)
    ensures |r| <= |s| && r == s[|s| - |r|..]
    ensures forall i | 0 <= i < |s| - |r| :: IsSpace(s[i])
    ensures r == [] || !IsSpace(r[0])
  {
    if |s| > 0 && IsSpace(s[0]) then TrimStart(s[1..]) else s
  }

  /** `s.rstrip()`: the prefix of `s` left after dropping trailing whitespace. */
  function TrimEnd(s: string): (r: string)
    ensures |r| <= |s| && r == s[..|r|]
    ensures forall i | |r| <= i < |s| :: IsSpace(s[i])
    ensures r == [] || !IsSpace(r[|r| - 1])
  {
    if |s| > 0 && IsSpace(s[|s| - 1]) then TrimEnd(s[..|s| - 1]) else s
  }

  /** `s.strip()`. */
  function Strip(s: string): (r: string)
    ensures Stripped(r)
    ensures |r| <= |s|
    ensures forall c :: c in r ==> c in s
    ensures Stripped(s) ==> r == s
  {
    TrimEnd(TrimStart(s))
  }

  /** Trailing spaces after a stripped text are all `rstrip` removes. */
  lemma {:induction false} TrimEndBeforeSpaces(core: string, pad: string)
    requires Stripped(core)
    requires forall i | 0 <= i < |pad| :: pad[i] == ' '
    ensures TrimEnd(core + pad) == core
    decreases |pad|
  {
    if pad == [] {
      assert core + pad == core;
    } else {
      var s := core + pad;
      assert s[|s| - 1] == ' ';
      assert s[..|s| - 1] == core + pad[..|pad| - 1];
      TrimEndBeforeSpaces(core, pad[..|pad| - 1]);
    }
  }

  /** Stripping a non-empty stripped text followed by spaces gives the text back. */
  lemma StripBeforeSpaces(core: string, pad: string)
    requires core != [] && Stripped(core)
    requires forall i | 0 <= i < |pad| :: pad[i] == ' '
    ensures Strip(core + pad) == core
  {
    var s := core + pad;
    assert s[0] == core[0];
    assert TrimStart(s) == s;
    TrimEndBeforeSpaces(core, pad);
  }

  /** Where the slice that `Strip` keeps begins. */
  function StripOffset(s: string): nat {
    |s| - |TrimStart(s)|
  }

  /** `Strip(s)` is the contiguous slice of `s` at `StripOffset(s)`. */
  lemma StripIsSlice(s: string)
    ensures StripOffset(s) + |Strip(s)| <= |s|
    ensures Strip(s) == s[StripOffset(s)..StripOffset(s) + |Strip(s)|]
  {
    var t := TrimStart(s);
    assert t == s[StripOffset(s)..];
  }

  /** Slicing a slice is slicing the original at shifted bounds. */
  lemma SliceOfSlice(s: string, a: nat, b: nat, i: nat, j: nat)
    requires a <= b <= |s| && i <= j <= b - a
    ensures s[a..b][i..j] == s[a + i..a + j]
  {
    var x, y := s[a..b][i..j], s[a + i..a + j];
    assert |x| == |y|;
    forall k | 0 <= k < |x| ensures x[k] == y[k] { }
  }

  // ----- substring search -----

  /** Python's `p in s` for strings: `p` occurs at some position of `s`. */
  predicate Contains(s: string, p: string)
    decreases |s|
  {
    |p| <= |s| && (s[..|p|] == p || Contains(s[1..], p))
  }

  lemma {:induction false} ContainsExtendRight(s: string, t: string, p: string)
    requires Contains(s, p)
    ensures Contains(s + t, p)
    decreases |s|
  {
    if s[..|p|] != p {
      ContainsExtendRight(s[1..], t, p);
      assert (s + t)[1..] == s[1..] + t;
    } else {
      assert (s + t)[..|p|] == s[..|p|];
    }
  }

  lemma {:induction false} ContainsExtendLeft(u: string, s: string, p: string)
    requires Contains(s, p)
    ensures Contains(u + s, p)
    decreases |u|
  {
    if u != [] {
      ContainsExtendLeft(u[1..], s, p);
      assert (u + s)[1..] == u[1..] + s;
    } else {
      assert u + s == s;
    }
  }

  /** An occurrence inside a slice is an occurrence in the whole string. */
  lemma ContainsFromSlice(s: string, a: nat, b: nat, p: string)
    requires a <= b <= |s|
    requires Contains(s[a..b], p)
    ensures Contains(s, p)
  {
    ContainsExtendRight(s[a..b], s[b..], p);
    assert s[a..b] + s[b..] == s[a..];
    ContainsExtendLeft(s[..a], s[a..], p);
    assert s[..a] + s[a..] == s;
  }

  /** Stripping never creates an occurrence. */
  lemma StripKeepsAbsent(s: string, p: string)
    requires !Contains(s, p)
    ensures !Contains(Strip(s), p)
  {
    StripIsSlice(s);
    if Contains(Strip(s), p) {
      ContainsFromSlice(s, StripOffset(s), StripOffset(s) + |Strip(s)|, p);
    }
  }

  /** Every character of an occurring pattern is a character of the string. */
  lemma {:induction false} ContainsChars(s: string, p: string)
    requires Contains(s, p)
    ensures forall c :: c in p ==> c in s
    decreases |s|
  {
    if s[..|p|] == p {
      assert forall c :: c in s[..|p|] ==> c in s;
    } else {
      ContainsChars(s[1..], p);
      assert forall c :: c in s[1..] ==> c in s;
    }
  }

  /** A pattern with a character the string lacks does not occur in it. */
  lemma AbsentByChar(s: string, p: string, c: char)
    requires c in p && c !in s
    ensures !Contains(s, p)
  {
    if Contains(s, p) {
      ContainsChars(s, p);
    }
  }

  // ----- replace / split -----

  /**
   * `s.replace(p, "")`: every occurrence of `p` found by a left-to-right,
   * non-overlapping scan is deleted.
   */
  function RemoveAll(s: string, p: string): (r: string)
    requires p != []
    ensures |r| <= |s|
    ensures forall c :: c in r ==> c in s
    ensures |p| == 1 ==> p[0] !in r
    decreases |s|
  {
    if |s| < |p| then s
    else if s[..|p|] == p then RemoveAll(s[|p|..], p)
    else [s[0]] + RemoveAll(s[1..], p)
  }

  /** Text in which `p` cannot start is left as it is. */
  lemma {:induction false} RemoveAllAbsent(s: string, p: string)
    requires p != [] && p[0] !in s
    ensures RemoveAll(s, p) == s
    decreases |s|
  {
    if |s| >= |p| {
      assert s[..|p|][0] == s[0];
      RemoveAllAbsent(s[1..], p);
    }
  }

  /** An occurrence of `p` after text in which `p` cannot start is the one deleted. */
  lemma {:induction false} RemoveAllAfter(a: string, p: string, b: string)
    requires p != [] && p[0] !in a
    ensures RemoveAll(a + p + b, p) == a + RemoveAll(b, p)
    decreases |a|
  {
    var s := a + p + b;
    if a == [] {
      assert s == p + b;
      assert s[..|p|] == p && s[|p|..] == b;
    } else {
      var rest := RemoveAll(b, p);
      assert s[0] == a[0];
      assert s[1..] == a[1..] + p + b;
      calc {
        RemoveAll(s, p);
        { RemoveAllKeepsHead(s, p); }
        [a[0]] + RemoveAll(a[1..] + p + b, p);
        { RemoveAllAfter(a[1..], p, b); }
        [a[0]] + (a[1..] + rest);
        ([a[0]] + a[1..]) + rest;
        { assert [a[0]] + a[1..] == a; }
        a + rest;
      }
    }
  }

  /** A first character that cannot start `p` is kept. */
  lemma RemoveAllKeepsHead(s: string, p: string)
    requires p != [] && |s| >= |p| && s[0] != p[0]
    ensures RemoveAll(s, p) == [s[0]] + RemoveAll(s[1..], p)
  {
    assert s[..|p|][0] == s[0];
  }

  /** An occurrence of `p` that ends the text, after text in which `p` cannot start, is deleted. */
  lemma RemoveAllAtEnd(a: string, p: string)
    requires p != [] && p[0] !in a
    ensures RemoveAll(a + p, p) == a
  {
    RemoveAllAfter(a, p, []);
    assert a + p + [] == a + p;
    assert RemoveAll([], p) == [];
  }

  /** `s.split(sep)[-1]`: see `AfterLastSpec` for what it yields. */
  function AfterLast(s: string, sep: string): (r: string)
    requires sep != []
    ensures |r| <= |s|
    decreases |s|
  {
    if |sep| <= |s| && s[..|sep|] == sep then AfterLast(s[|sep|..], sep)
    else if Contains(s, sep) then AfterLast(s[1..], sep)
    else s
  }

  /** The last piece of `s.split(sep)` is a suffix of `s`. */
  lemma {:induction false} AfterLastIsSuffix(s: string, sep: string)
    requires sep != []
    ensures AfterLast(s, sep) == s[|s| - |AfterLast(s, sep)|..]
    decreases |s|
  {
    if |sep| <= |s| && s[..|sep|] == sep {
      AfterLastIsSuffix(s[|sep|..], sep);
      SuffixOfSuffix(s, |sep|, |AfterLast(s, sep)|);
    } else if Contains(s, sep) {
      AfterLastIsSuffix(s[1..], sep);
      SuffixOfSuffix(s, 1, |AfterLast(s, sep)|);
    }
  }

  /** A suffix of `s[d..]` is a suffix of `s`. */
  lemma SuffixOfSuffix(s: string, d: nat, n: nat)
    requires d <= |s| && n <= |s| - d
    ensures s[d..][|s| - d - n..] == s[|s| - n..]
  {
  }

  /**
   * The last piece of `s.split(sep)`, found by Python's left-to-right,
   * non-overlapping scan, contains no separator; when `s` has no separator
   * it is all of `s`.
   */
  lemma {:induction false} AfterLastSpec(s: string, sep: string)
    requires sep != []
    ensures !Contains(AfterLast(s, sep), sep)
    ensures !Contains(s, sep) ==> AfterLast(s, sep) == s
    decreases |s|
  {
    if |sep| <= |s| && s[..|sep|] == sep {
      AfterLastSpec(s[|sep|..], sep);
    } else if Contains(s, sep) {
      AfterLastSpec(s[1..], sep);
    }
  }

  /** `sep` ends at index `k` of `s`. */
  predicate EndsAt(s: string, sep: string, k: int) {
    |sep| <= k <= |s| && s[k - |sep|..k] == sep
  }

  /** A separator ending at `m` in a suffix `s[d..]` ends at `d + m` in `s`. */
  lemma EndsAtShift(s: string, d: nat, sep: string, m: int)
    requires d <= |s| && EndsAt(s[d..], sep, m)
    ensures EndsAt(s, sep, d + m)
  {
    SliceOfSlice(s, d, |s|, m - |sep|, m);
  }

  /** When `s` has a separator, the last piece of `s.split(sep)` comes right after one. */
  lemma {:induction false} AfterLastFollowsSeparator(s: string, sep: string)
    requires sep != [] && Contains(s, sep)
    ensures EndsAt(s, sep, |s| - |AfterLast(s, sep)|)
    decreases |s|, 1
  {
    if |sep| <= |s| && s[..|sep|] == sep {
      AfterLastSkipsLeading(s, sep);
      if Contains(s[|sep|..], sep) {
        FollowsLaterSeparator(s, sep, |sep|);
      } else {
        FollowsLeadingSeparator(s, sep);
      }
    } else {
      AfterLastSkipsChar(s, sep);
      FollowsLaterSeparator(s, sep, 1);
    }
  }

  lemma AfterLastSkipsLeading(s: string, sep: string)
    requires sep != [] && |sep| <= |s| && s[..|sep|] == sep
    ensures AfterLast(s, sep) == AfterLast(s[|sep|..], sep)
  {
  }

  lemma AfterLastSkipsChar(s: string, sep: string)
    requires sep != [] && Contains(s, sep) && !(|sep| <= |s| && s[..|sep|] == sep)
    ensures |s| > 0 && Contains(s[1..], sep)
    ensures AfterLast(s, sep) == AfterLast(s[1..], sep)
  {
  }

  /** The scan has moved `d` characters on and the rest still holds a separator. */
  lemma {:induction false} FollowsLaterSeparator(s: string, sep: string, d: nat)
    requires sep != [] && 0 < d <= |s| && Contains(s[d..], sep)
    requires AfterLast(s, sep) == AfterLast(s[d..], sep)
    ensures EndsAt(s, sep, |s| - |AfterLast(s, sep)|)
    decreases |s|, 0
  {
    var t := s[d..];
    AfterLastFollowsSeparator(t, sep);
    var k := |t| - |AfterLast(t, sep)|;
    assert d + k == |s| - |AfterLast(s, sep)|;
    EndsAtShift(s, d, sep, k);
  }

  /** The scan stops right after a leading separator. */
  lemma FollowsLeadingSeparator(s: string, sep: string)
    requires sep != [] && |sep| <= |s| && s[..|sep|] == sep
    requires !Contains(s[|sep|..], sep)
    ensures EndsAt(s, sep, |s| - |AfterLast(s, sep)|)
  {
    var t := s[|sep|..];
    AfterLastSpec(t, sep);
    assert AfterLast(s, sep) == t;
  }

  // ----- runs of characters (the two `re.sub` collapses) -----

  /** No two adjacent characters of `s` both belong to `cs`. */
  predicate NoRun(s: string, cs: set<char>) {
    forall i | 0 <= i < |s| - 1 :: !(s[i] in cs && s[i + 1] in cs)
  }

  /** The suffix of `s` after its leading run of characters from `cs`. */
  function DropRun(s: string, cs: set<char>): (r: string)
    ensures |r| <= |s| && r == s[|s| - |r|..]
    ensures forall i | 0 <= i < |s| - |r| :: s[i] in cs
    ensures r == [] || r[0] !in cs
    ensures |s| > 0 && s[0] in cs ==> |r| < |s|
  {
    if |s| > 0 && s[0] in cs then
      var r := DropRun(s[1..], cs);
      assert forall i | 1 <= i < |s| - |r| :: s[i] == s[1..][i - 1];
      r
    else s
  }

  /**
   * `re.sub('[cs]+', c, s)`: each maximal run of characters from `cs` is
   * replaced by the single character `c`; every other character is kept in
   * place.
   */
  function CollapseRuns(s: string, cs: set<char>, c: char): (r: string)
    ensures |r| <= |s|
    ensures |s| > 0 ==> |r| > 0 && r[0] == (if s[0] in cs then c else s[0])
    decreases |s|
  {
    if |s| == 0 then []
    else if s[0] in cs then [c] + CollapseRuns(DropRun(s, cs), cs, c)
    else [s[0]] + CollapseRuns(s[1..], cs, c)
  }

  /** The last character of a collapsed string is that of the original, or `c` for a final run. */
  lemma {:induction false} CollapseRunsLast(s: string, cs: set<char>, c: char)
    requires |s| > 0
    ensures var r := CollapseRuns(s, cs, c);
      r[|r| - 1] == (if s[|s| - 1] in cs then c else s[|s| - 1])
    decreases |s|
  {
    if s[0] in cs {
      var rest := DropRun(s, cs);
      if rest != [] {
        CollapseRunsLast(rest, cs, c);
      }
    } else if |s| > 1 {
      CollapseRunsLast(s[1..], cs, c);
    }
  }

  /** Every character of `r` is `c` or a character of `s` outside `cs`. */
  predicate CharsFrom(r: string, s: string, cs: set<char>, c: char) {
    forall i | 0 <= i < |r| :: r[i] == c || (r[i] !in cs && r[i] in s)
  }

  /**
   * Every character of a collapsed string is the replacement `c` or a
   * character of the original outside `cs`; when `c` itself is in `cs`, no
   * two characters of `cs` are adjacent any more.
   */
  lemma {:induction false} CollapseRunsSpec(s: string, cs: set<char>, c: char)
    ensures CharsFrom(CollapseRuns(s, cs, c), s, cs, c)
    ensures c in cs ==> NoRun(CollapseRuns(s, cs, c), cs)
    decreases |s|
  {
    if |s| > 0 {
      var r := CollapseRuns(s, cs, c);
      var rest := if s[0] in cs then DropRun(s, cs) else s[1..];
      CollapseRunsSpec(rest, cs, c);
      var tail := CollapseRuns(rest, cs, c);
      assert r == [r[0]] + tail;
      assert forall x :: x in rest ==> x in s;
      forall i | 0 <= i < |r| ensures r[i] == c || (r[i] !in cs && r[i] in s) {
        if i > 0 {
          assert r[i] == tail[i - 1];
        } else if s[0] !in cs {
          assert r[0] == s[0];
          assert s[0] in s;
        }
      }
      if c in cs {
        forall i | 0 <= i < |r| - 1 ensures !(r[i] in cs && r[i + 1] in cs) {
          if i > 0 {
            assert r[i] == tail[i - 1] && r[i + 1] == tail[i];
          }
        }
      }
    }
  }

  /** A property "no run of `ds`" survives slicing. */
  lemma NoRunSlice(s: string, ds: set<char>, a: nat, b: nat)
    requires a <= b <= |s| && NoRun(s, ds)
    ensures NoRun(s[a..b], ds)
  {
    forall i | 0 <= i < b - a - 1 ensures !(s[a..b][i] in ds && s[a..b][i + 1] in ds) {
      assert s[a..b][i] == s[a + i] && s[a..b][i + 1] == s[a + i + 1];
    }
  }

  /**
   * Collapsing runs of `cs` into a character outside `ds` cannot make two
   * characters of a disjoint set `ds` adjacent.
   */
  lemma {:induction false} CollapseKeepsNoRun(s: string, cs: set<char>, c: char, ds: set<char>)
    requires ds !! cs && c !in ds && NoRun(s, ds)
    ensures NoRun(CollapseRuns(s, cs, c), ds)
    decreases |s|
  {
    if |s| == 0 {
    } else if s[0] in cs {
      var rest := DropRun(s, cs);
      NoRunSlice(s, ds, |s| - |rest|, |s|);
      CollapseKeepsNoRun(rest, cs, c, ds);
    } else {
      NoRunSlice(s, ds, 1, |s|);
      CollapseKeepsNoRun(s[1..], cs, c, ds);
      var tail := CollapseRuns(s[1..], cs, c);
      var r := CollapseRuns(s, cs, c);
      assert r == [s[0]] + tail;
      forall i | 0 <= i < |r| - 1 ensures !(r[i] in ds && r[i + 1] in ds) {
        if i > 0 {
          assert r[i] == tail[i - 1] && r[i + 1] == tail[i];
        }
      }
    }
  }

  /** A run of `cs` ends inside `a` when `a` ends outside `cs`, so text after `a` is kept whole. */
  lemma {:induction false} DropRunAppend(a: string, t: string, cs: set<char>)
    requires a != [] && a[|a| - 1] !in cs
    ensures DropRun(a + t, cs) == DropRun(a, cs) + t
    decreases |a|
  {
    if a[0] in cs {
      assert (a + t)[0] == a[0];
      assert (a + t)[1..] == a[1..] + t;
      DropRunAppend(a[1..], t, cs);
    }
  }

  /** A whole run of `cs` followed by text that does not start in `cs` is dropped exactly. */
  lemma {:induction false} DropRunOfRun(run: string, b: string, cs: set<char>)
    requires forall i | 0 <= i < |run| :: run[i] in cs
    requires b == [] || b[0] !in cs
    ensures DropRun(run + b, cs) == b
    decreases |run|
  {
    if run == [] {
      assert run + b == b;
    } else {
      assert (run + b)[0] == run[0];
      assert (run + b)[1..] == run[1..] + b;
      DropRunOfRun(run[1..], b, cs);
    }
  }

  /** Text that ends outside `cs` is collapsed independently of what follows it. */
  lemma {:induction false} CollapseRunsAppend(a: string, t: string, cs: set<char>, c: char)
    requires a == [] || a[|a| - 1] !in cs
    ensures CollapseRuns(a + t, cs, c) == CollapseRuns(a, cs, c) + CollapseRuns(t, cs, c)
    decreases |a|
  {
    if a == [] {
      assert a + t == t;
    } else if a[0] in cs {
      var rest := DropRun(a, cs);
      DropRunAppend(a, t, cs);
      assert (a + t)[0] == a[0];
      assert rest == [] || rest[|rest| - 1] == a[|a| - 1];
      CollapseRunsAppend(rest, t, cs, c);
      Sequences.Regroup3([c], CollapseRuns(rest, cs, c), CollapseRuns(t, cs, c));
    } else {
      assert (a + t)[0] == a[0];
      assert (a + t)[1..] == a[1..] + t;
      CollapseRunsAppend(a[1..], t, cs, c);
      Sequences.Regroup3([a[0]], CollapseRuns(a[1..], cs, c), CollapseRuns(t, cs, c));
    }
  }

  /**
   * A maximal run of characters from `cs` becomes the single character `c`,
   * and the text on either side is collapsed on its own.
   */
  lemma CollapseRunsReplacesRun(a: string, run: string, b: string, cs: set<char>, c: char)
    requires run != [] && forall i | 0 <= i < |run| :: run[i] in cs
    requires a == [] || a[|a| - 1] !in cs
    requires b == [] || b[0] !in cs
    ensures CollapseRuns(a + run + b, cs, c) == CollapseRuns(a, cs, c) + [c] + CollapseRuns(b, cs, c)
  {
    Sequences.Regroup3(a, run, b);
    CollapseRunsAppend(a, run + b, cs, c);
    assert (run + b)[0] == run[0];
    DropRunOfRun(run, b, cs);
    assert CollapseRuns(run + b, cs, c) == [c] + CollapseRuns(b, cs, c);
    Sequences.Regroup3(CollapseRuns(a, cs, c), [c], CollapseRuns(b, cs, c));
  }

  /** Text with no character of `cs` is left unchanged. */
  lemma {:induction false} CollapseRunsOutside(s: string, cs: set<char>, c: char)
    requires forall i | 0 <= i < |s| :: s[i] !in cs
    ensures CollapseRuns(s, cs, c) == s
    decreases |s|
  {
    if s != [] {
      CollapseRunsOutside(s[1..], cs, c);
    }
  }

  /** Text whose runs are single characters `c` is left unchanged. */
  lemma {:induction false} CollapseRunsFixes(s: string, cs: set<char>, c: char)
    requires NoRun(s, cs)
    requires forall i | 0 <= i < |s| :: s[i] in cs ==> s[i] == c
    ensures CollapseRuns(s, cs, c) == s
    decreases |s|
  {
    if s != [] {
      NoRunSlice(s, cs, 1, |s|);
      CollapseRunsFixes(s[1..], cs, c);
      if s[0] in cs {
        assert s[1..] == [] || s[1..][0] !in cs;
        assert DropRun(s, cs) == DropRun(s[1..], cs) == s[1..];
      }
      assert s == [s[0]] + s[1..];
    }
  }

  // ----- joining -----

  /** `sep.join(parts)`. */
  function Join(parts: seq<string>, sep: string): string {
    if parts == [] then []
    else if |parts| == 1 then parts[0]
    else parts[0] + sep + Join(parts[1..], sep)
  }

  /** The joined text begins with the first part. */
  lemma JoinStartsWithFirst(parts: seq<string>, sep: string)
    requires parts != []
    ensures |parts[0]| <= |Join(parts, sep)| && Join(parts, sep)[..|parts[0]|] == parts[0]
  {
    if |parts| > 1 {
      var rest := sep + Join(parts[1..], sep);
      assert Join(parts, sep) == parts[0] + rest;
    }
  }

  // ----- integers as decimal text -----

  predicate IsDigits(s: string) {
    forall i | 0 <= i < |s| :: '0' <= s[i] <= '9'
  }

  function DigitChar(d: nat): (c: char)
    requires d < 10
    ensures '0' <= c <= '9' && (c as int) - ('0' as int) == d
  {
    (('0' as int) + d) as char
  }

  /** `str(n)` for a non-negative integer: its decimal digits, no leading zero. */
  function NatToString(n: nat): (r: string)
    ensures r != [] && IsDigits(r)
    ensures n == 0 <==> r == "0"
    ensures |r| > 1 ==> r[0] != '0'
    decreases n
  {
    if n < 10 then [DigitChar(n)] else NatToString(n / 10) + [DigitChar(n % 10)]
  }

  /** The number a string of decimal digits denotes. */
  function DecimalValue(s: string): nat
    requires IsDigits(s)
  {
    if s == [] then 0
    else 10 * DecimalValue(s[..|s| - 1]) + ((s[|s| - 1] as int) - ('0' as int))
  }

  /** Reading back the digits `str(n)` writes gives `n`. */
  lemma {:induction false} DecimalValueOfNatToString(n: nat)
    ensures DecimalValue(NatToString(n)) == n
    decreases n
  {
    if n >= 10 {
      var r := NatToString(n);
      DecimalValueOfNatToString(n / 10);
      assert r[..|r| - 1] == NatToString(n / 10);
    }
  }

  /** `str(i)` for any integer. */
  function IntToString(i: int): (r: string)
    ensures r != []
    ensures i >= 0 ==> IsDigits(r)
    ensures i < 0 ==> r[0] == '-' && IsDigits(r[1..])
  {
    if i < 0 then "-" + NatToString(-i) else NatToString(i)
  }

  /** Reads the decimal text of an integer, as Python's `int(s)` does for what `str` writes. */
  function ParseInt(s: string): Option<int> {
    if |s| > 1 && s[0] == '-' && IsDigits(s[1..]) then Some(0 - DecimalValue(s[1..]))
    else if s != [] && IsDigits(s) then Some(DecimalValue(s))
    else None
  }

  /** `str` loses nothing: `ParseInt` inverts it on every integer. */
  lemma ParseIntToString(i: int)
    ensures ParseInt(IntToString(i)) == Some(i)
  {
    if i < 0 {
      ParseNegativeToString(i);
    } else {
      ParseNonNegativeToString(i);
    }
  }

  lemma ParseNegativeToString(i: int)
    requires i < 0
    ensures ParseInt(IntToString(i)) == Some(i)
  {
    var digits := NatToString(-i);
    assert IntToString(i) == "-" + digits;
    DecimalValueOfNatToString(-i);
    ParseNegative(digits);
  }

  lemma ParseNonNegativeToString(n: nat)
    ensures ParseInt(IntToString(n)) == Some(n)
  {
    var digits := NatToString(n);
    assert IntToString(n) == digits;
    DecimalValueOfNatToString(n);
    ParseNonNegative(digits);
  }

  lemma ParseNegative(digits: string)
    requires digits != [] && IsDigits(digits)
    ensures ParseInt("-" + digits) == Some(0 - DecimalValue(digits))
  {
    assert ("-" + digits)[1..] == digits;
  }

  lemma ParseNonNegative(digits: string)
    requires digits != [] && IsDigits(digits)
    ensures ParseInt(digits) == Some(DecimalValue(digits))
  {
    assert '0' <= digits[0] <= '9';
  }


}
