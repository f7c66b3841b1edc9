/**
 * The handful of Python `str` operations the core relies on: `in` (substring
 * test), `startswith`, `split` (also with a limit of one), `"sep".join`,
 * `strip` and `lower`.
 */
module Text {
  import opened Wrappers

  /** `sub` occurs in `s` starting at index `i`. */
  predicate OccursAt(s: string, sub: string, i: int)
  {
    0 <= i && i + |sub| <= |s| && s[i..i + |sub|] == sub
  }

  /** Python's `sub in s`. */
  predicate Contains(s: string, sub: string)
  {
    exists i | 0 <= i <= |s| :: OccursAt(s, sub, i)
  }

  /** Python's `s.startswith(prefix)`. */
  predicate StartsWith(s: string, prefix: string)
  {
    |prefix| <= |s| && s[..|prefix|] == prefix
  }

  /**
   * The index of the first `c` in `s`: where `s.split(c, 1)` cuts, giving
   * `s[..i]` and `s[i + 1..]`.
   */
  function FirstIndex(s: string, c: char): (i: nat)
    requires c in s
    ensures i < |s| && s[i] == c && c !in s[..i]
  {
    if s[0] == c then 0
    else
      var j := FirstIndex(s[1..], c);
      assert s[..j + 1] == [s[0]] + s[1..][..j];
      j + 1
  }

  /**
   * Python's `s.split(sep)` for a non-empty separator: the pieces between
   * the left-to-right, non-overlapping occurrences of `sep`. A separator at
   * the front closes an empty first piece; otherwise the first character
   * joins the first piece of the rest.
   */
  function SplitOn(s: string, sep: string): (parts: seq<string>)
    requires |sep| > 0
    decreases |s|
    ensures |parts| >= 1
  {
    if |s| < |sep| then [s]
    else if s[..|sep|] == sep then [""] + SplitOn(s[|sep|..], sep)
    else
      var rest := SplitOn(s[1..], sep);
      [[s[0]] + rest[0]] + rest[1..]
  }

  /** Python's `sep.join(parts)`. */
  function Join(parts: seq<string>, sep: string): string
  {
    if |parts| == 0 then ""
    else if |parts| == 1 then parts[0]
    else parts[0] + sep + Join(parts[1..], sep)
  }

  /** Joining after extending the first piece on the left extends the result on the left. */
  lemma JoinExtendFirst(c: string, parts: seq<string>, sep: string)
    requires |parts| >= 1
    ensures Join([c + parts[0]] + parts[1..], sep) == c + Join(parts, sep)
  {
    var q := [c + parts[0]] + parts[1..];
    if |parts| > 1 {
      assert q[1..] == parts[1..];
    }
  }

  /** Joining the pieces of a split gives back the original string. */
  lemma {:induction false} JoinSplit(s: string, sep: string)
    requires |sep| > 0
    ensures Join(SplitOn(s, sep), sep) == s
    decreases |s|
  {
    if |s| < |sep| {
    } else if s[..|sep|] == sep {
      var tail := SplitOn(s[|sep|..], sep);
      JoinSplit(s[|sep|..], sep);
      assert ([""] + tail)[1..] == tail;
      assert Join([""] + tail, sep) == "" + sep + Join(tail, sep);
      assert s == s[..|sep|] + s[|sep|..];
    } else {
      JoinSplit(s[1..], sep);
      JoinExtendFirst([s[0]], SplitOn(s[1..], sep), sep);
      assert s == [s[0]] + s[1..];
    }
  }

  /** A string that does not contain `sep` is its own single piece. */
  lemma {:induction false} SplitFree(s: string, sep: string)
    requires |sep| > 0
    requires !Contains(s, sep)
    ensures SplitOn(s, sep) == [s]
    decreases |s|
  {
    if |s| >= |sep| {
      assert !OccursAt(s, sep, 0);
      FreeTail(s, sep);
      SplitFree(s[1..], sep);
      assert [s[0]] + s[1..] == s;
    }
  }

  /** A string that contains `sep` splits into at least two pieces. */
  lemma {:induction false} SplitHolding(s: string, sep: string)
    requires |sep| > 0
    requires Contains(s, sep)
    ensures |SplitOn(s, sep)| >= 2
    decreases |s|
  {
    var i :| 0 <= i <= |s| && OccursAt(s, sep, i);
    if s[..|sep|] != sep {
      assert i > 0;
      assert s[1..][i - 1..i - 1 + |sep|] == s[i..i + |sep|];
      assert OccursAt(s[1..], sep, i - 1);
      SplitHolding(s[1..], sep);
    }
  }

  /**
   * A separator whose first character does not occur again inside it cannot
   * straddle the end of a string that lacks it.
   */
  predicate HeadUnique(sep: string)
  {
    |sep| > 0 && forall k :: 0 < k < |sep| ==> sep[k] != sep[0]
  }

  /** Dropping the first character of a string that lacks `sep` leaves a string that lacks it. */
  lemma FreeTail(a: string, sep: string)
    requires |a| > 0 && !Contains(a, sep)
    ensures !Contains(a[1..], sep)
  {
    forall j | OccursAt(a[1..], sep, j) ensures OccursAt(a, sep, j + 1) {
      assert a[1..][j..j + |sep|] == a[j + 1..j + 1 + |sep|];
    }
  }

  /** A non-empty `a` that lacks `sep` does not start `a + sep + b` with `sep`. */
  lemma NoSepAtStart(a: string, sep: string, b: string)
    requires HeadUnique(sep)
    requires |a| > 0 && !Contains(a, sep)
    ensures (a + sep + b)[..|sep|] != sep
  {
    var s := a + sep + b;
    if |a| < |sep| {
      assert s[|a|] == sep[0];
    } else {
      assert s[..|sep|] == a[..|sep|];
      assert !OccursAt(a, sep, 0);
    }
  }

  /** A string holds `sep` exactly when splitting on it gives more than one piece. */
  lemma SplitCount(s: string, sep: string)
    requires |sep| > 0
    ensures Contains(s, sep) <==> |SplitOn(s, sep)| >= 2
  {
    if Contains(s, sep) {
      SplitHolding(s, sep);
    } else {
      SplitFree(s, sep);
    }
  }

  /** Where `a` lacks `sep`, `a + sep + b` splits into `a` followed by the pieces of `b`. */
  lemma {:induction false} SplitAfterFree(a: string, sep: string, b: string)
    requires HeadUnique(sep)
    requires !Contains(a, sep)
    ensures SplitOn(a + sep + b, sep) == [a] + SplitOn(b, sep)
    decreases |a|
  {
    var s := a + sep + b;
    if |a| == 0 {
      assert s[..|sep|] == sep;
      assert s[|sep|..] == b;
    } else {
      NoSepAtStart(a, sep, b);
      FreeTail(a, sep);
      SplitAfterFree(a[1..], sep, b);
      assert s[1..] == a[1..] + sep + b;
      assert [a[0]] + a[1..] == a;
    }
  }

  /** Splitting `c + sep + tail` for a `tail` free of `sep` adds `tail` as the last piece. */
  lemma {:induction false} SplitAppend(c: string, sep: string, tail: string)
    requires HeadUnique(sep)
    requires !Contains(tail, sep)
    ensures SplitOn(c + sep + tail, sep) == SplitOn(c, sep) + [tail]
    decreases |c|
  {
    var s := c + sep + tail;
    if |c| == 0 {
      assert s[..|sep|] == sep;
      assert s[|sep|..] == tail;
      SplitFree(tail, sep);
    } else if |c| < |sep| {
      assert !Contains(c, sep);
      SplitAfterFree(c, sep, tail);
      SplitFree(tail, sep);
    } else if c[..|sep|] == sep {
      assert s[..|sep|] == sep;
      assert s[|sep|..] == c[|sep|..] + sep + tail;
      SplitAppend(c[|sep|..], sep, tail);
    } else {
      assert s[..|sep|] == c[..|sep|];
      assert s[1..] == c[1..] + sep + tail;
      SplitAppend(c[1..], sep, tail);
    }
  }

  /** `sep` occurs in `a + sep + b` right after `a`. */
  lemma OccursAfter(a: string, sep: string, b: string)
    ensures OccursAt(a + sep + b, sep, |a|)
    ensures Contains(a + sep + b, sep)
  {
    assert (a + sep + b)[|a|..|a| + |sep|] == sep;
    assert OccursAt(a + sep + b, sep, |a|);
  }

  /** A string without the first character of `sep` does not contain `sep`. */
  lemma HeadAbsent(s: string, sep: string)
    requires |sep| > 0 && sep[0] !in s
    ensures !Contains(s, sep)
  {
    forall j | 0 <= j <= |s| && j + |sep| <= |s| ensures !OccursAt(s, sep, j) {
      assert s[j..j + |sep|][0] == s[j];
    }
  }

  /**
   * Gluing two strings that lack `sep` around a non-empty middle none of
   * whose characters occur in `sep` gives a string that lacks `sep`.
   */
  lemma FreeConcat(a: string, mid: string, b: string, sep: string)
    requires |sep| > 0
    requires |mid| > 0 && forall k :: 0 <= k < |mid| ==> mid[k] !in sep
    requires !Contains(a, sep) && !Contains(b, sep)
    ensures !Contains(a + (mid + b), sep)
  {
    var s := a + (mid + b);
    forall j | 0 <= j <= |s| ensures !OccursAt(s, sep, j) {
      if j + |sep| > |s| {
      } else if j + |sep| <= |a| {
        assert s[j..j + |sep|] == a[j..j + |sep|];
        assert !OccursAt(a, sep, j);
      } else if j >= |a| + |mid| {
        var i := j - |a| - |mid|;
        assert s[j..j + |sep|] == b[i..i + |sep|];
        assert !OccursAt(b, sep, i);
      } else {
        var p := if j < |a| then |a| else j;
        assert s[p] == mid[p - |a|];
      }
    }
  }

  /** The characters Python's `str.isspace` accepts, which `str.strip` removes. */
  predicate IsSpace(c: char)
  {
    var n := c as int;
    n == 0x20 || 0x09 <= n <= 0x0D || 0x1C <= n <= 0x1F || n == 0x85 || n == 0xA0
    || n == 0x1680 || 0x2000 <= n <= 0x200A || n == 0x2028 || n == 0x2029
    || n == 0x202F || n == 0x205F || n == 0x3000
  }

  predicate AllSpace(s: string)
  {
    forall k :: 0 <= k < |s| ==> IsSpace(s[k])
  }

  /** Neither end of `s` is whitespace. */
  predicate Stripped(s: string)
  {
    s == [] || (!IsSpace(s[0]) && !IsSpace(s[|s| - 1]))
  }

  /** Python's `s.lstrip()`: what is left after dropping leading whitespace. */
  function TrimLeft(s: string): (r: string)
    ensures |r| <= |s|
    ensures r == [] || !IsSpace(r[0])
  {
    if |s| > 0 && IsSpace(s[0]) then TrimLeft(s[1..]) else s
  }

  /** Python's `s.rstrip()`: what is left after dropping trailing whitespace. */
  function TrimRight(s: string): (r: string)
    ensures |r| <= |s|
    ensures r == [] || !IsSpace(r[|r| - 1])
    ensures r != [] ==> r[0] == s[0]
  {
    if |s| > 0 && IsSpace(s[|s| - 1]) then TrimRight(s[..|s| - 1]) else s
  }

  /** Python's `s.strip()`. */
  function Strip(s: string): (r: string)
    ensures Stripped(r)
  {
    TrimRight(TrimLeft(s))
  }

  /** What `lstrip` drops is whitespace, and what it keeps is a suffix. */
  lemma {:induction false} TrimLeftSuffix(s: string)
    ensures var r := TrimLeft(s); r == s[|s| - |r|..] && AllSpace(s[..|s| - |r|])
  {
    if |s| > 0 && IsSpace(s[0]) {
      TrimLeftSuffix(s[1..]);
      var r := TrimLeft(s);
      assert s[1..][|s| - 1 - |r|..] == s[|s| - |r|..];
      assert forall k :: 0 < k < |s| - |r| ==> s[k] == s[1..][..|s| - 1 - |r|][k - 1];
    }
  }

  /** What `rstrip` drops is whitespace, and what it keeps is a prefix. */
  lemma {:induction false} TrimRightPrefix(s: string)
    ensures var r := TrimRight(s); r == s[..|r|] && AllSpace(s[|r|..])
  {
    if |s| > 0 && IsSpace(s[|s| - 1]) {
      TrimRightPrefix(s[..|s| - 1]);
      var r := TrimRight(s);
      assert s[..|s| - 1][..|r|] == s[..|r|];
      assert forall k :: |r| <= k < |s| - 1 ==> s[k] == s[..|s| - 1][|r|..][k - |r|];
    }
  }

  /** `strip` yields the empty string exactly for all-whitespace input. */
  lemma StripEmpty(s: string)
    ensures Strip(s) == [] <==> AllSpace(s)
  {
    var l := TrimLeft(s);
    TrimLeftSuffix(s);
    TrimRightPrefix(l);
    if Strip(s) == [] {
      assert AllSpace(l);
      assert s == s[..|s| - |l|] + l;
    }
  }

  /** Stripping a string without surrounding whitespace leaves it alone. */
  lemma StripStripped(s: string)
    requires Stripped(s)
    ensures Strip(s) == s
  {
    assert TrimLeft(s) == s;
    assert TrimRight(s) == s;
  }

  /** `strip` is idempotent. */
  lemma StripIdempotent(s: string)
    ensures Strip(Strip(s)) == Strip(s)
  {
    StripStripped(Strip(s));
  }

  /** Stripping after adding whitespace on the left gives the same result. */
  lemma {:induction false} StripSpacePrefix(w: string, s: string)
    requires AllSpace(w)
    ensures Strip(w + s) == Strip(s)
    decreases |w|
  {
    if |w| > 0 {
      assert (w + s)[1..] == w[1..] + s;
      StripSpacePrefix(w[1..], s);
    } else {
      assert w + s == s;
    }
  }

  /** Python's `c.lower()` on ASCII letters. */
  function LowerChar(c: char): char
  {
    if 'A' <= c <= 'Z' then (c as int + 32) as char else c
  }

  /** Python's `s.lower()`, on ASCII letters. */
  function Lower(s: string): (r: string)
    ensures |r| == |s|
    ensures forall k :: 0 <= k < |s| ==> r[k] == LowerChar(s[k])
    ensures forall k :: 0 <= k < |r| ==> !('A' <= r[k] <= 'Z')
  {
    seq(|s|, k requires 0 <= k < |s| => LowerChar(s[k]))
  }

  /** Python's `c.isdigit()`, on ASCII digits. */
  predicate IsDigit(c: char)
  {
    '0' <= c <= '9'
  }
}
