/** The Python string primitives the story script relies on, over
    `string` = `seq<char>`: filtering comprehensions, `str.replace` with an
    empty replacement, `str.replace(old, new, 1)`, the `in` operator,
    `str.strip()`, and a subsequence relation to state that a pipeline only
    ever deletes characters. */
module Text {

  /** Characters `str.strip()` removes; only the ASCII whitespace
      characters are modelled. */
  predicate IsSpace(c: char)
  {
    c == ' ' || c == '\t' || c == '\n' || c == '\r' || c == '\U{000B}' || c == '\U{000C}'
  }

  // ---------------------------------------------------------------------
  // Subsequences

  /** `a` can be obtained from `b` by deleting characters. */
  ghost predicate IsSubseq(a: string, b: string)
    decreases |b|
  {
    a == [] || (b != [] && ((a[0] == b[0] && IsSubseq(a[1..], b[1..])) || IsSubseq(a, b[1..])))
  }

  lemma {:induction false} SubseqRefl(s: string)
    ensures IsSubseq(s, s)
    decreases |s|
  {
    if s != [] {
      SubseqRefl(s[1..]);
    }
  }

  lemma {:induction false} SubseqTrans(a: string, b: string, c: string)
    requires IsSubseq(a, b) && IsSubseq(b, c)
    ensures IsSubseq(a, c)
    decreases |a| + |b| + |c|
  {
    if a != [] {
      if IsSubseq(b, c[1..]) {
        SubseqTrans(a, b, c[1..]);
      } else {
        assert b[0] == c[0] && IsSubseq(b[1..], c[1..]);
        if a[0] == b[0] && IsSubseq(a[1..], b[1..]) {
          SubseqTrans(a[1..], b[1..], c[1..]);
        } else {
          SubseqTrans(a, b[1..], c[1..]);
        }
      }
    }
  }

  /** Dropping a prefix of `b` keeps its subsequences' witnesses. */
  lemma {:induction false} SubseqOfDrop(a: string, b: string, k: nat)
    requires k <= |b| && IsSubseq(a, b[k..])
    ensures IsSubseq(a, b)
    decreases k
  {
    if k > 0 {
      assert b[1..][k - 1..] == b[k..];
      SubseqOfDrop(a, b[1..], k - 1);
    }
  }

  lemma {:induction false} PrefixIsSubseq(s: string, m: nat)
    requires m <= |s|
    ensures IsSubseq(s[..m], s)
    decreases m
  {
    if m > 0 {
      assert s[..m][1..] == s[1..][..m - 1];
      PrefixIsSubseq(s[1..], m - 1);
    }
  }

  lemma {:induction false} SubseqChars(a: string, b: string)
    requires IsSubseq(a, b)
    ensures forall c :: c in a ==> c in b
    decreases |b|
  {
    if a != [] {
      if a[0] == b[0] && IsSubseq(a[1..], b[1..]) {
        SubseqChars(a[1..], b[1..]);
        assert forall c :: c in a ==> c == a[0] || c in a[1..];
      } else {
        SubseqChars(a, b[1..]);
      }
    }
  }

  // ---------------------------------------------------------------------
  // Comprehension filter: ''.join(ch for ch in s if keep(ch))

  function Keep(s: string, keep: char -> bool): (r: string)
    ensures forall i :: 0 <= i < |r| ==> keep(r[i])
    ensures IsSubseq(r, s)
    ensures (forall i :: 0 <= i < |s| ==> keep(s[i])) ==> r == s
    decreases |s|
  {
    if s == [] then []
    else
      var rest := Keep(s[1..], keep);
      if keep(s[0]) then [s[0]] + rest else rest
  }

  /** The filter keeps every occurrence of every character that passes the
      test; with the contract of `Keep` this determines its result. */
  lemma {:induction false} KeepCounts(s: string, keep: char -> bool, c: char)
    requires keep(c)
    ensures Count(Keep(s, keep), c) == Count(s, c)
    decreases |s|
  {
    if s != [] {
      KeepCounts(s[1..], keep, c);
      var rest := Keep(s[1..], keep);
      if keep(s[0]) {
        assert ([s[0]] + rest)[0] == s[0] && ([s[0]] + rest)[1..] == rest;
      }
    }
  }

  /** Filtering a concatenation filters each part. */
  lemma {:induction false} KeepAppend(a: string, b: string, keep: char -> bool)
    ensures Keep(a + b, keep) == Keep(a, keep) + Keep(b, keep)
    decreases |a|
  {
    if a == [] {
      assert a + b == b;
    } else {
      assert (a + b)[0] == a[0] && (a + b)[1..] == a[1..] + b;
      KeepAppend(a[1..], b, keep);
    }
  }

  /** Filtering twice keeps what the stricter test keeps. */
  lemma {:induction false} KeepKeep(s: string, weak: char -> bool, strict: char -> bool)
    requires forall c :: strict(c) ==> weak(c)
    ensures Keep(Keep(s, weak), strict) == Keep(s, strict)
    decreases |s|
  {
    if s != [] {
      KeepKeep(s[1..], weak, strict);
      var rest := Keep(s[1..], weak);
      if weak(s[0]) {
        assert ([s[0]] + rest)[0] == s[0] && ([s[0]] + rest)[1..] == rest;
      }
    }
  }

  /** Deleting a character the filter rejects anyway does not change what
      the filter keeps. */
  lemma {:induction false} KeepAfterRemoveChar(s: string, q: char, keep: char -> bool)
    requires !keep(q)
    ensures Keep(RemoveAll(s, [q]), keep) == Keep(s, keep)
    decreases |s|
  {
    if |s| >= 1 {
      KeepAfterRemoveChar(s[1..], q, keep);
      if s[..1] != [q] {
        var rest := RemoveAll(s[1..], [q]);
        assert ([s[0]] + rest)[0] == s[0] && ([s[0]] + rest)[1..] == rest;
      } else {
        assert s[0] == q;
      }
    }
  }

  // ---------------------------------------------------------------------
  // s.replace(pat, ""): delete the leftmost non-overlapping occurrences

  function RemoveAll(s: string, pat: string): (r: string)
    requires pat != []
    ensures IsSubseq(r, s)
    decreases |s|
  {
    if |s| < |pat| then
      SubseqRefl(s);
      s
    else if s[..|pat|] == pat then
      var rest := RemoveAll(s[|pat|..], pat);
      SubseqOfDrop(rest, s, |pat|);
      rest
    else
      [s[0]] + RemoveAll(s[1..], pat)
  }

  /** A leading occurrence of the pattern is deleted. */
  lemma RemoveAllLeading(pat: string, v: string)
    requires pat != []
    ensures RemoveAll(pat + v, pat) == RemoveAll(v, pat)
  {
    assert (pat + v)[..|pat|] == pat;
    assert (pat + v)[|pat|..] == v;
  }

  /** A first character that does not open the pattern is kept. */
  lemma RemoveAllHead(c: char, w: string, pat: string)
    requires pat != [] && pat[0] != c
    ensures RemoveAll([c] + w, pat) == [c] + RemoveAll(w, pat)
  {
    var s := [c] + w;
    assert s[1..] == w;
    if |s| >= |pat| {
      assert s[..|pat|][0] == c;
    }
  }

  /** A prefix that lacks the pattern's first character is kept as it is,
      and the deletion goes on after it. */
  lemma {:induction false} RemoveAllSkip(a: string, v: string, pat: string)
    requires pat != [] && pat[0] !in a
    ensures RemoveAll(a + v, pat) == a + RemoveAll(v, pat)
    decreases |a|
  {
    if a == [] {
      assert a + v == v;
    } else {
      var h, t := a[0], a[1..];
      assert a == [h] + t;
      assert pat[0] != h;
      assert pat[0] !in t by {
        assert forall x :: x in t ==> x in a;
      }
      calc {
        RemoveAll(a + v, pat);
        { assert a + v == [h] + (t + v); }
        RemoveAll([h] + (t + v), pat);
        { RemoveAllHead(h, t + v, pat); }
        [h] + RemoveAll(t + v, pat);
        { RemoveAllSkip(t, v, pat); }
        [h] + (t + RemoveAll(v, pat));
        a + RemoveAll(v, pat);
      }
    }
  }

  /** A text that does not start with the pattern keeps its first
      character, and the scan goes on from the next one. */
  lemma RemoveAllStep(s: string, pat: string)
    requires pat != [] && s != [] && !StartsWith(s, pat)
    ensures RemoveAll(s, pat) == [s[0]] + RemoveAll(s[1..], pat)
  {
    if |s| < |pat| {
      assert RemoveAll(s[1..], pat) == s[1..];
      assert s == [s[0]] + s[1..];
    }
  }

  /** A text in which the pattern does not occur is left unchanged. */
  lemma {:induction false} RemoveAllNone(s: string, pat: string)
    requires pat != [] && !Contains(s, pat)
    ensures RemoveAll(s, pat) == s
    decreases |s|
  {
    if |s| >= |pat| {
      assert s[0..] == s;
      RemoveAllStep(s, pat);
      assert !Contains(s[1..], pat) by {
        forall i | 0 <= i <= |s[1..]| - |pat|
          ensures !StartsWith(s[1..][i..], pat)
        {
          assert s[1..][i..] == s[i + 1..];
        }
      }
      RemoveAllNone(s[1..], pat);
      assert s == [s[0]] + s[1..];
    }
  }

  /** The first occurrence of the pattern, found after `a`, is deleted; `a`
      stays in front and the deletion goes on after the occurrence. With
      `RemoveAllNone` this fixes the result on every text. */
  lemma {:induction false} RemoveAllFirst(a: string, v: string, pat: string)
    requires pat != []
    requires forall i :: 0 <= i < |a| ==> !StartsWith((a + pat + v)[i..], pat)
    ensures RemoveAll(a + pat + v, pat) == a + RemoveAll(v, pat)
    decreases |a|
  {
    var s := a + pat + v;
    if a == [] {
      assert s == pat + v;
      RemoveAllLeading(pat, v);
    } else {
      var h, b := a[0], a[1..];
      var t := b + pat + v;
      assert !StartsWith(s[0..], pat);
      assert s[0..] == s;
      assert s == [h] + t;
      forall i | 0 <= i < |b|
        ensures !StartsWith(t[i..], pat)
      {
        assert t[i..] == s[i + 1..];
      }
      calc {
        RemoveAll(s, pat);
        { RemoveAllStep(s, pat); assert s[1..] == t; }
        [h] + RemoveAll(t, pat);
        { RemoveAllFirst(b, v, pat); }
        [h] + (b + RemoveAll(v, pat));
        { assert a == [h] + b; }
        a + RemoveAll(v, pat);
      }
    }
  }

  /** Deleting a pattern that has a character the text lacks changes nothing. */
  lemma {:induction false} RemoveAllAbsent(s: string, pat: string, c: char)
    requires pat != [] && c in pat && c !in s
    ensures RemoveAll(s, pat) == s
    decreases |s|
  {
    if |s| >= |pat| {
      assert forall x :: x in s[..|pat|] ==> x in s;
      assert s[..|pat|] != pat;
      RemoveAllAbsent(s[1..], pat, c);
      assert [s[0]] + s[1..] == s;
    }
  }

  /** Deleting a doubled character `cc` leaves no `cc` behind: each run of
      `c` shrinks to at most one `c`, and the runs stay apart. */
  lemma {:induction false} RemovePairLeavesNone(s: string, c: char)
    ensures !Contains(RemoveAll(s, [c, c]), [c, c])
    decreases |s|
  {
    var pat := [c, c];
    if |s| < 2 {
    } else if s[..2] == pat {
      RemovePairLeavesNone(s[2..], c);
    } else {
      var rest := RemoveAll(s[1..], pat);
      RemovePairLeavesNone(s[1..], c);
      var r := [s[0]] + rest;
      assert r == RemoveAll(s, pat);
      forall i | 0 <= i <= |r| - 2
        ensures !StartsWith(r[i..], pat)
      {
        if i == 0 {
          if s[0] == c {
            assert s[1] != c by { assert s[..2] == [s[0], s[1]]; }
            RemoveAllKeepsHead(s[1..], c);
          }
          assert r[..2][0] == r[0] && r[..2][1] == r[1];
        } else {
          assert r[i..] == rest[i - 1..];
          assert !StartsWith(rest[i - 1..], pat);
        }
      }
    }
  }

  /** A text not starting with `c` keeps its first character when `cc` is deleted. */
  lemma RemoveAllKeepsHead(s: string, c: char)
    requires s != [] && s[0] != c
    ensures RemoveAll(s, [c, c]) != [] && RemoveAll(s, [c, c])[0] == s[0]
  {
    if |s| >= 2 {
      assert s[..2] != [c, c];
    }
  }

  // ---------------------------------------------------------------------
  // s.replace(pat, replacement, 1): replace the leftmost occurrence only

  function ReplaceFirst(s: string, pat: string, replacement: string): string
    requires pat != []
    decreases |s|
  {
    if |s| < |pat| then s
    else if s[..|pat|] == pat then replacement + s[|pat|..]
    else [s[0]] + ReplaceFirst(s[1..], pat, replacement)
  }

  /** Replacing the first occurrence of a pattern by itself is the identity. */
  lemma {:induction false} ReplaceFirstSelf(s: string, pat: string)
    requires pat != []
    ensures ReplaceFirst(s, pat, pat) == s
    decreases |s|
  {
    if |s| >= |pat| {
      if s[..|pat|] == pat {
        assert s[..|pat|] + s[|pat|..] == s;
      } else {
        ReplaceFirstSelf(s[1..], pat);
        assert [s[0]] + s[1..] == s;
      }
    }
  }

  // ---------------------------------------------------------------------
  // pat in s

  /** `pat` occurs in `s`: some suffix of `s` starts with it. */
  predicate Contains(s: string, pat: string)
  {
    exists i :: 0 <= i <= |s| - |pat| && StartsWith(s[i..], pat)
  }

  /** A text lacking one of the pattern's characters does not contain it. */
  lemma MissingCharNotContained(s: string, pat: string, c: char)
    requires c in pat && c !in s
    ensures !Contains(s, pat)
  {
    forall i | 0 <= i <= |s| - |pat|
      ensures !StartsWith(s[i..], pat)
    {
      assert forall x :: x in s[i..][..|pat|] ==> x in s;
    }
  }

  predicate StartsWith(s: string, prefix: string)
  {
    |prefix| <= |s| && s[..|prefix|] == prefix
  }

  predicate EndsWith(s: string, suffix: string)
  {
    |suffix| <= |s| && s[|s| - |suffix|..] == suffix
  }

  /** A concatenation starts with its left part and ends with its right part. */
  lemma AppendBounds(a: string, b: string)
    ensures StartsWith(a + b, a) && EndsWith(a + b, b)
  {
    assert (a + b)[..|a|] == a;
    assert (a + b)[|a + b| - |b|..] == b;
  }

  /** A prefix of a prefix is a prefix. */
  lemma StartsWithTrans(s: string, t: string, u: string)
    requires StartsWith(s, t) && StartsWith(t, u)
    ensures StartsWith(s, u)
  {
    assert s[..|u|] == s[..|t|][..|u|];
  }

  // ---------------------------------------------------------------------
  // s.strip()

  function TrimStart(s: string): (r: string)
    ensures |r| <= |s| && r == s[|s| - |r|..]
    ensures r == [] || !IsSpace(r[0])
    decreases |s|
  {
    if s != [] && IsSpace(s[0]) then TrimStart(s[1..]) else s
  }

  function TrimEnd(s: string): (r: string)
    ensures |r| <= |s| && r == s[..|r|]
    ensures r == [] || !IsSpace(r[|r| - 1])
    decreases |s|
  {
    if s != [] && IsSpace(s[|s| - 1]) then TrimEnd(s[..|s| - 1]) else s
  }

  /** What `TrimStart` drops is whitespace. */
  lemma {:induction false} TrimStartDropsSpaces(s: string)
    ensures forall k :: 0 <= k < |s| - |TrimStart(s)| ==> IsSpace(s[k])
    decreases |s|
  {
    if s != [] && IsSpace(s[0]) {
      TrimStartDropsSpaces(s[1..]);
      assert forall k :: 1 <= k < |s| ==> s[k] == s[1..][k - 1];
    }
  }

  /** What `TrimEnd` drops is whitespace. */
  lemma {:induction false} TrimEndDropsSpaces(s: string)
    ensures forall k :: |TrimEnd(s)| <= k < |s| ==> IsSpace(s[k])
    decreases |s|
  {
    if s != [] && IsSpace(s[|s| - 1]) {
      TrimEndDropsSpaces(s[..|s| - 1]);
      assert forall k :: 0 <= k < |s| - 1 ==> s[k] == s[..|s| - 1][k];
    }
  }

  /** A prefix `r` of a suffix `t` of `s` is the slice of `s` that starts
      where `t` does; a whitespace margin around `r` inside `t` and around
      `t` inside `s` is a whitespace margin around that slice. */
  lemma SliceOfSuffix(s: string, t: string, r: string)
    requires |t| <= |s| && t == s[|s| - |t|..]
    requires |r| <= |t| && r == t[..|r|]
    requires forall k :: 0 <= k < |s| - |t| ==> IsSpace(s[k])
    requires forall k :: |r| <= k < |t| ==> IsSpace(t[k])
    ensures var i := |s| - |t|;
      && r == s[i..i + |r|]
      && (forall k :: 0 <= k < i || i + |r| <= k < |s| ==> IsSpace(s[k]))
  {
    var i := |s| - |t|;
    forall k | i + |r| <= k < |s|
      ensures IsSpace(s[k])
    {
      assert s[k] == t[k - i];
    }
  }

  /** Trimming both ends only deletes characters. */
  lemma TrimSubseq(s: string)
    ensures IsSubseq(TrimEnd(TrimStart(s)), s)
  {
    var t := TrimStart(s);
    var r := TrimEnd(t);
    PrefixIsSubseq(t, |r|);
    SubseqRefl(t);
    SubseqOfDrop(t, s, |s| - |t|);
    SubseqTrans(r, t, s);
  }

  /** Text with no whitespace at either end is left alone by both trims. */
  lemma TrimFixed(s: string)
    ensures (s == [] || (!IsSpace(s[0]) && !IsSpace(s[|s| - 1]))) ==> TrimEnd(TrimStart(s)) == s
  {
    if s != [] && !IsSpace(s[0]) && !IsSpace(s[|s| - 1]) {
      assert TrimStart(s) == s;
    }
  }

  function Strip(s: string): (r: string)
    ensures r == [] || (!IsSpace(r[0]) && !IsSpace(r[|r| - 1]))
    ensures IsSubseq(r, s)
    ensures (s == [] || (!IsSpace(s[0]) && !IsSpace(s[|s| - 1]))) ==> r == s
  {
    TrimSubseq(s);
    TrimFixed(s);
    TrimEnd(TrimStart(s))
  }

  /** `strip()` cuts one slice out of the text and what it drops around that
      slice is whitespace; with the contract of `Strip` this determines its
      result. */
  lemma StripIsSlice(s: string)
    ensures exists i, j :: 0 <= i <= j <= |s| && Strip(s) == s[i..j] && (forall k :: 0 <= k < i || j <= k < |s| ==> IsSpace(s[k]))
  {
    var t := TrimStart(s);
    var r := TrimEnd(t);
    TrimStartDropsSpaces(s);
    TrimEndDropsSpaces(t);
    SliceOfSuffix(s, t, r);
    var i := |s| - |t|;
    assert 0 <= i <= i + |r| <= |s| && r == s[i..i + |r|];
  }

  // ---------------------------------------------------------------------
  // Counting a character (used to count rendered lines)

  function Count(s: string, c: char): (n: nat)
    ensures n <= |s|
    decreases |s|
  {
    if s == [] then 0 else (if s[0] == c then 1 else 0) + Count(s[1..], c)
  }

  lemma {:induction false} CountAppend(a: string, b: string, c: char)
    ensures Count(a + b, c) == Count(a, c) + Count(b, c)
    decreases |a|
  {
    if a == [] {
      assert a + b == b;
    } else {
      assert (a + b)[0] == a[0] && (a + b)[1..] == a[1..] + b;
      CountAppend(a[1..], b, c);
    }
  }

}
