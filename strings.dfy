/** The JavaScript string operations the core relies on: `String.prototype.trim`,
    a global regular-expression replacement by the empty string, and
    `startsWith`. */
module Strings {

  /** JavaScript's WhiteSpace and LineTerminator code points, which `trim` removes. */
  predicate IsSpace(c: char) {
    || c == ' ' || c == '\t' || c == '\n' || c == '\r'
    || c == '\U{000B}' || c == '\U{000C}' || c == '\U{00A0}' || c == '\U{1680}'
    || ('\U{2000}' <= c <= '\U{200A}')
    || c == '\U{2028}' || c == '\U{2029}' || c == '\U{202F}' || c == '\U{205F}'
    || c == '\U{3000}' || c == '\U{FEFF}'
  }

  /** No whitespace at either end. */
  predicate Trimmed(s: string) {
    s == [] || (!IsSpace(s[0]) && !IsSpace(s[|s| - 1]))
  }

  /** The number of leading whitespace characters. */
  function Lead(s: string): (n: nat)
    ensures n <= |s|
    ensures forall i :: 0 <= i < n ==> IsSpace(s[i])
    ensures n == |s| || !IsSpace(s[n])
  {
    if |s| > 0 && IsSpace(s[0]) then 1 + Lead(s[1..]) else 0
  }

  /** The number of trailing whitespace characters. */
  function Trail(s: string): (n: nat)
    ensures n <= |s|
    ensures forall i :: |s| - n <= i < |s| ==> IsSpace(s[i])
    ensures n == |s| || !IsSpace(s[|s| - 1 - n])
  {
    if |s| > 0 && IsSpace(s[|s| - 1]) then 1 + Trail(s[..|s| - 1]) else 0
  }

  /** `s.trim()`: the longest middle part of `s` without whitespace at its ends. */
  function Trim(s: string): (r: string)
    ensures Trimmed(r)
    ensures Lead(s) + |r| <= |s| && r == s[Lead(s)..Lead(s) + |r|]
    ensures forall i :: Lead(s) + |r| <= i < |s| ==> IsSpace(s[i])
    ensures Trimmed(s) ==> r == s
    ensures r == [] <==> forall i :: 0 <= i < |s| ==> IsSpace(s[i])
  {
    var lo := Lead(s);
    var t := s[lo..];
    var n := |t| - Trail(t);
    assert Trimmed(s) ==> lo == 0 && Trail(t) == 0;
    assert forall i :: lo + n <= i < |s| ==> s[i] == t[i - lo];
    t[..n]
  }

  /** Trimming twice is trimming once. */
  lemma TrimIdempotent(s: string)
    ensures Trim(Trim(s)) == Trim(s)
  {
  }

  /** `s.replace(/pat/g, '')`: scanning left to right, every non-overlapping
      occurrence of `pat` is deleted; the text left behind is not rescanned. */
  function RemoveAll(s: string, pat: string): string
    requires |pat| > 0
    decreases |s|
  {
    if |s| < |pat| then s
    else if s[..|pat|] == pat then RemoveAll(s[|pat|..], pat)
    else [s[0]] + RemoveAll(s[1..], pat)
  }

  /** `pat` occurs in `s` starting at position `i`. */
  predicate OccursAt(s: string, pat: string, i: int) {
    0 <= i && i + |pat| <= |s| && s[i..i + |pat|] == pat
  }

  /** `pat` occurs nowhere in `s`. */
  predicate Absent(s: string, pat: string) {
    forall i :: 0 <= i <= |s| ==> !OccursAt(s, pat, i)
  }

  /** Deleting a pattern that does not occur changes nothing. */
  lemma {:induction false} RemoveAllAbsent(s: string, pat: string)
    requires |pat| > 0 && Absent(s, pat)
    ensures RemoveAll(s, pat) == s
    decreases |s|
  {
    if |s| >= |pat| {
      assert !OccursAt(s, pat, 0);
      assert s[..|pat|] != pat;
      assert Absent(s[1..], pat) by {
        forall i | 0 <= i <= |s[1..]|
          ensures !OccursAt(s[1..], pat, i)
        {
          assert !OccursAt(s, pat, i + 1);
          if i + |pat| <= |s[1..]| {
            assert s[1..][i..i + |pat|] == s[i + 1..i + 1 + |pat|];
          }
        }
      }
      RemoveAllAbsent(s[1..], pat);
    }
  }

  /** The three-backtick markdown fence. */
  const Fence := "```"

  /** Three backticks start at position `i`. */
  predicate FenceAt(s: string, i: int) {
    0 <= i && i + 3 <= |s| && s[i] == '`' && s[i + 1] == '`' && s[i + 2] == '`'
  }

  /** No run of three backticks anywhere in `s`. */
  predicate NoFence(s: string) {
    forall i :: 0 <= i < |s| ==> !FenceAt(s, i)
  }

  lemma NoFenceIsAbsent(s: string)
    requires NoFence(s)
    ensures Absent(s, Fence)
  {
    forall i | 0 <= i <= |s|
      ensures !OccursAt(s, Fence, i)
    {
      if i < |s| {
        assert !FenceAt(s, i);
      }
    }
  }

  /** A character other than a backtick at the head survives the fence removal. */
  lemma HeadKept(s: string)
    requires |s| > 0 && s[0] != '`'
    ensures RemoveAll(s, Fence) == [s[0]] + RemoveAll(s[1..], Fence)
  {
    if |s| >= 3 {
      assert s[..3][0] != Fence[0];
    }
  }

  /** After the fence removal no three backticks remain: inside each run of
      backticks the scan deletes whole triples, leaving at most two, and a
      character that is not a backtick still closes the run. */
  lemma {:induction false} RemoveFenceLeavesNone(s: string)
    ensures NoFence(RemoveAll(s, Fence))
    decreases |s|
  {
    var r := RemoveAll(s, Fence);
    if |s| < 3 {
      assert r == s;
      assert forall i :: 0 <= i < |r| ==> !FenceAt(r, i);
    } else if s[..3] == Fence {
      RemoveFenceLeavesNone(s[3..]);
    } else {
      var t := s[1..];
      RemoveFenceLeavesNone(t);
      var rt := RemoveAll(t, Fence);
      assert r == [s[0]] + rt;
      // the first character cannot open a run of three
      assert !FenceAt(r, 0) by {
        if s[0] == '`' && |rt| >= 2 {
          if t[0] != '`' {
            HeadKept(t);
          } else {
            assert s[2] != '`' by { assert s[..3] != Fence; }
            if |t| >= 3 {
              assert t[..3] != Fence by { assert t[1] == s[2]; }
              assert rt == [t[0]] + RemoveAll(t[1..], Fence);
              HeadKept(t[1..]);
            } else {
              assert rt == t;
            }
          }
        }
      }
      forall i | 1 <= i < |r|
        ensures !FenceAt(r, i)
      {
        assert !FenceAt(rt, i - 1);
      }
    }
  }

  /** A run of three backticks inside a trimmed string would be one in the
      original: trimming only cuts off the ends. */
  lemma TrimKeepsNoFence(s: string)
    requires NoFence(s)
    ensures NoFence(Trim(s))
  {
    var r := Trim(s);
    var lo := Lead(s);
    forall i | 0 <= i < |r|
      ensures !FenceAt(r, i)
    {
      assert !FenceAt(s, lo + i);
      if i + 3 <= |r| {
        assert r[i] == s[lo + i] && r[i + 1] == s[lo + i + 1] && r[i + 2] == s[lo + i + 2];
      }
    }
  }

  /** `s.startsWith(prefix)`. */
  predicate StartsWith(s: string, prefix: string) {
    |prefix| <= |s| && s[..|prefix|] == prefix
  }
}
