/** The string operations the pages apply to URLs and texts:
    `indexOf`/`includes`, `replace` with a string pattern (first
    occurrence only), and `split` on one character. */
module Text {
  import opened Values

  /** `pat` occurs in `s` starting at index `i`. */
  predicate OccursAt(s: string, pat: string, i: int) {
    0 <= i && i + |pat| <= |s| && s[i..i + |pat|] == pat
  }

  /** `s.indexOf(pat)`, with None for -1. */
  function IndexOf(s: string, pat: string): (r: Option<nat>)
    ensures r.Some? ==> OccursAt(s, pat, r.value)
    decreases |s|
  {
    if |pat| > |s| then None
    else if s[..|pat|] == pat then Some(0)
    else match IndexOf(s[1..], pat)
      case None => None
      case Some(i) => Some(i + 1)
  }

  /** IndexOf finds the leftmost occurrence, and finds one whenever there is one. */
  lemma {:induction false} IndexOfLeftmost(s: string, pat: string)
    ensures IndexOf(s, pat).None? <==> forall i :: 0 <= i <= |s| ==> !OccursAt(s, pat, i)
    ensures IndexOf(s, pat).Some? ==> forall i :: 0 <= i < IndexOf(s, pat).value ==> !OccursAt(s, pat, i)
    decreases |s|
  {
    if |pat| > |s| {
    } else if s[..|pat|] == pat {
      assert OccursAt(s, pat, 0);
    } else {
      IndexOfLeftmost(s[1..], pat);
      assert !OccursAt(s, pat, 0);
      forall i | 1 <= i <= |s| && OccursAt(s, pat, i) ensures OccursAt(s[1..], pat, i - 1) {
        DropOneSlice(s, i - 1, |pat|);
      }
      forall i | 0 <= i < |s| && OccursAt(s[1..], pat, i) ensures OccursAt(s, pat, i + 1) {
        DropOneSlice(s, i, |pat|);
      }
    }
  }

  /** A slice of `s[1..]` is the slice of `s` one position further. */
  lemma DropOneSlice(s: string, i: nat, n: nat)
    requires 1 <= |s| && i + n <= |s| - 1
    ensures s[1..][i..i + n] == s[i + 1..i + 1 + n]
  {
    var a, b := s[1..][i..i + n], s[i + 1..i + 1 + n];
    forall k | 0 <= k < n ensures a[k] == b[k] {
      assert a[k] == s[1..][i + k] == s[i + 1 + k];
    }
  }

  /** `s.includes(pat)`. */
  predicate Contains(s: string, pat: string) {
    IndexOf(s, pat).Some?
  }

  /** `s.replace(pat, rep)` for a string `pat`: only the first occurrence is replaced. */
  function ReplaceFirst(s: string, pat: string, rep: string): (r: string)
    ensures IndexOf(s, pat).None? ==> r == s
    ensures IndexOf(s, pat).Some? ==>
      var i := IndexOf(s, pat).value;
      r == s[..i] + rep + s[i + |pat|..]
  {
    match IndexOf(s, pat)
    case None => s
    case Some(i) => s[..i] + rep + s[i + |pat|..]
  }

  /** `s.split(c)[0]`: everything before the first `c`, or all of `s`. */
  function BeforeFirst(s: string, c: char): (r: string)
    ensures c !in r
    ensures r <= s
    ensures c !in s ==> r == s
    ensures |r| < |s| ==> s[|r|] == c
  {
    if s == [] || s[0] == c then []
    else [s[0]] + BeforeFirst(s[1..], c)
  }

  /** A prefix free of `c` survives the cut whole. */
  lemma {:induction false} BeforeFirstAppend(a: string, b: string, c: char)
    requires c !in a
    ensures BeforeFirst(a + b, c) == a + BeforeFirst(b, c)
  {
    if a != [] {
      assert (a + b)[1..] == a[1..] + b;
      BeforeFirstAppend(a[1..], b, c);
      assert a == [a[0]] + a[1..];
    } else {
      assert a + b == b;
    }
  }

  /** The number of occurrences of `c` in `s`. */
  function CountChar(s: string, c: char): nat {
    if s == [] then 0 else (if s[0] == c then 1 else 0) + CountChar(s[1..], c)
  }

  lemma {:induction false} CountCharAppend(a: string, b: string, c: char)
    ensures CountChar(a + b, c) == CountChar(a, c) + CountChar(b, c)
  {
    if a != [] {
      assert (a + b)[1..] == a[1..] + b;
      CountCharAppend(a[1..], b, c);
    } else {
      assert a + b == b;
    }
  }

  lemma {:induction false} CountCharAbsent(s: string, c: char)
    requires c !in s
    ensures CountChar(s, c) == 0
  {
    if s != [] { CountCharAbsent(s[1..], c); }
  }

  /** `s.split(c)` for a one-character separator: the pieces between the
      occurrences of `c`; the empty string splits into one empty piece. */
  function Split(s: string, c: char): (pieces: seq<string>)
    ensures |pieces| >= 1
    ensures forall k :: 0 <= k < |pieces| ==> c !in pieces[k]
    decreases |s|
  {
    var i := BeforeFirst(s, c);
    if |i| == |s| then [s]
    else [i] + Split(s[|i| + 1..], c)
  }

  /** `pieces.join(c)`. */
  function Join(pieces: seq<string>, c: char): string
    requires |pieces| >= 1
  {
    if |pieces| == 1 then pieces[0] else pieces[0] + [c] + Join(pieces[1..], c)
  }

  /** Splitting yields one more piece than there are separators. */
  lemma {:induction false} SplitCount(s: string, c: char)
    ensures |Split(s, c)| == CountChar(s, c) + 1
    decreases |s|
  {
    var i := BeforeFirst(s, c);
    if |i| == |s| {
      assert i == s;
      CountCharAbsent(s, c);
    } else {
      SplitCount(s[|i| + 1..], c);
      assert s == i + [c] + s[|i| + 1..];
      CountCharAppend(i + [c], s[|i| + 1..], c);
      CountCharAppend(i, [c], c);
      CountCharAbsent(i, c);
    }
  }

  /** Joining the pieces with the separator gives back the string. */
  lemma {:induction false} SplitJoin(s: string, c: char)
    ensures Join(Split(s, c), c) == s
    decreases |s|
  {
    var i := BeforeFirst(s, c);
    if |i| == |s| {
      assert i == s;
    } else {
      var rest := Split(s[|i| + 1..], c);
      SplitJoin(s[|i| + 1..], c);
      assert Split(s, c) == [i] + rest;
      assert ([i] + rest)[1..] == rest;
      assert Join([i] + rest, c) == i + [c] + Join(rest, c);
      assert s == i + [c] + s[|i| + 1..];
    }
  }
}
