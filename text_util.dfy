/** String helpers shared by the Python and JavaScript modules: prefix and suffix tests,
    the position of the last separator, `str.replace` and fixed-size slicing. */
module TextUtil {

  predicate StartsWith(s: string, p: string) {
    |p| <= |s| && s[..|p|] == p
  }

  predicate EndsWith(s: string, p: string) {
    |p| <= |s| && s[|s| - |p|..] == p
  }

  /** True when `p` occurs in `s` at position `i`. */
  predicate OccursAt(s: string, p: string, i: int) {
    0 <= i && i + |p| <= |s| && s[i..i + |p|] == p
  }

  predicate Contains(s: string, p: string) {
    exists i :: 0 <= i <= |s| && OccursAt(s, p, i)
  }

  /** The index of the last `c` in `s`, or -1 (Python's `str.rfind` for one character). */
  function LastIndexOf(s: string, c: char): (r: int)
    ensures -1 <= r < |s|
    ensures r >= 0 ==> s[r] == c
    ensures forall j :: r < j < |s| ==> s[j] != c
  {
    if |s| == 0 then -1
    else if s[|s| - 1] == c then |s| - 1
    else LastIndexOf(s[..|s| - 1], c)
  }

  /** What follows the last `c`; the whole string when there is none (`s.split(c)[-1]`). */
  function AfterLast(s: string, c: char): (r: string)
    ensures c !in r
  {
    s[LastIndexOf(s, c) + 1..]
  }

  /** What precedes the last `c`; empty when there is none (`c.join(s.split(c)[:-1])`). */
  function BeforeLast(s: string, c: char): (r: string)
  {
    var i := LastIndexOf(s, c);
    if i < 0 then "" else s[..i]
  }

  lemma SplitAtLast(s: string, c: char)
    requires c in s
    ensures s == BeforeLast(s, c) + [c] + AfterLast(s, c)
  {
    var i := LastIndexOf(s, c);
    assert s == s[..i] + [s[i]] + s[i + 1..];
  }

  /** Python's `s.replace(p, r)`: every non-overlapping occurrence of a non-empty `p`,
      scanned left to right, is replaced by `r`. */
  function ReplaceAll(s: string, p: string, r: string): (t: string)
    requires |p| > 0
    decreases |s|
  {
    if |s| < |p| then s
    else if s[..|p|] == p then r + ReplaceAll(s[|p|..], p, r)
    else [s[0]] + ReplaceAll(s[1..], p, r)
  }

  /** The pieces `s[i:i+n]` for `i` in `range(0, len(s), n)`. */
  function Slices(s: string, n: nat): (pieces: seq<string>)
    requires n > 0
    decreases |s|
  {
    if |s| == 0 then []
    else if |s| <= n then [s]
    else [s[..n]] + Slices(s[n..], n)
  }

  function Concat(pieces: seq<string>): string {
    if pieces == [] then "" else pieces[0] + Concat(pieces[1..])
  }

  /** The slices put back together give the text. */
  lemma {:induction false} SlicesConcat(s: string, n: nat)
    requires n > 0
    ensures Concat(Slices(s, n)) == s
    decreases |s|
  {
    if |s| > n {
      SlicesConcat(s[n..], n);
      assert s == s[..n] + s[n..];
    }
  }

  /** Every slice is non-empty and at most `n` long, all but the last are exactly `n`,
      and there are ceil(|s| / n) of them. */
  lemma {:induction false} SlicesShape(s: string, n: nat)
    requires n > 0
    ensures var ps := Slices(s, n);
      && (forall k :: 0 <= k < |ps| ==> 0 < |ps[k]| <= n)
      && (forall k :: 0 <= k < |ps| - 1 ==> |ps[k]| == n)
      && (|s| == 0 <==> |ps| == 0)
      && (|ps| > 0 ==> (|ps| - 1) * n < |s| <= |ps| * n)
    decreases |s|
  {
    if |s| > n {
      SlicesShape(s[n..], n);
      var rest := Slices(s[n..], n);
      assert Slices(s, n) == [s[..n]] + rest;
      assert (|rest| - 1) * n < |s| - n <= |rest| * n;
      assert (|rest| + 1 - 1) * n == |rest| * n;
      assert (|rest| + 1) * n == |rest| * n + n;
    }
  }

  /** Slice `k` is `s[k*n .. min((k+1)*n, |s|)]`, the index form the loop computes. */
  lemma {:induction false} SliceAt(s: string, n: nat, k: nat)
    requires n > 0
    requires k < |Slices(s, n)|
    ensures k * n < |s|
    ensures Slices(s, n)[k] == s[k * n .. if (k + 1) * n <= |s| then (k + 1) * n else |s|]
    decreases |s|
  {
    if k > 0 {
      assert |s| > n;
      var rest := s[n..];
      assert Slices(s, n) == [s[..n]] + Slices(rest, n);
      SliceAt(rest, n, k - 1);
      assert (k - 1) * n + n == k * n;
      assert k * n + n == (k + 1) * n;
      var hi := if (k + 1) * n <= |s| then (k + 1) * n else |s|;
      assert Slices(rest, n)[k - 1] == rest[(k - 1) * n .. hi - n];
      assert rest[(k - 1) * n .. hi - n] == s[k * n .. hi];
    }
  }
}
