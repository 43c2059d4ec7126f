/**
 * Python list and string semantics that the interpreter relies on:
 * slices with negative and out-of-range bounds (`s[-k:]`, `s[:-k]`,
 * `del s[-k:]`), negative indexing, `reversed`, `str.startswith` and
 * `str.replace`.  Everything here is a pure function on sequences.
 */
module PyList {

  /** The index Python uses for a slice bound `i` on a list of length `n`. */
  function Bound(i: int, n: nat): (b: nat)
    ensures b <= n
    ensures 0 <= i <= n ==> b == i
    ensures i < 0 && -i <= n ==> b == n + i
    ensures (i < 0 && -i > n ==> b == 0) && (i > n ==> b == n)
  {
    if i < 0 then (if n + i < 0 then 0 else n + i) else if i > n then n else i
  }

  /** `s[lo:hi]` */
  function Slice<T>(s: seq<T>, lo: int, hi: int): (r: seq<T>)
    ensures |r| <= |s|
  {
    var a := Bound(lo, |s|);
    var b := Bound(hi, |s|);
    if a <= b then s[a..b] else []
  }

  /** `s[lo:]` */
  function From<T>(s: seq<T>, lo: int): (r: seq<T>)
    ensures r == s[Bound(lo, |s|)..]
  {
    Slice(s, lo, |s|)
  }

  /** `s[:hi]`, which is also what `del s[hi:]` leaves behind. */
  function Upto<T>(s: seq<T>, hi: int): (r: seq<T>)
    ensures r == s[..Bound(hi, |s|)]
  {
    Slice(s, 0, hi)
  }

  /** `s[i]` for a possibly negative `i`; None where Python raises IndexError. */
  function At<T>(s: seq<T>, i: int): (r: Option<T>)
    ensures r.Some? <==> -|s| <= i < |s|
    ensures 0 <= i < |s| ==> r == Some(s[i])
    ensures -|s| <= i < 0 ==> r == Some(s[|s| + i])
  {
    if 0 <= i < |s| then Some(s[i]) else if -|s| <= i < 0 then Some(s[|s| + i]) else None
  }

  /** The position `s[i]` denotes, for an `i` that `At` accepts. */
  function Pos(n: nat, i: int): (p: nat)
    requires -(n as int) <= i < n
    ensures p < n
  {
    if i < 0 then n + i else i
  }

  datatype Option<T> = None | Some(value: T)

  /** `list(reversed(s))` */
  function Reverse<T>(s: seq<T>): (r: seq<T>)
    ensures |r| == |s|
  {
    if s == [] then [] else Reverse(s[1..]) + [s[0]]
  }

  lemma {:induction false} ReverseAt<T>(s: seq<T>, k: nat)
    requires k < |s|
    ensures Reverse(s)[k] == s[|s| - 1 - k]
  {
    if k < |s| - 1 {
      ReverseAt(s[1..], k);
    }
  }

  lemma {:induction false} ReverseIndexwise<T>(s: seq<T>, r: seq<T>)
    requires |r| == |s|
    requires forall k | 0 <= k < |s| :: r[k] == s[|s| - 1 - k]
    ensures r == Reverse(s)
  {
    forall k | 0 <= k < |s| ensures r[k] == Reverse(s)[k] {
      ReverseAt(s, k);
    }
  }

  lemma {:induction false} ReverseReverse<T>(s: seq<T>)
    ensures Reverse(Reverse(s)) == s
  {
    forall k | 0 <= k < |s| ensures Reverse(s)[|s| - 1 - k] == s[k] {
      ReverseAt(s, |s| - 1 - k);
    }
    ReverseIndexwise(Reverse(s), s);
  }

  /** Taking a prefix of a reversed list reverses a suffix of the list. */
  lemma {:induction false} ReversePrefix<T>(s: seq<T>, k: nat)
    requires k <= |s|
    ensures Reverse(s)[..k] == Reverse(s[|s| - k..])
  {
    var t := s[|s| - k..];
    var r := Reverse(s)[..k];
    forall i | 0 <= i < k ensures r[i] == t[|t| - 1 - i] {
      ReverseAt(s, i);
      assert t[|t| - 1 - i] == s[|s| - 1 - i];
    }
    ReverseIndexwise(t, r);
  }

  /** Taking a suffix of a reversed list reverses a prefix of the list. */
  lemma {:induction false} ReverseSuffix<T>(s: seq<T>, k: nat)
    requires k <= |s|
    ensures Reverse(s)[k..] == Reverse(s[..|s| - k])
  {
    var t := s[..|s| - k];
    var r := Reverse(s)[k..];
    forall i | 0 <= i < |t| ensures r[i] == t[|t| - 1 - i] {
      ReverseAt(s, k + i);
      assert t[|t| - 1 - i] == s[|s| - 1 - (k + i)];
    }
    ReverseIndexwise(t, r);
  }

  /** `s[-k:]` is the last `k` items when `1 <= k <= len(s)`. */
  lemma NegativeSuffix<T>(s: seq<T>, k: nat)
    requires 1 <= k <= |s|
    ensures From(s, -(k as int)) == s[|s| - k..]
    ensures Upto(s, -(k as int)) == s[..|s| - k]
  {
  }

  /** `s[-0:]` is the whole list and `del s[-0:]` empties it. */
  lemma NegativeZeroSuffix<T>(s: seq<T>)
    ensures From(s, -0) == s
    ensures Upto(s, -0) == []
  {
  }

  /** Splitting at any bound puts the list back together. */
  lemma UptoFrom<T>(s: seq<T>, i: int)
    ensures Upto(s, i) + From(s, i) == s
  {
  }

  /** `s.startswith(p)` */
  predicate StartsWith(s: string, p: string) {
    |p| <= |s| && s[..|p|] == p
  }

  /** `s.replace(p, q)`: every non-overlapping occurrence, left to right. */
  function ReplaceAll(s: string, p: string, q: string): (r: string)
    requires p != []
    decreases |s|
  {
    if |s| < |p| then s
    else if s[..|p|] == p then q + ReplaceAll(s[|p|..], p, q)
    else [s[0]] + ReplaceAll(s[1..], p, q)
  }

  /** A string that starts with the pattern starts with the replacement afterwards. */
  lemma ReplaceAllHead(s: string, p: string, q: string)
    requires p != [] && StartsWith(s, p)
    ensures StartsWith(ReplaceAll(s, p, q), q)
  {
    var r := ReplaceAll(s[|p|..], p, q);
    assert ReplaceAll(s, p, q) == q + r;
    assert (q + r)[..|q|] == q;
  }
}
