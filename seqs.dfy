/** Sequences of windows: concatenation in window order, and Python's
    clamping slice `s[start:stop]` with the back-to-back slicing built on it. */
module Seqs {

  import opened Common

  /** The windows joined in order (numpy.concatenate / list concatenation). */
  function Concat<T>(ws: seq<seq<T>>): seq<T>
  {
    if ws == [] then [] else ws[0] + Concat(ws[1..])
  }

  /** The sum of the window lengths. */
  function TotalLength<T>(ws: seq<seq<T>>): nat
  {
    if ws == [] then 0 else |ws[0]| + TotalLength(ws[1..])
  }

  lemma {:induction false} ConcatLength<T>(ws: seq<seq<T>>)
    ensures |Concat(ws)| == TotalLength(ws)
  {
    if ws != [] {
      ConcatLength(ws[1..]);
    }
  }

  /** Appending one more window appends its entries. */
  lemma {:induction false} ConcatSnoc<T>(ws: seq<seq<T>>, w: seq<T>)
    ensures Concat(ws + [w]) == Concat(ws) + w
    ensures TotalLength(ws + [w]) == TotalLength(ws) + |w|
  {
    if ws == [] {
      assert ws + [w] == [w];
    } else {
      assert (ws + [w])[1..] == ws[1..] + [w];
      ConcatSnoc(ws[1..], w);
    }
  }

  /** Entry `i` of window `j` sits at offset `TotalLength(ws[..j]) + i` of the
      concatenation. */
  lemma {:induction false} ConcatAt<T>(ws: seq<seq<T>>, j: nat, i: nat)
    requires j < |ws| && i < |ws[j]|
    ensures TotalLength(ws[..j]) + i < |Concat(ws)|
    ensures Concat(ws)[TotalLength(ws[..j]) + i] == ws[j][i]
  {
    ConcatLength(ws);
    if j == 0 {
      assert ws[..0] == [];
    } else {
      assert ws[..j][1..] == ws[1..][..j - 1];
      ConcatAt(ws[1..], j - 1, i);
      ConcatLength(ws[1..]);
    }
  }

  /** A Python index bound clamped to a list of length `n`: negative bounds
      count from the end, bounds past either end stop at it. */
  function Clamp(i: int, n: nat): (c: nat)
    ensures c <= n
    ensures 0 <= i ==> c == if i <= n then i else n
  {
    if i < 0 then (if i + n < 0 then 0 else i + n)
    else if i <= n then i else n
  }

  /** Python's `s[start:stop]` for integer bounds: never fails, empty when the
      clamped bounds cross. */
  function PySlice<T>(s: seq<T>, start: int, stop: int): (r: seq<T>)
    ensures |r| <= |s|
    ensures 0 <= start <= stop <= |s| ==> r == s[start..stop]
    ensures forall i :: 0 <= i < |r| ==> Clamp(start, |s|) + i < |s| && r[i] == s[Clamp(start, |s|) + i]
  {
    var a, b := Clamp(start, |s|), Clamp(stop, |s|);
    if a <= b then s[a..b] else []
  }

  /** Python's `s[start:stop]` where `stop` may be None (slice to the end). */
  function PySliceTo<T>(s: seq<T>, start: int, stop: Option<int>): (r: seq<T>)
    ensures stop.None? && 0 <= start <= |s| ==> r == s[start..]
    ensures stop.Some? && 0 <= start <= stop.value <= |s| ==> r == s[start..stop.value]
  {
    match stop
    case None => PySlice(s, start, |s|)
    case Some(e) => PySlice(s, start, e)
  }

  /** A slice with non-negative bounds is the stretch between the bounds,
      each cut back to the length of the list. */
  lemma SliceNonNegative<T>(s: seq<T>, x: int, y: int)
    requires 0 <= x <= y
    ensures |PySlice(s, x, y)| == Min(y, |s|) - Min(x, |s|)
    ensures PySlice(s, x, y) == s[Min(x, |s|)..Min(y, |s|)]
  {
  }

  function Min(a: int, b: int): int
  {
    if a <= b then a else b
  }

  /** Two back-to-back slices join into the slice over both. */
  lemma SliceAdjacent<T>(s: seq<T>, x: int, y: int, z: int)
    requires 0 <= x <= y <= z
    ensures PySlice(s, x, y) + PySlice(s, y, z) == PySlice(s, x, z)
  {
    SliceNonNegative(s, x, y);
    SliceNonNegative(s, y, z);
    SliceNonNegative(s, x, z);
    var a, b, c := Min(x, |s|), Min(y, |s|), Min(z, |s|);
    assert s[a..b] + s[b..c] == s[a..c];
  }

  /** Bounds that never go down: window `j` is `[b[j], b[j+1])`. */
  predicate Ascending(b: seq<int>)
  {
    forall i, j :: 0 <= i < j < |b| ==> b[i] <= b[j]
  }

  /** The slices of `s` between consecutive bounds, in order. */
  function Slices<T>(s: seq<T>, b: seq<int>): (r: seq<seq<T>>)
    ensures |r| == if |b| == 0 then 0 else |b| - 1
  {
    if |b| < 2 then [] else [PySlice(s, b[0], b[1])] + Slices(s, b[1..])
  }

  /** Back-to-back windows cover exactly the slice from the first bound to the
      last: nothing is skipped or repeated. */
  lemma {:induction false} ConcatSlices<T>(s: seq<T>, b: seq<int>)
    requires |b| >= 1 && 0 <= b[0] && Ascending(b)
    ensures Concat(Slices(s, b)) == PySlice(s, b[0], b[|b| - 1])
  {
    if |b| == 1 {
      SliceNonNegative(s, b[0], b[0]);
    } else {
      ConcatSlices(s, b[1..]);
      SliceAdjacent(s, b[0], b[1], b[|b| - 1]);
    }
  }

  /** Slice `i` lies between bounds `i` and `i + 1`. */
  lemma {:induction false} SlicesAt<T>(s: seq<T>, b: seq<int>, i: nat)
    requires i + 1 < |b|
    ensures Slices(s, b)[i] == PySlice(s, b[i], b[i + 1])
  {
    if i > 0 {
      SlicesAt(s, b[1..], i - 1);
    }
  }

  /** Entry `i` of the slice `s[a..b]` is entry `a + i` of `s`. */
  lemma SliceIndex<T>(s: seq<T>, a: nat, b: nat, i: nat)
    requires a <= b <= |s| && i < b - a
    ensures s[a..b][i] == s[a + i]
  {
  }

  /** A stretch within a prefix is the same stretch of the whole. */
  lemma PrefixSlice<T>(p: seq<T>, s: seq<T>, a: nat, b: nat)
    requires p <= s && a <= b <= |p|
    ensures s[a..b] == p[a..b]
  {
  }
}
