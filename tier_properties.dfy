/** What reorder_labels promises about the tiers it hands out: one tier per
    entry, the same tier exactly for the same raw id within a window, tiers
    in order of first appearance, each window continuing after the last,
    and a numbering that does not depend on which raw ids the clusterer
    happened to pick. */
module TierProperties {

  import opened Common
  import opened Seqs
  import opened Tiers

  // ---------------------------------------------------------------------
  // Distinct ids in order of first appearance

  /** The distinct ids of a prefix come first among the distinct ids of the
      whole window. */
  lemma {:induction false} FirstSeenPrefix(w: seq<int>, i: nat)
    requires i <= |w|
    ensures FirstSeen(w[..i]) <= FirstSeen(w)
    decreases |w|
  {
    if i == |w| {
      assert w[..i] == w;
    } else {
      var u := w[..|w| - 1];
      assert u[..i] == w[..i];
      FirstSeenPrefix(u, i);
    }
  }

  /** One more entry adds its id at the end, unless the id was seen before. */
  lemma FirstSeenStep(w: seq<int>, i: nat)
    requires i < |w|
    ensures FirstSeen(w[..i + 1]) == if w[i] in w[..i] then FirstSeen(w[..i]) else FirstSeen(w[..i]) + [w[i]]
  {
    assert w[..i + 1][..i] == w[..i];
  }

  /** Looking an id up in a prefix finds the same place as in the whole. */
  lemma IndexOfPrefix(p: seq<int>, d: seq<int>, x: int)
    requires p <= d && x in p
    ensures IndexOf(d, x) == IndexOf(p, x)
  {
    var k := IndexOf(p, x);
    assert d[..k] == p[..k];
  }

  /** An id appended after the others is found at the end. */
  lemma IndexOfAppended(p: seq<int>, x: int)
    requires x !in p
    ensures IndexOf(p + [x], x) == |p|
  {
    assert (p + [x])[..|p|] == p;
  }

  lemma IndexOfDistinct(d: seq<int>, k: nat)
    requires Distinct(d) && k < |d|
    ensures IndexOf(d, d[k]) == k
  {
  }

  // ---------------------------------------------------------------------
  // One window

  /** The tiers of a window are exactly `last + 1` .. `last + d`, where `d`
      is its number of distinct raw ids: none is skipped. */
  lemma WindowTiersRange(w: seq<int>, last: int)
    ensures forall t :: t in WindowTiers(w, last) <==> last < t <= last + |FirstSeen(w)|
  {
    var d := FirstSeen(w);
    var ts := WindowTiers(w, last);
    forall t | t in ts
      ensures last < t <= last + |d|
    {
      var i :| 0 <= i < |ts| && ts[i] == t;
    }
    forall t | last < t <= last + |d|
      ensures t in ts
    {
      var k := t - last - 1;
      assert d[k] in w;
      var i :| 0 <= i < |w| && w[i] == d[k];
      IndexOfDistinct(d, k);
      assert ts[i] == t;
    }
  }

  /** Within one window two entries share a tier exactly when they share a
      raw id. */
  lemma SameTierIffSameId(w: seq<int>, last: int, i: nat, j: nat)
    requires i < |w| && j < |w|
    ensures WindowTiers(w, last)[i] == WindowTiers(w, last)[j] <==> w[i] == w[j]
  {
    var d := FirstSeen(w);
    var a, b := IndexOf(d, w[i]), IndexOf(d, w[j]);
    assert d[a] == w[i] && d[b] == w[j];
  }

  /** An entry's tier can be read off the distinct ids of any prefix that
      holds it. */
  lemma TierInPrefix(w: seq<int>, last: int, n: nat, j: nat)
    requires j < n <= |w|
    ensures w[j] in FirstSeen(w[..n])
    ensures WindowTiers(w, last)[j] == last + 1 + IndexOf(FirstSeen(w[..n]), w[j])
  {
    assert w[..n][j] == w[j];
    FirstSeenPrefix(w, n);
    IndexOfPrefix(FirstSeen(w[..n]), FirstSeen(w), w[j]);
  }

  /** Every tier before entry `i` is at most `last + p`, where `p` counts the
      distinct ids before `i`. */
  lemma EarlierTiersBelow(w: seq<int>, last: int, i: nat)
    requires i <= |w|
    ensures forall j :: 0 <= j < i ==> WindowTiers(w, last)[j] <= last + |FirstSeen(w[..i])|
  {
    forall j | 0 <= j < i
      ensures WindowTiers(w, last)[j] <= last + |FirstSeen(w[..i])|
    {
      TierInPrefix(w, last, i, j);
    }
  }

  /** An id not seen before in the window gets the next tier, `last + p + 1`;
      for `i = 0` that is `last + 1`. */
  lemma NewIdNextTier(w: seq<int>, last: int, i: nat)
    requires i < |w| && w[i] !in w[..i]
    ensures WindowTiers(w, last)[i] == last + |FirstSeen(w[..i])| + 1
  {
    FirstSeenStep(w, i);
    TierInPrefix(w, last, i + 1, i);
    IndexOfAppended(FirstSeen(w[..i]), w[i]);
  }

  /** An id seen before keeps the tier it got then. */
  lemma SeenIdSameTier(w: seq<int>, last: int, i: nat)
    requires i < |w| && w[i] in w[..i]
    ensures exists j :: 0 <= j < i && WindowTiers(w, last)[j] == WindowTiers(w, last)[i]
  {
    var j :| 0 <= j < i && w[..i][j] == w[i];
    SameTierIffSameId(w, last, j, i);
  }

  /** The largest tier before entry `i > 0` is `last + p`: some earlier entry
      has it. */
  lemma LargestEarlierTier(w: seq<int>, last: int, i: nat)
    requires 0 < i <= |w|
    ensures exists j :: 0 <= j < i && WindowTiers(w, last)[j] == last + |FirstSeen(w[..i])|
  {
    var p := FirstSeen(w[..i]);
    assert w[..i][0] == w[0];
    var x := p[|p| - 1];
    assert x in w[..i];
    var j :| 0 <= j < i && w[..i][j] == x;
    TierInPrefix(w, last, i, j);
    IndexOfDistinct(p, |p| - 1);
  }

  /** Tiers follow first appearance: each entry's tier is at most one more
      than the largest tier seen earlier in the window, and exactly one more
      when its id is new. */
  lemma TierFollowsFirstAppearance(w: seq<int>, last: int, i: nat)
    requires i < |w|
    ensures forall j :: 0 <= j < i ==> WindowTiers(w, last)[j] <= last + |FirstSeen(w[..i])|
    ensures 0 < i ==> exists j :: 0 <= j < i && WindowTiers(w, last)[j] == last + |FirstSeen(w[..i])|
    ensures w[i] !in w[..i] ==> WindowTiers(w, last)[i] == last + |FirstSeen(w[..i])| + 1
    ensures w[i] in w[..i] ==> WindowTiers(w, last)[i] <= last + |FirstSeen(w[..i])|
  {
    EarlierTiersBelow(w, last, i);
    if 0 < i {
      LargestEarlierTier(w, last, i);
    }
    if w[i] !in w[..i] {
      NewIdNextTier(w, last, i);
    } else {
      SeenIdSameTier(w, last, i);
    }
  }

  /** Each raw id occupies one unbroken run of the window. */
  predicate RunsContiguous(w: seq<int>)
  {
    forall i, j, k :: 0 <= i < j < k < |w| && w[i] == w[k] ==> w[j] == w[i]
  }

  predicate NonDecreasing(t: seq<int>)
  {
    forall i, j :: 0 <= i <= j < |t| ==> t[i] <= t[j]
  }

  lemma {:induction false} StepsNonDecreasing(t: seq<int>)
    requires forall j :: 0 < j < |t| ==> t[j - 1] <= t[j]
    ensures NonDecreasing(t)
  {
    if |t| > 1 {
      var u := t[..|t| - 1];
      StepsNonDecreasing(u);
      forall i | 0 <= i < |t| - 1
        ensures t[i] <= t[|t| - 1]
      {
        assert u[i] <= u[|u| - 1];
      }
    }
  }

  /** A window's tiers never go down exactly when each raw id forms one run:
      `[0, 1, 0]` gets `[1, 2, 1]`. */
  lemma NonDecreasingIffContiguous(w: seq<int>, last: int)
    ensures NonDecreasing(WindowTiers(w, last)) <==> RunsContiguous(w)
  {
    var t := WindowTiers(w, last);
    if NonDecreasing(t) {
      forall i, j, k | 0 <= i < j < k < |w| && w[i] == w[k]
        ensures w[j] == w[i]
      {
        SameTierIffSameId(w, last, i, k);
        SameTierIffSameId(w, last, i, j);
      }
    }
    if RunsContiguous(w) {
      forall j | 0 < j < |t|
        ensures t[j - 1] <= t[j]
      {
        EarlierTiersBelow(w, last, j);
        if w[j] !in w[..j] {
          NewIdNextTier(w, last, j);
        } else {
          var p :| 0 <= p < j && w[..j][p] == w[j];
          assert w[p] == w[j];
          if p < j - 1 {
            assert w[j - 1] == w[p];
          }
          assert w[j - 1] == w[j];
        }
      }
      StepsNonDecreasing(t);
    }
  }

  /** Two windows whose entries are equal at the same places, whatever the
      raw ids themselves are. */
  predicate SamePattern(w: seq<int>, v: seq<int>)
  {
    |w| == |v| &&
    forall i, j :: 0 <= i < |w| && 0 <= j < |w| ==> (w[i] == w[j] <==> v[i] == v[j])
  }

  /** Under the same pattern an entry repeats an earlier id in one window
      exactly when it does in the other. */
  lemma NewnessSame(w: seq<int>, v: seq<int>, i: nat)
    requires SamePattern(w, v) && i < |w|
    ensures w[i] in w[..i] <==> v[i] in v[..i]
  {
    if w[i] in w[..i] {
      var p :| 0 <= p < i && w[..i][p] == w[i];
      assert v[..i][p] == v[i];
    }
    if v[i] in v[..i] {
      var p :| 0 <= p < i && v[..i][p] == v[i];
      assert w[..i][p] == w[i];
    }
  }

  /** Under the same pattern, every prefix has as many distinct ids. */
  lemma {:induction false} RenamingCount(w: seq<int>, v: seq<int>, n: nat)
    requires SamePattern(w, v) && n <= |w|
    ensures |FirstSeen(w[..n])| == |FirstSeen(v[..n])|
  {
    if n == 0 {
      assert w[..0] == [] && v[..0] == [];
    } else {
      RenamingCount(w, v, n - 1);
      NewnessSame(w, v, n - 1);
      FirstSeenStep(w, n - 1);
      FirstSeenStep(v, n - 1);
    }
  }

  /** Under the same pattern, entry `j` gets the same tier: both get the tier
      the first occurrence of their id got, which is one past the distinct
      ids before it. */
  lemma RenamingTierAt(w: seq<int>, v: seq<int>, last: int, j: nat)
    requires SamePattern(w, v) && j < |w|
    ensures WindowTiers(w, last)[j] == WindowTiers(v, last)[j]
  {
    var p := IndexOf(w, w[j]);
    NewnessSame(w, v, p);
    RenamingCount(w, v, p);
    NewIdNextTier(w, last, p);
    NewIdNextTier(v, last, p);
    SameTierIffSameId(w, last, p, j);
    SameTierIffSameId(v, last, p, j);
  }

  /** The tiers of a window depend only on which entries share a raw id, not
      on the ids: relabelling the clusters changes nothing. */
  lemma RenamingInvariant(w: seq<int>, v: seq<int>, last: int)
    requires SamePattern(w, v)
    ensures WindowTiers(w, last) == WindowTiers(v, last)
    ensures |FirstSeen(w)| == |FirstSeen(v)|
  {
    forall j | 0 <= j < |w|
      ensures WindowTiers(w, last)[j] == WindowTiers(v, last)[j]
    {
      RenamingTierAt(w, v, last, j);
    }
    RenamingCount(w, v, |w|);
    assert w[..|w|] == w && v[..|v|] == v;
  }

  // ---------------------------------------------------------------------
  // All windows

  /** The counter after the windows is the sum of their distinct-id counts. */
  lemma {:induction false} StitchLast(ws: seq<seq<int>>)
    ensures Stitch(ws).last == DistinctTotal(ws)
  {
    if ws != [] {
      var u := ws[..|ws| - 1];
      StitchLast(u);
      DistinctTotalSnoc(u, ws[|ws| - 1]);
      assert u + [ws[|ws| - 1]] == ws;
    }
  }

  lemma {:induction false} DistinctTotalSnoc(ws: seq<seq<int>>, w: seq<int>)
    ensures DistinctTotal(ws + [w]) == DistinctTotal(ws) + |FirstSeen(w)|
  {
    if ws == [] {
      assert ws + [w] == [w];
    } else {
      assert (ws + [w])[1..] == ws[1..] + [w];
      DistinctTotalSnoc(ws[1..], w);
    }
  }

  /** The numbering of the first windows is the start of the numbering of
      all of them, and the counter only grows. */
  lemma {:induction false} StitchPrefix(ws: seq<seq<int>>, j: nat)
    requires j <= |ws|
    ensures Stitch(ws[..j]).tiers <= Stitch(ws).tiers
    ensures Stitch(ws[..j]).last <= Stitch(ws).last
    decreases |ws|
  {
    if j == |ws| {
      assert ws[..j] == ws;
    } else {
      var u := ws[..|ws| - 1];
      assert u[..j] == ws[..j];
      StitchPrefix(u, j);
    }
  }

  /** Window `j`'s stretch of the output is its window numbering, started
      after the tiers of the windows before it. */
  lemma StitchBlock(ws: seq<seq<int>>, j: nat)
    requires j < |ws|
    ensures TotalLength(ws[..j]) + |ws[j]| <= |Stitch(ws).tiers|
    ensures Stitch(ws).tiers[TotalLength(ws[..j])..TotalLength(ws[..j]) + |ws[j]|]
            == WindowTiers(ws[j], Stitch(ws[..j]).last)
    ensures Stitch(ws[..j + 1]).last == Stitch(ws[..j]).last + |FirstSeen(ws[j])|
  {
    var pre, next, all := Stitch(ws[..j]), Stitch(ws[..j + 1]), Stitch(ws).tiers;
    var wt := WindowTiers(ws[j], pre.last);
    var o := TotalLength(ws[..j]);
    StitchPrefix(ws, j + 1);
    StitchStep(ws, j);
    assert next.tiers == pre.tiers + wt && |pre.tiers| == o;
    PrefixSlice(next.tiers, all, o, o + |ws[j]|);
    assert next.tiers[o..o + |ws[j]|] == wt;
  }

  /** Output entry `p` is the tier of entry `p` of the concatenated windows:
      for entry `i` of window `j`, both sit at `TotalLength(ws[..j]) + i`. */
  lemma StitchAt(ws: seq<seq<int>>, j: nat, i: nat)
    requires j < |ws| && i < |ws[j]|
    ensures |Stitch(ws).tiers| == |Concat(ws)|
    ensures TotalLength(ws[..j]) + i < |Concat(ws)|
    ensures Concat(ws)[TotalLength(ws[..j]) + i] == ws[j][i]
    ensures Stitch(ws).tiers[TotalLength(ws[..j]) + i] == WindowTiers(ws[j], Stitch(ws[..j]).last)[i]
  {
    ConcatLength(ws);
    ConcatAt(ws, j, i);
    StitchBlock(ws, j);
    var all, o := Stitch(ws).tiers, TotalLength(ws[..j]);
    SliceIndex(all, o, o + |ws[j]|, i);
  }

  /** Window `j`'s stretch of the output. */
  function WindowBlock(ws: seq<seq<int>>, j: nat): seq<int>
    requires j < |ws|
  {
    StitchBlock(ws, j);
    Stitch(ws).tiers[TotalLength(ws[..j])..TotalLength(ws[..j]) + |ws[j]|]
  }

  /** The first window's tiers are exactly 1 .. d1; every later window's are
      exactly last+1 .. last+d, where last is the counter the windows before
      it left and d its number of distinct raw ids. */
  lemma WindowGetsNextTiers(ws: seq<seq<int>>, j: nat)
    requires j < |ws|
    ensures j == 0 ==> Stitch(ws[..j]).last == 0
    ensures forall t :: t in WindowBlock(ws, j)
                        <==> Stitch(ws[..j]).last < t <= Stitch(ws[..j]).last + |FirstSeen(ws[j])|
  {
    var last := Stitch(ws[..j]).last;
    StitchBlock(ws, j);
    assert WindowBlock(ws, j) == WindowTiers(ws[j], last);
    WindowTiersRange(ws[j], last);
    if j == 0 {
      assert ws[..j] == [];
    }
  }

  /** Every tier of a later window is above every tier of an earlier one. */
  lemma LaterWindowsHigher(ws: seq<seq<int>>, j1: nat, i1: nat, j2: nat, i2: nat)
    requires j1 < j2 < |ws| && i1 < |ws[j1]| && i2 < |ws[j2]|
    ensures TotalLength(ws[..j1]) + i1 < |Stitch(ws).tiers| && TotalLength(ws[..j2]) + i2 < |Stitch(ws).tiers|
    ensures Stitch(ws).tiers[TotalLength(ws[..j1]) + i1] < Stitch(ws).tiers[TotalLength(ws[..j2]) + i2]
  {
    var last1, last2 := Stitch(ws[..j1]).last, Stitch(ws[..j2]).last;
    var t1, t2 := WindowTiers(ws[j1], last1), WindowTiers(ws[j2], last2);
    StitchAt(ws, j1, i1);
    StitchAt(ws, j2, i2);
    WindowTiersRange(ws[j1], last1);
    WindowTiersRange(ws[j2], last2);
    assert t1[i1] in t1 && t2[i2] in t2;
    StitchStep(ws, j1);
    var u := ws[..j2];
    assert u[..j1 + 1] == ws[..j1 + 1];
    StitchPrefix(u, j1 + 1);
    assert last1 + |FirstSeen(ws[j1])| <= last2;
  }

  /** An empty window after the first leaves output and counter as they were. */
  lemma EmptyWindowKeepsCounter(ws: seq<seq<int>>, j: nat)
    requires j < |ws| && ws[j] == []
    ensures Stitch(ws[..j + 1]) == Stitch(ws[..j])
  {
    StitchStep(ws, j);
  }

  /** Renaming the raw ids of every window, each in its own way, leaves the
      whole numbering unchanged. */
  lemma {:induction false} StitchRenamingInvariant(ws: seq<seq<int>>, vs: seq<seq<int>>)
    requires |ws| == |vs| && forall j :: 0 <= j < |ws| ==> SamePattern(ws[j], vs[j])
    ensures Stitch(ws) == Stitch(vs)
  {
    if ws != [] {
      var n := |ws| - 1;
      StitchRenamingInvariant(ws[..n], vs[..n]);
      RenamingInvariant(ws[n], vs[n], Stitch(ws[..n]).last);
    }
  }

  /** The tiers reorder_labels gives each window, window by window. */
  function Blocks(ws: seq<seq<int>>): (bs: seq<seq<int>>)
    ensures |bs| == |ws|
  {
    seq(|ws|, j requires 0 <= j < |ws| => WindowTiers(ws[j], Stitch(ws[..j]).last))
  }

  /** The blocks of the first windows are the first blocks. */
  lemma BlocksPrefix(ws: seq<seq<int>>, n: nat)
    requires n <= |ws|
    ensures Blocks(ws[..n]) == Blocks(ws)[..n]
  {
    forall j | 0 <= j < n
      ensures Blocks(ws[..n])[j] == Blocks(ws)[j]
    {
      assert ws[..n][..j] == ws[..j];
    }
  }

  /** The output is the blocks joined in window order. */
  lemma {:induction false} ConcatBlocks(ws: seq<seq<int>>)
    ensures Concat(Blocks(ws)) == Stitch(ws).tiers
  {
    if ws != [] {
      var n := |ws| - 1;
      var u := ws[..n];
      ConcatBlocks(u);
      BlocksPrefix(ws, n);
      var b := Blocks(ws)[n];
      assert Blocks(ws) == Blocks(u) + [b];
      ConcatSnoc(Blocks(u), b);
      StitchStep(ws, n);
      assert ws[..n + 1] == ws;
      assert Stitch(ws).tiers == Stitch(u).tiers + b;
    }
  }

  /** Running the tier numbering again on its own output, window by window,
      changes nothing. */
  lemma Idempotent(ws: seq<seq<int>>)
    ensures Stitch(Blocks(ws)) == Stitch(ws)
  {
    forall j | 0 <= j < |ws|
      ensures SamePattern(Blocks(ws)[j], ws[j])
    {
      var w := ws[j];
      var last := Stitch(ws[..j]).last;
      forall a, b | 0 <= a < |w| && 0 <= b < |w|
        ensures WindowTiers(w, last)[a] == WindowTiers(w, last)[b] <==> w[a] == w[b]
      {
        SameTierIffSameId(w, last, a, b);
      }
    }
    StitchRenamingInvariant(Blocks(ws), ws);
  }

  /** Every tier handed out is at least 1 and at most the final counter. */
  lemma {:induction false} TiersWithinCounter(ws: seq<seq<int>>)
    ensures 0 <= Stitch(ws).last
    ensures forall i :: 0 <= i < |Stitch(ws).tiers| ==> 1 <= Stitch(ws).tiers[i] <= Stitch(ws).last
  {
    if ws != [] {
      var u, w := ws[..|ws| - 1], ws[|ws| - 1];
      TiersWithinCounter(u);
      var p := Stitch(u);
      WindowTiersRange(w, p.last);
      forall i | 0 <= i < |Stitch(ws).tiers|
        ensures 1 <= Stitch(ws).tiers[i] <= Stitch(ws).last
      {
        if i >= |p.tiers| {
          assert Stitch(ws).tiers[i] in WindowTiers(w, p.last);
        }
      }
    }
  }

  /** Distinct ids drawn from `[0, k)` number at most `k`. */
  lemma {:induction false} DistinctBelow(d: seq<int>, k: nat)
    requires Distinct(d) && forall i :: 0 <= i < |d| ==> 0 <= d[i] < k
    ensures |d| <= k
    decreases k
  {
    assert |d| > 0 ==> 0 <= d[0] < k;
    if k > 0 {
      if p :| 0 <= p < |d| && d[p] == k - 1 {
        var e := d[..p] + d[p + 1..];
        assert forall i :: 0 <= i < |e| ==> e[i] == if i < p then d[i] else d[i + 1];
        DistinctBelow(e, k - 1);
      } else {
        DistinctBelow(d, k - 1);
      }
    }
  }

  /** A window whose raw ids all lie in `[0, k)`, as KMeans with `k`
      clusters gives them, uses at most `k` tiers. */
  lemma FewIdsFewTiers(w: seq<int>, k: nat)
    requires forall i :: 0 <= i < |w| ==> 0 <= w[i] < k
    ensures |FirstSeen(w)| <= k
  {
    var d := FirstSeen(w);
    assert forall i :: 0 <= i < |d| ==> d[i] in w;
    DistinctBelow(d, k);
  }

  // ---------------------------------------------------------------------
  // Worked examples

  /** A single non-empty window is numbered from 1. */
  lemma SingleWindow(w: seq<int>)
    requires w != []
    ensures Reorder([w]) == Success(WindowTiers(w, 0))
  {
    var ws := [w];
    assert |ws[..0]| == 0;
    assert Stitch(ws[..0]) == Numbering([], 0);
    assert Stitch(ws).tiers == Stitch(ws[..0]).tiers + WindowTiers(w, 0);
    assert Stitch(ws).tiers == WindowTiers(w, 0);
  }

  /** Interleaved ids keep one tier each, so tiers go back down. */
  lemma InterleavedExample()
    ensures Reorder([[0, 1, 0]]) == Success([1, 2, 1])
  {
    var w := [0, 1, 0];
    var t := WindowTiers(w, 0);
    assert |w[..0]| == 0;
    NewIdNextTier(w, 0, 0);
    FirstSeenStep(w, 0);
    assert w[..1] == [0];
    NewIdNextTier(w, 0, 1);
    SameTierIffSameId(w, 0, 0, 2);
    assert t == [1, 2, 1];
    SingleWindow(w);
  }

  /** An empty first window leaves `current_label` unbound. */
  lemma EmptyFirstWindowFails(ws: seq<seq<int>>)
    requires |ws| > 0 && ws[0] == []
    ensures Reorder(ws).Failure? && Reorder(ws).error == UnboundCurrentLabel
  {
  }
}
