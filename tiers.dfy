/** reorder_labels: the raw cluster ids of each window become tier numbers.
    Within a window the distinct ids, in order of first appearance, get
    consecutive tiers; each window continues from the last tier of the
    windows before it. */
module Tiers {

  import opened Common
  import opened Seqs

  /** No id occurs twice. */
  predicate Distinct(d: seq<int>)
  {
    forall i, j :: 0 <= i < j < |d| ==> d[i] != d[j]
  }

  /** The distinct ids of `w` in order of first appearance: the keys
      `OrderedDict.fromkeys(w)` keeps. */
  function FirstSeen(w: seq<int>): (d: seq<int>)
    ensures Distinct(d)
    ensures forall x :: x in d <==> x in w
  {
    if w == [] then []
    else
      var p := FirstSeen(w[..|w| - 1]);
      assert w == w[..|w| - 1] + [w[|w| - 1]];
      if w[|w| - 1] in p then p else p + [w[|w| - 1]]
  }

  /** Where `x` first occurs in `d`. */
  function IndexOf(d: seq<int>, x: int): (i: nat)
    requires x in d
    ensures i < |d| && d[i] == x
    ensures x !in d[..i]
  {
    if d[0] == x then 0 else 1 + IndexOf(d[1..], x)
  }

  /** The tier of every entry of one window when the windows before it used
      tiers up to `last`: the id's place among the window's distinct ids,
      counted from `last + 1`. */
  function WindowTiers(w: seq<int>, last: int): (t: seq<int>)
    ensures |t| == |w|
    ensures forall i :: 0 <= i < |w| ==> last < t[i] <= last + |FirstSeen(w)|
  {
    var d := FirstSeen(w);
    seq(|w|, i requires 0 <= i < |w| => last + 1 + IndexOf(d, w[i]))
  }

  /** The tiers of all windows so far, and the counter (`starting_label`)
      holding the last tier used. */
  datatype Numbering = Numbering(tiers: seq<int>, last: int)

  /** The windows numbered one after the other, as reorder_labels walks them. */
  function Stitch(ws: seq<seq<int>>): (n: Numbering)
    ensures |n.tiers| == TotalLength(ws)
    ensures 0 <= n.last
  {
    if ws == [] then Numbering([], 0)
    else
      var p := Stitch(ws[..|ws| - 1]);
      var w := ws[|ws| - 1];
      ConcatSnoc(ws[..|ws| - 1], w);
      assert ws[..|ws| - 1] + [w] == ws;
      Numbering(p.tiers + WindowTiers(w, p.last), p.last + |FirstSeen(w)|)
  }

  /** What reorder_labels returns: an empty first window reads
      `current_label` before anything assigned it. */
  function Reorder(ws: seq<seq<int>>): (r: Result<seq<int>>)
    ensures r.Failure? <==> |ws| > 0 && ws[0] == []
    ensures r.Failure? ==> r.error == UnboundCurrentLabel
    ensures r.Success? ==> r.value == Stitch(ws).tiers
  {
    if |ws| > 0 && ws[0] == [] then Failure(UnboundCurrentLabel)
    else Success(Stitch(ws).tiers)
  }

  /** The number of distinct ids of each window, added up. */
  function DistinctTotal(ws: seq<seq<int>>): nat
  {
    if ws == [] then 0 else |FirstSeen(ws[0])| + DistinctTotal(ws[1..])
  }

  /** Numbering one more window: its tiers follow those before it and the
      counter moves on by its number of distinct ids. */
  lemma StitchStep(ws: seq<seq<int>>, k: nat)
    requires k < |ws|
    ensures Stitch(ws[..k + 1]).tiers == Stitch(ws[..k]).tiers + WindowTiers(ws[k], Stitch(ws[..k]).last)
    ensures Stitch(ws[..k + 1]).last == Stitch(ws[..k]).last + |FirstSeen(ws[k])|
  {
    assert ws[..k + 1][..k] == ws[..k];
  }

  /** The dictionary reorder_labels fills for one window: the `i`-th
      distinct id gets tier `startingLabel + i`, and `current_label` ends on
      the last tier handed out (it keeps its old value, possibly unbound, when
      there is none). */
  method NumberDistinct(itemValues: seq<int>, startingLabel: int, currentLabel: Option<int>)
    returns (arrayDictionary: map<int, int>, current: Option<int>)
    requires Distinct(itemValues)
    ensures forall x :: x in arrayDictionary <==> x in itemValues
    ensures forall j :: 0 <= j < |itemValues| ==> itemValues[j] in arrayDictionary && arrayDictionary[itemValues[j]] == startingLabel + j
    ensures current == if itemValues == [] then currentLabel else Some(startingLabel + |itemValues| - 1)
  {
    arrayDictionary := map[];
    current := currentLabel;
    for i := 0 to |itemValues|
      invariant forall x :: x in arrayDictionary <==> x in itemValues[..i]
      invariant forall j :: 0 <= j < i ==> itemValues[j] in arrayDictionary && arrayDictionary[itemValues[j]] == startingLabel + j
      invariant current == if i == 0 then currentLabel else Some(startingLabel + i - 1)
    {
      current := Some(startingLabel + i);
      arrayDictionary := arrayDictionary[itemValues[i] := startingLabel + i];
    }
    assert itemValues[..|itemValues|] == itemValues;
  }

  /** The dictionary's tier for each entry of the window, in order. */
  function LookUp(window: seq<int>, arrayDictionary: map<int, int>): (t: seq<int>)
    requires forall i :: 0 <= i < |window| ==> window[i] in arrayDictionary
  {
    seq(|window|, i requires 0 <= i < |window| => arrayDictionary[window[i]])
  }

  /** The inner loop of reorder_labels: every entry of the window, in order,
      is looked up in the dictionary and appended. */
  method EmitWindow(window: seq<int>, arrayDictionary: map<int, int>, orderedLabels: seq<int>)
    returns (out: seq<int>)
    requires forall i :: 0 <= i < |window| ==> window[i] in arrayDictionary
    ensures out == orderedLabels + LookUp(window, arrayDictionary)
  {
    out := orderedLabels;
    for n := 0 to |window|
      invariant out == orderedLabels + LookUp(window, arrayDictionary)[..n]
    {
      out := out + [arrayDictionary[window[n]]];
    }
    assert LookUp(window, arrayDictionary)[..|window|] == LookUp(window, arrayDictionary);
  }

  /** A dictionary that numbers the distinct ids from `last + 1` on gives
      every entry of the window its tier. */
  lemma DictionaryGivesTiers(window: seq<int>, arrayDictionary: map<int, int>, last: int)
    requires forall j :: 0 <= j < |FirstSeen(window)| ==>
               (FirstSeen(window)[j] in arrayDictionary && arrayDictionary[FirstSeen(window)[j]] == last + 1 + j)
    ensures forall i :: 0 <= i < |window| ==> window[i] in arrayDictionary
    ensures LookUp(window, arrayDictionary) == WindowTiers(window, last)
  {
    var d := FirstSeen(window);
    forall i | 0 <= i < |window|
      ensures window[i] in arrayDictionary && arrayDictionary[window[i]] == WindowTiers(window, last)[i]
    {
      var idx := IndexOf(d, window[i]);
      assert d[idx] == window[i];
    }
  }

  /** reorder_labels itself: the counters carried from window to window and
      the growing output list. */
  method ReorderLabels(unorderedLabels: seq<seq<int>>) returns (r: Result<seq<int>>)
    ensures r == Reorder(unorderedLabels)
  {
    var startingLabel := 0;
    var currentLabel: Option<int> := None;
    var orderedLabels: seq<int> := [];
    for k := 0 to |unorderedLabels|
      invariant k > 0 ==> unorderedLabels[0] != []
      invariant orderedLabels == Stitch(unorderedLabels[..k]).tiers
      invariant startingLabel == Stitch(unorderedLabels[..k]).last
      invariant currentLabel == if k == 0 then None else Some(startingLabel)
    {
      var window := unorderedLabels[k];
      ghost var prev := orderedLabels;
      ghost var tiers := WindowTiers(window, startingLabel);
      ghost var base := startingLabel;
      startingLabel := startingLabel + 1;
      var itemValues := FirstSeen(window);
      var arrayDictionary;
      arrayDictionary, currentLabel := NumberDistinct(itemValues, startingLabel, currentLabel);
      assert window != [] ==> window[0] in itemValues;
      if currentLabel.None? {
        return Failure(UnboundCurrentLabel);
      }
      DictionaryGivesTiers(window, arrayDictionary, base);
      orderedLabels := EmitWindow(window, arrayDictionary, orderedLabels);
      assert orderedLabels == prev + tiers;
      startingLabel := currentLabel.value;
      StitchStep(unorderedLabels, k);
    }
    assert unorderedLabels[..|unorderedLabels|] == unorderedLabels;
    return Success(orderedLabels);
  }
}
