/** The two plotting stages: `plot` cuts a board into windows by the settings
    of its position, and `cluster_and_plot` clusters each window's average
    ranks and joins the labels; on a split board the joined labels are cut
    back into the windows, renumbered by reorder_labels and truncated with the
    board for the draft sheet. */
module Pipeline {

  import opened Common
  import opened Seqs
  import opened Tiers
  import opened Settings
  import opened TierProperties

  /** One row of a ranking board: the five parallel columns of the csv. */
  datatype Record = Record(rank: int, name: string, position: string, averageRank: real, stdDev: real)

  /** `KMeans(n_clusters=k).fit(X).labels_` for the column `X` of average
      ranks: one cluster id per row. */
  type Clusterer = (seq<real>, int) -> seq<int>

  /** What KMeans promises when it accepts `k`: one label per row, each one
      of the `k` cluster ids. */
  ghost predicate ClustersWithinK(kmeans: Clusterer)
  {
    forall xs: seq<real>, k: int :: 1 <= k <= |xs| ==>
      |kmeans(xs, k)| == |xs| && forall i :: 0 <= i < |xs| ==> 0 <= kmeans(xs, k)[i] < k
  }

  /** The average-rank column of a window. */
  function AverageRanks(records: seq<Record>): (xs: seq<real>)
    ensures |xs| == |records|
    ensures forall i :: 0 <= i < |records| ==> xs[i] == records[i].averageRank
  {
    seq(|records|, i requires 0 <= i < |records| => records[i].averageRank)
  }

  /** One entry of `plot_list_of_lists`: the rows of a window and the cluster
      count appended after them. */
  datatype Window = Window(records: seq<Record>, k: int)

  /** KMeans accepts every window: at least one cluster and no more clusters
      than rows. */
  predicate AllFit(windows: seq<Window>)
  {
    forall j :: 0 <= j < |windows| ==> 1 <= windows[j].k <= |windows[j].records|
  }

  /** The labels KMeans gives each window. */
  function ClusterEach(windows: seq<Window>, kmeans: Clusterer): (ls: seq<seq<int>>)
    ensures |ls| == |windows|
  {
    seq(|windows|, j requires 0 <= j < |windows| => kmeans(AverageRanks(windows[j].records), windows[j].k))
  }

  /** cluster_and_plot: every window is clustered in order and its labels are
      appended to `labels_copy`, which the first window binds. */
  method ClusterAndPlot(windows: seq<Window>, kmeans: Clusterer) returns (r: Result<seq<int>>)
    ensures r.Success? <==> |windows| > 0 && AllFit(windows)
    ensures r.Failure? ==> r.error == if |windows| == 0 then NoWindows else InvalidClusterCount
    ensures r.Success? ==> r.value == Concat(ClusterEach(windows, kmeans))
  {
    var listCount := 1;
    var labelsCopy: Option<seq<int>> := None;
    for j := 0 to |windows|
      invariant listCount == j + 1
      invariant AllFit(windows[..j])
      invariant labelsCopy == if j == 0 then None else Some(Concat(ClusterEach(windows[..j], kmeans)))
    {
      var w := windows[j];
      if !(1 <= w.k <= |w.records|) {
        return Failure(InvalidClusterCount);
      }
      var labels := kmeans(AverageRanks(w.records), w.k);
      if listCount == 1 {
        assert ClusterEach(windows[..j + 1], kmeans) == [labels];
        assert |[labels][1..]| == 0;
        assert Concat([labels]) == labels;
        labelsCopy := Some(labels);
      } else {
        assert ClusterEach(windows[..j + 1], kmeans) == ClusterEach(windows[..j], kmeans) + [labels];
        ConcatSnoc(ClusterEach(windows[..j], kmeans), labels);
        labelsCopy := Some(labelsCopy.value + labels);
      }
      listCount := listCount + 1;
    }
    assert windows[..|windows|] == windows;
    if labelsCopy.None? {
      return Failure(NoWindows);
    }
    return Success(labelsCopy.value);
  }

  /** Clustering accepted windows yields, in window order, each window's
      labels, and every label is one of that window's `k` cluster ids. */
  lemma ClusteredLabelsInRange(windows: seq<Window>, kmeans: Clusterer, j: nat)
    requires ClustersWithinK(kmeans) && AllFit(windows) && j < |windows|
    ensures |ClusterEach(windows, kmeans)[j]| == |windows[j].records|
    ensures forall i :: 0 <= i < |windows[j].records| ==> 0 <= ClusterEach(windows, kmeans)[j][i] < windows[j].k
  {
    var xs := AverageRanks(windows[j].records);
    assert 1 <= windows[j].k <= |xs|;
    assert ClusterEach(windows, kmeans)[j] == kmeans(xs, windows[j].k);
  }

  /** The bounds `plot` computes from a split entry: `start1 = 0`,
      `stop1 = plot1`, and each later window starts where the one before it
      stops. */
  function WindowBounds(e: Setting): (b: seq<int>)
    requires e.SplitSetting?
    ensures |b| == 4 && b[0] == 0 && b[1] == e.plot1
    ensures b[2] - b[1] == e.plot2 && b[3] - b[2] == e.plot3
  {
    [0, e.plot1, e.plot1 + e.plot2, e.plot1 + e.plot2 + e.plot3]
  }

  /** Three windows are the three slices between four bounds. */
  lemma ThreeSlices<T>(s: seq<T>, b: seq<int>)
    requires |b| == 4
    ensures Slices(s, b) == [PySlice(s, b[0], b[1]), PySlice(s, b[1], b[2]), PySlice(s, b[2], b[3])]
  {
    var b1 := b[1..];
    var b2 := b1[1..];
    assert Slices(s, b2[1..]) == [];
    assert Slices(s, b2) == [PySlice(s, b[2], b[3])];
    assert Slices(s, b1) == [PySlice(s, b[1], b[2]), PySlice(s, b[2], b[3])];
  }

  /** `sub_plot_1..3`: the board cut at the window bounds, each with its
      cluster count. */
  function SplitWindows(board: seq<Record>, e: Setting): (ws: seq<Window>)
    requires e.SplitSetting?
    ensures |ws| == 3
    ensures ws[0] == Window(PySlice(board, 0, e.plot1), e.kVal1)
    ensures ws[1] == Window(PySlice(board, e.plot1, e.plot1 + e.plot2), e.kVal2)
    ensures ws[2] == Window(PySlice(board, e.plot1 + e.plot2, e.plot1 + e.plot2 + e.plot3), e.kVal3)
  {
    var b := WindowBounds(e);
    ThreeSlices(board, b);
    var parts := Slices(board, b);
    [Window(parts[0], e.kVal1), Window(parts[1], e.kVal2), Window(parts[2], e.kVal3)]
  }

  /** `web_list_of_lists`: the rows shown on the sheet and their tiers. */
  datatype DraftSheet = DraftSheet(records: seq<Record>, tiers: seq<int>)

  /** The split-board branch of `plot` for one settings entry: a position
      entry has no window sizes, so `start2 + dict.get('plot2')` fails; else
      the windows are clustered, the labels re-cut at the same bounds,
      renumbered, and rows and tiers truncated to `[start1:stop3]`. */
  function OverallSheet(board: seq<Record>, e: Setting, kmeans: Clusterer): Result<DraftSheet>
  {
    if e.PositionSetting? then Failure(MissingWindowSize)
    else
      var b := WindowBounds(e);
      var ws := SplitWindows(board, e);
      if !AllFit(ws) then Failure(InvalidClusterCount)
      else
        var labels := Concat(ClusterEach(ws, kmeans));
        match Reorder(Slices(labels, b))
        case Failure(err) => Failure(err)
        case Success(ordered) => Success(DraftSheet(PySlice(board, b[0], b[3]), PySlice(ordered, b[0], b[3])))
  }

  /** The split-board branch of `plot` for one settings entry, step by step. */
  method TierSplitBoard(board: seq<Record>, e: Setting, kmeans: Clusterer) returns (r: Result<DraftSheet>)
    ensures r == OverallSheet(board, e, kmeans)
  {
    if e.PositionSetting? {
      return Failure(MissingWindowSize);
    }
    var start1, stop1 := 0, e.plot1;
    var start2 := stop1;
    var stop2 := start2 + e.plot2;
    var start3 := stop2;
    var stop3 := start3 + e.plot3;
    var subPlot1 := Window(PySlice(board, start1, stop1), e.kVal1);
    var subPlot2 := Window(PySlice(board, start2, stop2), e.kVal2);
    var subPlot3 := Window(PySlice(board, start3, stop3), e.kVal3);
    assert [subPlot1, subPlot2, subPlot3] == SplitWindows(board, e);
    var labels :- ClusterAndPlot([subPlot1, subPlot2, subPlot3], kmeans);
    var unorderedLabels := [PySlice(labels, start1, stop1), PySlice(labels, start2, stop2), PySlice(labels, start3, stop3)];
    ghost var b := WindowBounds(e);
    assert b == [start1, stop1, stop2, stop3];
    ThreeSlices(labels, b);
    assert unorderedLabels == Slices(labels, b);
    var orderedLabels :- ReorderLabels(unorderedLabels);
    OverallSheetSplit(board, e, kmeans, labels, orderedLabels);
    return Success(DraftSheet(PySlice(board, start1, stop3), PySlice(orderedLabels, start1, stop3)));
  }

  /** The sheet of a split entry once its windows are clustered and their
      labels renumbered. */
  lemma OverallSheetSplit(board: seq<Record>, e: Setting, kmeans: Clusterer, labels: seq<int>, ordered: seq<int>)
    requires e.SplitSetting? && AllFit(SplitWindows(board, e))
    requires labels == Concat(ClusterEach(SplitWindows(board, e), kmeans))
    requires Reorder(Slices(labels, WindowBounds(e))) == Success(ordered)
    ensures var stop := e.plot1 + e.plot2 + e.plot3;
            OverallSheet(board, e, kmeans) == Success(DraftSheet(PySlice(board, 0, stop), PySlice(ordered, 0, stop)))
  {
  }

  /** The rows of each window. */
  function Rows(windows: seq<Window>): (rs: seq<seq<Record>>)
    ensures |rs| == |windows|
    ensures forall j :: 0 <= j < |windows| ==> rs[j] == windows[j].records
  {
    seq(|windows|, j requires 0 <= j < |windows| => windows[j].records)
  }

  /** With window sizes that are not negative the three windows lie back to
      back: together they are exactly the first `plot1 + plot2 + plot3` rows
      of the board, none skipped and none repeated. */
  lemma SplitWindowsCoverBoard(board: seq<Record>, e: Setting)
    requires e.SplitSetting? && 0 <= e.plot1 && 0 <= e.plot2 && 0 <= e.plot3
    ensures Concat(Rows(SplitWindows(board, e))) == PySlice(board, 0, e.plot1 + e.plot2 + e.plot3)
  {
    var b := WindowBounds(e);
    assert Rows(SplitWindows(board, e)) == Slices(board, b);
    ConcatSlices(board, b);
  }

  /** The windows' row counts when the bounds do not go down: the slice
      bounds cut back to the board's length. */
  lemma SplitWindowSizes(board: seq<Record>, e: Setting)
    requires e.SplitSetting? && 0 <= e.plot1 && 0 <= e.plot2 && 0 <= e.plot3
    ensures var b, ws := WindowBounds(e), SplitWindows(board, e);
            |ws[0].records| == Min(b[1], |board|) &&
            |ws[1].records| == Min(b[2], |board|) - Min(b[1], |board|) &&
            |ws[2].records| == Min(b[3], |board|) - Min(b[2], |board|)
  {
    var b := WindowBounds(e);
    ThreeSlices(board, b);
    SliceNonNegative(board, b[0], b[1]);
    SliceNonNegative(board, b[1], b[2]);
    SliceNonNegative(board, b[2], b[3]);
  }

  /** Three windows of labels joined, one after the other. */
  lemma ConcatThree<T>(ls: seq<seq<T>>)
    requires |ls| == 3
    ensures Concat(ls) == ls[0] + ls[1] + ls[2]
  {
    assert ls[1..][1..][1..] == [];
    assert Concat(ls[1..][1..]) == ls[2];
  }

  /** Cutting the joined labels at the bounds the board was cut at gives
      back, window by window, the labels KMeans gave that window: the labels
      in `unordered_labels` belong to the rows they are shown with. */
  lemma ResliceRecoversWindows(board: seq<Record>, e: Setting, kmeans: Clusterer)
    requires e.SplitSetting? && 0 <= e.plot1 && 0 <= e.plot2 && 0 <= e.plot3
    requires ClustersWithinK(kmeans) && AllFit(SplitWindows(board, e))
    ensures var ls := ClusterEach(SplitWindows(board, e), kmeans);
            Slices(Concat(ls), WindowBounds(e)) == ls
  {
    var b, ws := WindowBounds(e), SplitWindows(board, e);
    var ls := ClusterEach(ws, kmeans);
    var m1, m2, m3 := Min(b[1], |board|), Min(b[2], |board|), Min(b[3], |board|);
    SplitWindowSizes(board, e);
    ClusteredLabelsInRange(ws, kmeans, 0);
    ClusteredLabelsInRange(ws, kmeans, 1);
    ClusteredLabelsInRange(ws, kmeans, 2);
    ConcatThree(ls);
    var labels := Concat(ls);
    assert |labels| == m3;
    ThreeSlices(labels, b);
    SliceNonNegative(labels, b[0], b[1]);
    SliceNonNegative(labels, b[1], b[2]);
    SliceNonNegative(labels, b[2], b[3]);
    assert labels[0..m1] == ls[0];
    assert labels[m1..m2] == ls[1];
    assert labels[m2..m3] == ls[2];
  }

  /** On a split board whose windows KMeans accepts, the draft sheet shows
      the first `plot1 + plot2 + plot3` rows of the board (fewer when the
      board is shorter), each next to its own tier: the tiers are the
      windows' labels numbered one window after the other, and there are as
      many tiers as rows. */
  lemma OverallSheetTiers(board: seq<Record>, e: Setting, kmeans: Clusterer)
    requires e.SplitSetting? && 0 <= e.plot1 && 0 <= e.plot2 && 0 <= e.plot3
    requires ClustersWithinK(kmeans) && AllFit(SplitWindows(board, e))
    ensures var rows, ls := PySlice(board, 0, e.plot1 + e.plot2 + e.plot3), ClusterEach(SplitWindows(board, e), kmeans);
            OverallSheet(board, e, kmeans) == Success(DraftSheet(rows, Stitch(ls).tiers)) &&
            |rows| == |Stitch(ls).tiers|
  {
    var b, ws := WindowBounds(e), SplitWindows(board, e);
    var ls := ClusterEach(ws, kmeans);
    ResliceRecoversWindows(board, e, kmeans);
    ClusteredLabelsInRange(ws, kmeans, 0);
    assert ls[0] != [];
    var tiers := Stitch(ls).tiers;
    assert Reorder(Slices(Concat(ls), b)) == Success(tiers);
    SplitWindowsCoverBoard(board, e);
    ConcatLength(ls);
    ConcatLength(Rows(ws));
    assert TotalLength(Rows(ws)) == TotalLength(ls) by {
      ConcatThree(Rows(ws));
      ConcatThree(ls);
      ClusteredLabelsInRange(ws, kmeans, 1);
      ClusteredLabelsInRange(ws, kmeans, 2);
    }
    var rows := PySlice(board, b[0], b[3]);
    assert |tiers| == |rows|;
    SliceNonNegative(tiers, b[0], b[3]);
    SliceNonNegative(board, b[0], b[3]);
    assert PySlice(tiers, b[0], b[3]) == tiers;
  }

  /** The tiers on a split board's sheet run from 1 to at most
      `k_val_1 + k_val_2 + k_val_3`: each window adds at most as many tiers
      as KMeans was asked for clusters. */
  lemma SheetTiersWithinClusterCounts(board: seq<Record>, e: Setting, kmeans: Clusterer)
    requires e.SplitSetting? && 0 <= e.plot1 && 0 <= e.plot2 && 0 <= e.plot3
    requires ClustersWithinK(kmeans) && AllFit(SplitWindows(board, e))
    ensures OverallSheet(board, e, kmeans).Success?
    ensures var tiers := OverallSheet(board, e, kmeans).value.tiers;
            forall n :: 0 <= n < |tiers| ==> 1 <= tiers[n] <= e.kVal1 + e.kVal2 + e.kVal3
  {
    var ws := SplitWindows(board, e);
    var ls := ClusterEach(ws, kmeans);
    OverallSheetTiers(board, e, kmeans);
    TiersWithinCounter(ls);
    StitchLast(ls);
    ClusteredLabelsInRange(ws, kmeans, 0);
    ClusteredLabelsInRange(ws, kmeans, 1);
    ClusteredLabelsInRange(ws, kmeans, 2);
    FewIdsFewTiers(ls[0], e.kVal1);
    FewIdsFewTiers(ls[1], e.kVal2);
    FewIdsFewTiers(ls[2], e.kVal3);
    assert |ls[1..][1..][1..]| == 0;
    assert DistinctTotal(ls[1..][1..]) == |FirstSeen(ls[2])|;
    assert DistinctTotal(ls[1..]) == |FirstSeen(ls[1])| + |FirstSeen(ls[2])|;
    assert DistinctTotal(ls) == |FirstSeen(ls[0])| + |FirstSeen(ls[1])| + |FirstSeen(ls[2])|;
  }

  /** The split-board branch of `plot` over a whole table: a sheet for every
      entry whose `'pos'` is `position`, in table order; the first entry that
      fails stops the walk. */
  function OverallSheets(board: seq<Record>, table: seq<Setting>, position: string, kmeans: Clusterer): Result<seq<DraftSheet>>
  {
    if table == [] then Success([])
    else
      match OverallSheets(board, table[..|table| - 1], position, kmeans)
      case Failure(err) => Failure(err)
      case Success(sheets) =>
        var e := table[|table| - 1];
        if e.pos != position then Success(sheets)
        else
          match OverallSheet(board, e, kmeans)
          case Failure(err) => Failure(err)
          case Success(sheet) => Success(sheets + [sheet])
  }

  /** Once an entry has failed, the entries after it change nothing. */
  lemma {:induction false} FailureSticks(board: seq<Record>, table: seq<Setting>, position: string, kmeans: Clusterer, i: nat)
    requires i <= |table| && OverallSheets(board, table[..i], position, kmeans).Failure?
    ensures OverallSheets(board, table, position, kmeans) == OverallSheets(board, table[..i], position, kmeans)
    decreases |table|
  {
    if i < |table| {
      assert table[..|table| - 1][..i] == table[..i];
      FailureSticks(board, table[..|table| - 1], position, kmeans, i);
    } else {
      assert table[..i] == table;
    }
  }

  /** The `for dict in type_cluster_settings` loop of `plot`. */
  method PlotOverall(board: seq<Record>, table: seq<Setting>, position: string, kmeans: Clusterer)
    returns (r: Result<seq<DraftSheet>>)
    ensures r == OverallSheets(board, table, position, kmeans)
  {
    var sheets: seq<DraftSheet> := [];
    for i := 0 to |table|
      invariant OverallSheets(board, table[..i], position, kmeans) == Success(sheets)
    {
      assert table[..i + 1][..i] == table[..i];
      if table[i].pos == position {
        var sheet := TierSplitBoard(board, table[i], kmeans);
        if sheet.Failure? {
          FailureSticks(board, table, position, kmeans, i + 1);
          return Failure(sheet.error);
        }
        sheets := sheets + [sheet.value];
      }
    }
    assert table[..|table|] == table;
    return Success(sheets);
  }

  /** The walk yields exactly one sheet per entry named `position`, each the
      sheet of that entry, and succeeds exactly when every such entry does. */
  lemma {:induction false} OverallSheetsPerEntry(board: seq<Record>, table: seq<Setting>, position: string, kmeans: Clusterer)
    ensures OverallSheets(board, table, position, kmeans).Success? <==>
            forall e :: e in EntriesNamed(table, position) ==> OverallSheet(board, e, kmeans).Success?
    ensures var r, es := OverallSheets(board, table, position, kmeans), EntriesNamed(table, position);
            r.Success? ==> |r.value| == |es| &&
                           forall i :: 0 <= i < |es| ==> OverallSheet(board, es[i], kmeans) == Success(r.value[i])
    decreases |table|
  {
    if table != [] {
      var prefix, e := table[..|table| - 1], table[|table| - 1];
      assert prefix + [e] == table;
      OverallSheetsPerEntry(board, prefix, position, kmeans);
      EntriesNamedSnoc(prefix, e, position);
      var before := OverallSheets(board, prefix, position, kmeans);
      var es0 := EntriesNamed(prefix, position);
      if before.Success? && e.pos == position {
        var es := EntriesNamed(table, position);
        assert es == es0 + [e];
        if OverallSheet(board, e, kmeans).Success? {
          var r := OverallSheets(board, table, position, kmeans);
          assert r.value == before.value + [OverallSheet(board, e, kmeans).value];
          forall i | 0 <= i < |es|
            ensures OverallSheet(board, es[i], kmeans) == Success(r.value[i])
          {
            if i < |es0| {
              assert es[i] == es0[i] && r.value[i] == before.value[i];
            }
          }
        } else {
          assert e in es;
        }
      } else if before.Failure? {
        assert forall x :: x in es0 ==> x in EntriesNamed(table, position);
      }
    }
  }

  /** No entry named `position`, no sheet: the walk succeeds with nothing. */
  lemma NoEntriesNoSheets(board: seq<Record>, table: seq<Setting>, position: string, kmeans: Clusterer)
    requires EntriesNamed(table, position) == []
    ensures OverallSheets(board, table, position, kmeans) == Success([])
  {
    OverallSheetsPerEntry(board, table, position, kmeans);
  }

  /** The per-position branch of `plot` for the matched entry: the first
      `max_num` rows (all of them when the entry has none) clustered into
      `k_val` clusters. */
  function PositionLabels(board: seq<Record>, e: Setting, kmeans: Clusterer): Result<seq<int>>
  {
    var rows := PySliceTo(board, 0, e.MaxNum());
    match e.KVal()
    case None => Failure(InvalidClusterCount)
    case Some(k) =>
      if 1 <= k <= |rows| then Success(kmeans(AverageRanks(rows), k)) else Failure(InvalidClusterCount)
  }

  /** At most one entry is the last to match. */
  lemma LastMatchUnique(table: seq<Setting>, position: string, at: int)
    requires IsLastMatch(table, position, at)
    ensures forall i :: IsLastMatch(table, position, i) ==> i == at
  {
  }

  /** The per-position branch of `plot`: the entry is looked up, the board
      cut to `list[0:max_number]`, and the one window clustered. */
  method PlotPosition(board: seq<Record>, position: string, table: seq<Setting>, kmeans: Clusterer)
    returns (r: Result<seq<int>>)
    ensures (forall i :: 0 <= i < |table| ==> !PosMatches(table[i], position)) ==> r == Failure(MissingConfiguration)
    ensures forall i :: IsLastMatch(table, position, i) ==> r == PositionLabels(board, table[i], kmeans)
  {
    var setting :- GetPositionSetting(position, table);
    ghost var at :| IsLastMatch(table, position, at) && setting == (table[at].MaxNum(), table[at].KVal());
    LastMatchUnique(table, position, at);
    var maxNumber, kValue := setting.0, setting.1;
    var rows := PySliceTo(board, 0, maxNumber);
    if kValue.None? {
      return Failure(InvalidClusterCount);
    }
    var labels :- ClusterAndPlot([Window(rows, kValue.value)], kmeans);
    ghost var clustered := kmeans(AverageRanks(rows), kValue.value);
    assert ClusterEach([Window(rows, kValue.value)], kmeans) == [clustered];
    assert |[clustered][1..]| == 0;
    assert Concat([clustered]) == clustered;
    assert PositionLabels(board, table[at], kmeans) == Success(clustered);
    return Success(labels);
  }

  /** What the per-position branch yields: it fails exactly when the entry is
      a split entry or asks for a cluster count KMeans refuses, and otherwise
      gives one label in `[0, k_val)` to each of the first `max_num` rows. */
  lemma PositionLabelsMeaning(board: seq<Record>, e: Setting, kmeans: Clusterer)
    requires ClustersWithinK(kmeans)
    ensures var rows := PySliceTo(board, 0, e.MaxNum());
            PositionLabels(board, e, kmeans).Success? <==> e.PositionSetting? && 1 <= e.kVal <= |rows|
    ensures var r, rows := PositionLabels(board, e, kmeans), PySliceTo(board, 0, e.MaxNum());
            r.Success? ==> |r.value| == |rows| && forall n :: 0 <= n < |r.value| ==> 0 <= r.value[n] < e.kVal
    ensures e.PositionSetting? && 0 <= e.maxNum <= |board| ==> |PySliceTo(board, 0, e.MaxNum())| == e.maxNum
  {
    var rows := PySliceTo(board, 0, e.MaxNum());
    if e.PositionSetting? && 1 <= e.kVal <= |rows| {
      assert |kmeans(AverageRanks(rows), e.kVal)| == |rows|;
    }
  }

  /** Whether `plot` takes its split-board branch. */
  predicate SplitBoard(position: string, week: int)
  {
    (week == 0 && position == "preseason-overall") || (week != 0 && position == "ros-overall")
  }

  /** What one call of `plot` produces: the draft sheets of a split board, or
      the labels of a single-window board. */
  datatype PlotOutcome = Sheets(sheets: seq<DraftSheet>) | Labels(labels: seq<int>)

  /** `plot`: the table is chosen by week, then the board is either split and
      tiered or clustered as one window. */
  method Plot(position: string, week: int, board: seq<Record>, kmeans: Clusterer) returns (r: Result<PlotOutcome>)
    ensures var table := GetClusterSettings(week).0;
            SplitBoard(position, week) ==>
              match OverallSheets(board, table, position, kmeans)
              case Failure(err) => r == Failure(err)
              case Success(sheets) => r == Success(Sheets(sheets))
    ensures var table := GetClusterSettings(week).0;
            !SplitBoard(position, week) ==>
              ((forall i :: 0 <= i < |table| ==> !PosMatches(table[i], position)) ==> r == Failure(MissingConfiguration)) &&
              forall i :: IsLastMatch(table, position, i) ==>
                match PositionLabels(board, table[i], kmeans)
                case Failure(err) => r == Failure(err)
                case Success(labels) => r == Success(Labels(labels))
  {
    var typeClusterSettings, rosClusterSettings := GetClusterSettings(week).0, GetClusterSettings(week).1;
    if SplitBoard(position, week) {
      var sheets :- PlotOverall(board, typeClusterSettings, position, kmeans);
      return Success(Sheets(sheets));
    } else {
      var labels :- PlotPosition(board, position, typeClusterSettings, kmeans);
      return Success(Labels(labels));
    }
  }

  /** From week 1 on the `ros-overall` board yields no sheet at all. */
  lemma RosOverallYieldsNothing(week: int, board: seq<Record>, kmeans: Clusterer)
    requires week != 0
    ensures OverallSheets(board, GetClusterSettings(week).0, "ros-overall", kmeans) == Success([])
  {
    RosOverallBranchDead(week);
    NoEntriesNoSheets(board, GetClusterSettings(week).0, "ros-overall", kmeans);
  }

  /** A table with one entry named `position` yields that entry's sheet. */
  lemma OneEntryOneSheet(board: seq<Record>, table: seq<Setting>, position: string, kmeans: Clusterer, e: Setting)
    requires EntriesNamed(table, position) == [e] && OverallSheet(board, e, kmeans).Success?
    ensures OverallSheets(board, table, position, kmeans) == Success([OverallSheet(board, e, kmeans).value])
  {
    OverallSheetsPerEntry(board, table, position, kmeans);
    var r := OverallSheets(board, table, position, kmeans);
    assert e in EntriesNamed(table, position);
    assert r.Success?;
    assert |r.value| == 1 && OverallSheet(board, e, kmeans) == Success(r.value[0]);
    assert r.value == [r.value[0]];
  }

  /** The preseason overall board of at least 200 rows: KMeans accepts all
      three windows (60, 60 and 80 rows into 10, 7 and 6 clusters), and the
      one sheet shows the top 200 rows, each with its tier. */
  lemma PreseasonOverallSheet(board: seq<Record>, kmeans: Clusterer)
    requires ClustersWithinK(kmeans) && |board| >= 200
    ensures var e := SplitSetting("preseason-overall", 60, 10, 60, 7, 80, 6);
            var ls := ClusterEach(SplitWindows(board, e), kmeans);
            OverallSheets(board, GetClusterSettings(0).0, "preseason-overall", kmeans)
              == Success([DraftSheet(board[..200], Stitch(ls).tiers)]) &&
            |Stitch(ls).tiers| == 200
  {
    var e := SplitSetting("preseason-overall", 60, 10, 60, 7, 80, 6);
    SplitWindowSizes(board, e);
    assert AllFit(SplitWindows(board, e));
    OverallSheetTiers(board, e, kmeans);
    SliceNonNegative(board, 0, 200);
    RosOverallBranchDead(0);
    OneEntryOneSheet(board, GetClusterSettings(0).0, "preseason-overall", kmeans, e);
  }
}
