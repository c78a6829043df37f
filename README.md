# fftiers: tiering fantasy rankings, modelled in Dafny

fftiers turns an expert-consensus ranking board into **tiers**. The board's
rows are cut into windows. Each window's average ranks are clustered with
KMeans. The raw cluster ids are then renumbered into tier numbers 1, 2, 3, …
that run across the windows, and the rows and their tiers are written to a
draft sheet.

This project models the core of `src/ff-tiers.py`:

- **`reorder_labels`** (module `Tiers`, with its properties in
  `TierProperties`). This is the imperative renumbering: the
  `starting_label`/`current_label` counters, the per-window dictionary built
  from `OrderedDict.fromkeys`, and the growing output list. `ReorderLabels`
  is proved equal to the functional numbering `Reorder`/`Stitch`, and the
  lemmas state what that numbering promises:
  - the same tier exactly for the same raw id within a window;
  - tiers in order of first appearance;
  - each window continues exactly after the last tier of the ones before it;
  - independence from which ids the clusterer picked, and idempotence;
  - the error on an empty first window.
- **Python slicing and window arithmetic** (module `Seqs`): the clamping
  slice `s[start:stop]` with negative and out-of-range bounds, and
  back-to-back slices.
- **`get_cluster_settings` and `get_position_setting`** (module `Settings`):
  - the three constant tables, and the week-based choice between them;
  - the linear, case-insensitive, last-match-wins lookup, including the
    failure when no entry matches.
- **`plot` and `cluster_and_plot`** (module `Pipeline`):
  - the window bounds of a split board, and the three windows cut from it;
  - `labels_copy` grown window by window;
  - the joined labels re-cut at the same bounds, renumbered, and truncated
    together with the board;
  - the per-position branch, and the week/position dispatch.

  KMeans is a function parameter, constrained only by the promise
  `ClustersWithinK`: for `1 <= k <= n` rows it returns `n` labels, each in
  `[0, k)`. When `k` is outside that range, the model fails with
  `InvalidClusterCount`, as KMeans raises.
- **`get_nfl_week`** (module `Calendar`): the day difference to the season
  start becomes the week number.
- **The sheet layout** (module `Sheet`): the six 35-row columns of the draft
  sheet, and the split of a position such as `RB12` into `RB` and `12`.

Python exceptions are modelled as `Failure` values of `Common.Result`. The
model never raises, and it never reads an unbound variable.

Three behaviours of the code a reader might not expect:

- **Tiers are not always non-decreasing within a window.** They follow the
  order in which raw ids first appear. `NonDecreasingIffContiguous` proves
  that they are non-decreasing exactly when every raw id occupies one
  contiguous run of the window. `InterleavedExample` shows `[0,1,0]` giving
  `[1,2,1]`.
- **An empty board is not a no-op.**
  - KMeans refuses to cluster zero rows (`InvalidClusterCount`).
  - `reorder_labels` fails on an empty first window (`UnboundCurrentLabel`).
  - An empty later window leaves the numbering unchanged.
- **From week 1 on, the `ros-overall` branch of `plot` searches the weekly
  table.** That table has no `ros-overall` entry, so the branch's body never
  runs (`RosOverallBranchDead`, `RosOverallYieldsNothing`).

## Model

| member | source | states |
|---|---|---|
| Seqs.Clamp | src/ff-tiers.py:359-361 | a Python slice bound lands inside the list, and a non-negative bound is cut back to the list's length |
| Seqs.PySlice | src/ff-tiers.py:359-361 | Python's `list[a:b]` never fails: at most the list's length, exactly `s[a..b]` for in-range ascending bounds, and entry `i` is the list entry `i` places after the clamped start |
| Seqs.PySliceTo | src/ff-tiers.py:383 | `list[0:max_number]` with a missing `max_number` is the whole rest of the list; with a number in range it is the slice up to it |
| Seqs.SliceAdjacent | src/ff-tiers.py:359-361 | two back-to-back slices with non-negative bounds join into the slice over both |
| Seqs.ConcatSlices | src/ff-tiers.py:353-361 | slices between ascending non-negative bounds, joined, are exactly the slice from the first bound to the last |
| Seqs.ConcatSnoc | src/ff-tiers.py:475-478 | appending one more window to the joined list appends its entries, and the total length grows by its length |
| Seqs.SlicesAt | src/ff-tiers.py:596-603 | slice `i` is the slice between bounds `i` and `i+1` |
| Tiers.FirstSeen | src/ff-tiers.py:558 | the keys `OrderedDict.fromkeys` keeps: no repeats, and exactly the ids that occur in the window |
| Tiers.IndexOf | src/ff-tiers.py:560-562 | the position of an id among the distinct ids, where it occurs and does not occur earlier |
| Tiers.WindowTiers | src/ff-tiers.py:558-567 | one tier per window entry, each between the counter plus one and the counter plus the window's number of distinct ids |
| Tiers.Stitch | src/ff-tiers.py:551-569 | the windows numbered one after another: one tier per entry of all windows, and the counter is never negative |
| Tiers.Reorder | src/ff-tiers.py:545-570 | fails with `UnboundCurrentLabel` exactly when the first window is empty; otherwise returns the window-by-window numbering |
| Tiers.NumberDistinct | src/ff-tiers.py:557-564 | the dictionary maps exactly the distinct ids, the `j`-th to `starting_label + j`; `current_label` ends on the last tier handed out and keeps its old (possibly unbound) value when there is none |
| Tiers.EmitWindow | src/ff-tiers.py:566-567 | the output list grows by the dictionary's tier for each window entry, in order |
| Tiers.DictionaryGivesTiers | src/ff-tiers.py:557-567 | a dictionary numbering the distinct ids from `last+1` covers every entry and gives each its window tier |
| Tiers.StitchStep | src/ff-tiers.py:555-567 | one more window appends its tiers and moves the counter on by its number of distinct ids |
| Tiers.ReorderLabels | src/ff-tiers.py:545-569 | the result is the window-by-window numbering, or `UnboundCurrentLabel` when the first window is empty |
| TierProperties.FirstSeenPrefix | src/ff-tiers.py:558 | the distinct ids of a prefix of a window come first among the window's distinct ids |
| TierProperties.WindowTiersRange | src/ff-tiers.py:556-562 | a window's tiers are exactly `last+1 .. last+d`, with `d` its number of distinct ids |
| TierProperties.SameTierIffSameId | src/ff-tiers.py:557-567 | within a window, two entries share a tier if and only if they share a raw id |
| TierProperties.TierFollowsFirstAppearance | src/ff-tiers.py:558-567 | every entry's tier is at most one above the largest tier earlier in its window, a new id gets exactly that next tier, and the largest earlier tier is attained |
| TierProperties.NewIdNextTier | src/ff-tiers.py:558-567 | an id seen for the first time gets the tier after the ones used so far in its window |
| TierProperties.SeenIdSameTier | src/ff-tiers.py:566-567 | an id seen before gets a tier already given earlier in its window |
| TierProperties.NonDecreasingIffContiguous | src/ff-tiers.py:558-567 | a window's tiers are non-decreasing if and only if every raw id occupies one contiguous run |
| TierProperties.RenamingInvariant | src/ff-tiers.py:558-567 | windows with the same pattern of equal ids get the same tiers, whatever ids the clusterer picked |
| TierProperties.StitchLast | src/ff-tiers.py:551-564 | the final counter is the sum of the windows' distinct-id counts |
| TierProperties.StitchPrefix | src/ff-tiers.py:552-567 | the numbering of the first windows is a prefix of the numbering of all, and the counter never decreases |
| TierProperties.StitchBlock | src/ff-tiers.py:552-567 | window `j`'s stretch of the output is its window tiers, continuing from the counter the windows before it left |
| TierProperties.StitchAt | src/ff-tiers.py:552-567 | output entry `p` is the tier of entry `p` of the joined windows |
| TierProperties.WindowGetsNextTiers | src/ff-tiers.py:551-564 | the first window's tiers are exactly `1..d1`, and each later window's exactly `last+1..last+d` |
| TierProperties.LaterWindowsHigher | src/ff-tiers.py:551-564 | every tier of a later window is above every tier of an earlier one |
| TierProperties.EmptyWindowKeepsCounter | src/ff-tiers.py:555-564 | an empty window leaves the output and the counter unchanged |
| TierProperties.StitchRenamingInvariant | src/ff-tiers.py:552-567 | renaming the raw ids of each window, each in its own way, leaves the whole numbering unchanged |
| TierProperties.ConcatBlocks | src/ff-tiers.py:552-567 | the output is the per-window tier blocks joined in window order |
| TierProperties.Idempotent | src/ff-tiers.py:545-569 | renumbering the output again, window by window, changes nothing |
| TierProperties.TiersWithinCounter | src/ff-tiers.py:551-564 | every tier is at least 1 and at most the final counter |
| TierProperties.FewIdsFewTiers | src/ff-tiers.py:558-562 | a window whose ids lie in `[0, k)` uses at most `k` tiers |
| TierProperties.SingleWindow | src/ff-tiers.py:545-569 | a single non-empty window is numbered from tier 1 |
| TierProperties.InterleavedExample | src/ff-tiers.py:558-567 | `[0,1,0]` becomes `[1,2,1]` |
| TierProperties.EmptyFirstWindowFails | src/ff-tiers.py:556-564 | an empty first window leaves `current_label` unbound, so the call fails |
| Settings.GetClusterSettings | src/ff-tiers.py:289-327 | week 0 looks positions up in the preseason table and every other week in the weekly table; the rest-of-season table is always the second one |
| Settings.TablesFitWindows | src/ff-tiers.py:298-327 | every entry of both tables chosen for any week asks for at least one cluster and no more clusters than its `max_num` / `plotN` rows (a shorter board can still give a smaller window, which KMeans refuses) |
| Settings.TableKeysUnique | src/ff-tiers.py:298-327 | no two entries of a chosen table name the same position, even ignoring case |
| Settings.GetPositionSetting | src/ff-tiers.py:217-231 | fails with `MissingConfiguration` exactly when no entry matches case-insensitively; otherwise returns `(max_num, k_val)` of the last matching entry, None for a split entry |
| Settings.EntriesNamed | src/ff-tiers.py:351-352 | the entries whose `'pos'` is exactly the position: exactly those of the table, never more entries than the table has |
| Settings.EntriesNamedSnoc | src/ff-tiers.py:351-352 | one more table entry adds itself at the end exactly when it is named so |
| Settings.RosOverallBranchDead | src/ff-tiers.py:345-391 | from week 1 on, the table searched holds no `ros-overall` entry; in week 0 the `preseason-overall` search finds exactly its one split entry |
| Pipeline.AverageRanks | src/ff-tiers.py:456-460 | the clustered column has one value per row, the row's average rank |
| Pipeline.ClusterAndPlot | src/ff-tiers.py:429-507 | succeeds exactly when there is a window and KMeans accepts every one; fails with `NoWindows` without windows and `InvalidClusterCount` otherwise; on success returns the windows' labels joined in window order |
| Pipeline.ClusteredLabelsInRange | src/ff-tiers.py:470-478 | every accepted window gets one label per row, each in `[0, k)` |
| Pipeline.WindowBounds | src/ff-tiers.py:353-357 | the first window runs from 0 to `plot1`, and the second and third windows are `plot2` and `plot3` rows long |
| Pipeline.SplitWindows | src/ff-tiers.py:358-368 | three windows: rows `[0:plot1]` with `k_val_1`, `[plot1:plot1+plot2]` with `k_val_2`, and `[plot1+plot2:plot1+plot2+plot3]` with `k_val_3` |
| Pipeline.ThreeSlices | src/ff-tiers.py:359-361 | four bounds cut three windows, each between consecutive bounds |
| Pipeline.SplitWindowsCoverBoard | src/ff-tiers.py:353-361 | with non-negative sizes the three windows together are exactly the first `plot1+plot2+plot3` rows, none skipped or repeated |
| Pipeline.SplitWindowSizes | src/ff-tiers.py:359-361 | each window's row count is its bounds cut back to the board's length |
| Pipeline.ResliceRecoversWindows | src/ff-tiers.py:370-372 | cutting the joined labels at the board's bounds gives back each window's own labels |
| Pipeline.OverallSheetSplit | src/ff-tiers.py:370-377 | once KMeans accepts the windows and the labels are renumbered, the sheet is the first `plot1+plot2+plot3` rows with the first that many tiers |
| Pipeline.TierSplitBoard | src/ff-tiers.py:353-379 | the split-board branch for one entry: fails with `MissingWindowSize` on a position entry, else clusters, re-cuts, renumbers and truncates as `OverallSheet` describes |
| Pipeline.OverallSheetTiers | src/ff-tiers.py:353-379 | when KMeans accepts the windows, the sheet shows the first `plot1+plot2+plot3` rows with the windows' numbering as tiers, exactly one tier per row |
| Pipeline.SheetTiersWithinClusterCounts | src/ff-tiers.py:362-377 | every tier on a split board's sheet lies between 1 and `k_val_1 + k_val_2 + k_val_3` |
| Pipeline.FailureSticks | src/ff-tiers.py:351-379 | after a failing entry, later entries do not change the outcome |
| Pipeline.PlotOverall | src/ff-tiers.py:351-379 | the loop over the table yields what `OverallSheets` describes |
| Pipeline.OverallSheetsPerEntry | src/ff-tiers.py:351-379 | the loop succeeds exactly when every entry named for the board does, and yields one sheet per such entry, in table order |
| Pipeline.NoEntriesNoSheets | src/ff-tiers.py:351-352 | with no entry named for the board, the loop yields no sheet and no error |
| Pipeline.OneEntryOneSheet | src/ff-tiers.py:351-379 | one named entry yields exactly its sheet |
| Pipeline.LastMatchUnique | src/ff-tiers.py:227-230 | at most one entry is the last match |
| Pipeline.PlotPosition | src/ff-tiers.py:380-386 | fails with `MissingConfiguration` when no entry matches; otherwise it is the last matching entry's single-window clustering |
| Pipeline.PositionLabelsMeaning | src/ff-tiers.py:380-386 | the per-position branch succeeds exactly for a position entry with `1 <= k_val <= rows`, and then gives each of the first `max_num` rows a label in `[0, k_val)` |
| Pipeline.Plot | src/ff-tiers.py:345-426 | the table follows the week; a split board yields its sheets, any other board its last matching entry's labels, with every failure passed on |
| Pipeline.RosOverallYieldsNothing | src/ff-tiers.py:389-417 | from week 1 on, the `ros-overall` board yields no sheet |
| Pipeline.PreseasonOverallSheet | src/ff-tiers.py:345-379 | a preseason overall board of at least 200 rows yields exactly one sheet: the top 200 rows, with 200 tiers |
| Calendar.NflWeek | src/ff-tiers.py:103-118 | 0 before the start date; from it on, the week `w >= 1` with `7(w-1) <= days < 7w` |
| Calendar.FirstWeek | src/ff-tiers.py:109-116 | days 0 to 6 are week 1 |
| Calendar.WeekIsDaysDivSevenPlusOne | src/ff-tiers.py:112-116 | from the start date on, the week is `days div 7 + 1` |
| Calendar.NextWeekAfterSevenDays | src/ff-tiers.py:112-116 | seven days later it is exactly one week later |
| Calendar.WeekMonotone | src/ff-tiers.py:103-118 | the week is never negative and never goes back as the date advances |
| Sheet.ColumnBounds | src/ff-tiers.py:596-600 | six columns: the first starts at row 0, each is 35 rows long, and each starts where the one before stops |
| Sheet.ColumnStarts | src/ff-tiers.py:598 | column `i` starts at row `35 i` |
| Sheet.ColumnsShowTopRows | src/ff-tiers.py:596-603 | the columns together show the first 210 rows in order, none twice or skipped, at most 35 per column; a list of at most 210 rows is shown in full |
| Sheet.SplitPosition | src/ff-tiers.py:671-672 | `raw_position` holds no digit, `position_rank` only digits, and together they are as long as the position |
| Sheet.NonDigits | src/ff-tiers.py:671 | the letters part holds no digit |
| Sheet.Digits | src/ff-tiers.py:672 | the rank part holds only digits |
| Sheet.SplitKeepsEveryCharacter | src/ff-tiers.py:671-672 | the two parts hold exactly the position's characters |
| Sheet.SplitLettersThenRank | src/ff-tiers.py:671-672 | letters followed by digits split back into exactly the letters and the digits |
| Sheet.DigitsOnly | src/ff-tiers.py:671-672 | a string of digits is all rank and no letters |
| Sheet.RunningBackTwelve | src/ff-tiers.py:671-672 | `RB12` splits into `RB` and `12` |

## Left out

- KMeans (src/ff-tiers.py:470-474) is a randomised library call. It is a function parameter with only its length and range promise (`ClustersWithinK`). Which rows it groups together is not modelled, so neither is the claim that better-ranked clusters get lower tiers.
- Plotting, colours and image files in `cluster_and_plot` (:444-452, 480-505) are rendering and file output.
- Downloads and sessions (`perform_session_download`, `download_nhl_data`, :121-214) are network and file I/O.
- `csv_from_excel` and the file reading and `float()` parsing of `lists_from_csv` (:78-100, 234-286) are file I/O. A board is given as a sequence of `Pipeline.Record`, one per row of the five parallel lists.
- The HTML written by `fh_draft_sheet` and `ffb_weekly_sheet` (:572-680), including the `{0:.2f}` formatting and the image lookup, is file output. Only the column bounds and the position split are modelled.
- `ffb_weekly_sheet`'s empty sheet after every weekly board (:425-426) is file output.
- `datetime.now()` in `get_nfl_week` is a clock. `Calendar.NflWeek` takes the day difference as a parameter.
- Calendar.NflWeek: computes `days / 7 + 1` over exact reals, so float rounding is not modelled. It cannot matter for any realistic day count.
- The ros-wr entry's cluster count `65/5` is the float `13.0` in Python. It is modelled as the integer 13, because the model's cluster counts are integers.
- Settings.Lower: Python's `str.lower()` is modelled on ASCII letters only. Full Unicode case mapping is not modelled.
- Sheet.Digits, Sheet.NonDigits: `str.isdigit()` (`Sheet.IsDigit`) is modelled on ASCII digits only. Python also accepts other Unicode digits, which both parts would then sort differently.
- Logging, argparse, `main`, `clustering_program` and the `print` calls are program plumbing.
- `src/fpros-pickle.py` is not part of this model. It is a file-to-file script with hard-coded paths.
