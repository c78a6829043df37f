/** The draft sheet's layout: six columns of 35 rows each, and the split of
    a position such as `RB12` into its letters and its rank. */
module Sheet {

  import opened Common
  import opened Seqs

  const PlayersPerColumn: int := 35
  const ColumnCount: int := 6

  /** The `starts` and `stops` lists of the sheet writer, built one column
      at a time: the first column starts at row 0, every column is
      `PlayersPerColumn` rows long, and each starts where the one before it
      stops. */
  method ColumnBounds() returns (starts: seq<int>, stops: seq<int>)
    ensures |starts| == ColumnCount && |stops| == ColumnCount
    ensures starts[0] == 0
    ensures forall i :: 0 <= i < ColumnCount ==> stops[i] - starts[i] == PlayersPerColumn
    ensures forall i :: 0 < i < ColumnCount ==> starts[i] == stops[i - 1]
  {
    starts := [];
    for e := 0 to ColumnCount
      invariant |starts| == e
      invariant forall i :: 0 <= i < e ==> starts[i] == i * PlayersPerColumn
    {
      starts := starts + [e * PlayersPerColumn];
    }
    stops := [];
    for f := 0 to ColumnCount
      invariant |stops| == f
      invariant forall i :: 0 <= i < f ==> stops[i] == starts[i] + PlayersPerColumn
    {
      stops := stops + [starts[f] + PlayersPerColumn];
    }
  }

  /** Bounds as `ColumnBounds` promises them. */
  predicate BackToBack(starts: seq<int>, stops: seq<int>)
  {
    |starts| == ColumnCount && |stops| == ColumnCount && starts[0] == 0 &&
    (forall i :: 0 <= i < ColumnCount ==> stops[i] - starts[i] == PlayersPerColumn) &&
    (forall i :: 0 < i < ColumnCount ==> starts[i] == stops[i - 1])
  }

  /** `list[starts[i]:stops[i]]` for every column. */
  function Columns<T>(list: seq<T>, starts: seq<int>, stops: seq<int>): (cs: seq<seq<T>>)
    requires |starts| == ColumnCount && |stops| == ColumnCount
    ensures |cs| == ColumnCount
  {
    seq(ColumnCount, i requires 0 <= i < ColumnCount => PySlice(list, starts[i], stops[i]))
  }

  /** Column `i` starts at row `35 * i`. */
  lemma ColumnStarts(starts: seq<int>, stops: seq<int>, i: nat)
    requires BackToBack(starts, stops) && i < ColumnCount
    ensures starts[i] == PlayersPerColumn * i
  {
    if i > 0 {
      ColumnStarts(starts, stops, i - 1);
    }
  }

  /** The six columns show the first 210 rows of the list in order, none
      twice and none skipped, and no column holds more than 35 rows; a list
      of at most 210 rows is shown in full. */
  lemma ColumnsShowTopRows<T>(list: seq<T>, starts: seq<int>, stops: seq<int>)
    requires BackToBack(starts, stops)
    ensures Concat(Columns(list, starts, stops)) == PySlice(list, 0, PlayersPerColumn * ColumnCount)
    ensures forall i :: 0 <= i < ColumnCount ==> |Columns(list, starts, stops)[i]| <= PlayersPerColumn
    ensures |list| <= PlayersPerColumn * ColumnCount ==> Concat(Columns(list, starts, stops)) == list
  {
    forall i | 0 <= i < ColumnCount
      ensures starts[i] == PlayersPerColumn * i
    {
      ColumnStarts(starts, stops, i);
    }
    var b := starts + [stops[ColumnCount - 1]];
    assert forall i :: 0 <= i <= ColumnCount ==> b[i] == PlayersPerColumn * i;
    assert Ascending(b);
    forall i | 0 <= i < ColumnCount
      ensures Slices(list, b)[i] == Columns(list, starts, stops)[i]
      ensures |Columns(list, starts, stops)[i]| <= PlayersPerColumn
    {
      SlicesAt(list, b, i);
      SliceNonNegative(list, b[i], b[i + 1]);
    }
    assert Slices(list, b) == Columns(list, starts, stops);
    ConcatSlices(list, b);
    SliceNonNegative(list, 0, PlayersPerColumn * ColumnCount);
  }

  /** `str.isdigit()` on one character (ASCII digits). */
  predicate IsDigit(c: char)
  {
    '0' <= c <= '9'
  }

  /** `''.join([i for i in p if not i.isdigit()])` */
  function NonDigits(p: string): (r: string)
    ensures forall i :: 0 <= i < |r| ==> !IsDigit(r[i])
  {
    if p == [] then [] else (if IsDigit(p[0]) then [] else [p[0]]) + NonDigits(p[1..])
  }

  /** `''.join([i for i in p if i.isdigit()])` */
  function Digits(p: string): (r: string)
    ensures forall i :: 0 <= i < |r| ==> IsDigit(r[i])
  {
    if p == [] then [] else (if IsDigit(p[0]) then [p[0]] else []) + Digits(p[1..])
  }

  /** Every character goes to exactly one of the two parts. */
  lemma {:induction false} SplitLengths(p: string)
    ensures |NonDigits(p)| + |Digits(p)| == |p|
  {
    if p != [] {
      SplitLengths(p[1..]);
    }
  }

  /** `raw_position` and `position_rank` of a board's position column. */
  function SplitPosition(p: string): (parts: (string, string))
    ensures forall i :: 0 <= i < |parts.0| ==> !IsDigit(parts.0[i])
    ensures forall i :: 0 <= i < |parts.1| ==> IsDigit(parts.1[i])
    ensures |parts.0| + |parts.1| == |p|
  {
    SplitLengths(p);
    (NonDigits(p), Digits(p))
  }

  /** The split loses and invents no character: the two parts hold exactly
      the characters of the position between them. */
  lemma {:induction false} SplitKeepsEveryCharacter(p: string)
    ensures multiset(SplitPosition(p).0) + multiset(SplitPosition(p).1) == multiset(p)
  {
    if p != [] {
      SplitKeepsEveryCharacter(p[1..]);
      assert p == [p[0]] + p[1..];
    }
  }

  /** Letters followed by a rank split back into the letters and the rank. */
  lemma {:induction false} SplitLettersThenRank(letters: string, rank: string)
    requires forall i :: 0 <= i < |letters| ==> !IsDigit(letters[i])
    requires forall i :: 0 <= i < |rank| ==> IsDigit(rank[i])
    ensures SplitPosition(letters + rank) == (letters, rank)
  {
    if letters == [] {
      assert letters + rank == rank;
      DigitsOnly(rank);
    } else {
      assert (letters + rank)[0] == letters[0];
      assert (letters + rank)[1..] == letters[1..] + rank;
      SplitLettersThenRank(letters[1..], rank);
      var whole := letters + rank;
      assert !IsDigit(letters[0]);
      assert NonDigits(whole) == [letters[0]] + NonDigits(whole[1..]);
      assert Digits(whole) == Digits(whole[1..]);
      assert letters == [letters[0]] + letters[1..];
    }
  }

  /** A string of digits is all rank and no letters. */
  lemma {:induction false} DigitsOnly(rank: string)
    requires forall i :: 0 <= i < |rank| ==> IsDigit(rank[i])
    ensures NonDigits(rank) == [] && Digits(rank) == rank
  {
    if rank != [] {
      DigitsOnly(rank[1..]);
      assert rank == [rank[0]] + rank[1..];
    }
  }

  lemma RunningBackTwelve()
    ensures SplitPosition("RB12") == ("RB", "12")
  {
    assert "RB12" == "RB" + "12";
    SplitLettersThenRank("RB", "12");
  }
}
