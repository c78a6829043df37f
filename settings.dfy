/** The clustering configuration: the three constant tables, the choice
    between them by week (get_cluster_settings) and the linear,
    case-insensitive lookup of one position's entry (get_position_setting). */
module Settings {

  import opened Common

  /** One dictionary of a settings table. A position entry has `max_num` and
      `k_val`; a split entry has three window sizes `plot1..3` and their
      cluster counts `k_val_1..3`. */
  datatype Setting =
    | PositionSetting(pos: string, maxNum: int, kVal: int)
    | SplitSetting(pos: string, plot1: int, kVal1: int, plot2: int, kVal2: int, plot3: int, kVal3: int)
  {
    /** `dict.get('max_num')`: None on a split entry. */
    function MaxNum(): Option<int>
    {
      if PositionSetting? then Some(maxNum) else None
    }

    /** `dict.get('k_val')`: None on a split entry. */
    function KVal(): Option<int>
    {
      if PositionSetting? then Some(kVal) else None
    }
  }

  const PreseasonClusterSettings: seq<Setting> := [
    SplitSetting("preseason-overall", 60, 10, 60, 7, 80, 6),
    PositionSetting("preseason-c", 24, 8),
    PositionSetting("preseason-lw", 40, 9),
    PositionSetting("preseason-rw", 60, 12),
    PositionSetting("preseason-d", 24, 8),
    PositionSetting("preseason-g", 24, 5)
  ]

  const WeeklyPosClusterSettings: seq<Setting> := [
    PositionSetting("qb", 24, 8),
    PositionSetting("rb", 40, 9),
    PositionSetting("wr", 60, 12),
    PositionSetting("te", 24, 8),
    PositionSetting("flex", 70, 13),
    PositionSetting("k", 24, 5),
    PositionSetting("dst", 24, 6)
  ]

  /** The ros-wr cluster count is written `65/5` in Python, the float 13.0. */
  const RosPosClusterSettings: seq<Setting> := [
    SplitSetting("ros-overall", 60, 10, 60, 8, 80, 8),
    PositionSetting("ros-qb", 32, 7),
    PositionSetting("ros-rb", 50, 12),
    PositionSetting("ros-wr", 64, 13),
    PositionSetting("ros-te", 30, 7),
    PositionSetting("ros-k", 20, 5),
    PositionSetting("ros-dst", 25, 5)
  ]

  /** get_cluster_settings: the table the positions are looked up in (the
      preseason one in week 0, the weekly one otherwise), and the
      rest-of-season table. */
  function GetClusterSettings(week: int): (tables: (seq<Setting>, seq<Setting>))
    ensures tables.0 == (if week == 0 then PreseasonClusterSettings else WeeklyPosClusterSettings)
    ensures tables.1 == RosPosClusterSettings
  {
    if week == 0 then (PreseasonClusterSettings, RosPosClusterSettings)
    else (WeeklyPosClusterSettings, RosPosClusterSettings)
  }

  /** Every entry of every table asks KMeans for at least one and at most as
      many clusters as its window has records. */
  predicate CountsFitWindows(e: Setting)
  {
    match e
    case PositionSetting(_, maxNum, kVal) => 1 <= kVal <= maxNum
    case SplitSetting(_, p1, k1, p2, k2, p3, k3) => 1 <= k1 <= p1 && 1 <= k2 <= p2 && 1 <= k3 <= p3
  }

  lemma TablesFitWindows(week: int)
    ensures forall e :: e in GetClusterSettings(week).0 ==> CountsFitWindows(e)
    ensures forall e :: e in GetClusterSettings(week).1 ==> CountsFitWindows(e)
  {
  }

  /** Python's `str.lower()` on one character (ASCII letters). */
  function LowerChar(c: char): char
  {
    if 'A' <= c <= 'Z' then (c as int + 32) as char else c
  }

  function Lower(s: string): string
  {
    seq(|s|, i requires 0 <= i < |s| => LowerChar(s[i]))
  }

  /** `str(dict.get('pos')).lower() == str(position).lower()` */
  predicate PosMatches(e: Setting, position: string)
  {
    Lower(e.pos) == Lower(position)
  }

  /** Entry `i` matches and no later entry does. */
  predicate IsLastMatch(settings: seq<Setting>, position: string, i: int)
  {
    0 <= i < |settings| && PosMatches(settings[i], position) &&
    forall j :: i < j < |settings| ==> !PosMatches(settings[j], position)
  }

  /** get_position_setting: `(max_num, k_val)` of the last entry whose
      position equals `position` ignoring case; `max_num` and `k_val` are
      unbound, so the call fails, when no entry does. */
  method GetPositionSetting(position: string, settings: seq<Setting>)
    returns (r: Result<(Option<int>, Option<int>)>)
    ensures r.Failure? <==> forall i :: 0 <= i < |settings| ==> !PosMatches(settings[i], position)
    ensures r.Failure? ==> r.error == MissingConfiguration
    ensures r.Success? ==> exists i :: IsLastMatch(settings, position, i) &&
                                       r.value == (settings[i].MaxNum(), settings[i].KVal())
  {
    var found: Option<(Option<int>, Option<int>)> := None;
    ghost var at := 0;
    for i := 0 to |settings|
      invariant found.None? <==> forall j :: 0 <= j < i ==> !PosMatches(settings[j], position)
      invariant found.Some? ==> 0 <= at < i && PosMatches(settings[at], position)
      invariant found.Some? ==> found.value == (settings[at].MaxNum(), settings[at].KVal())
      invariant found.Some? ==> forall j :: at < j < i ==> !PosMatches(settings[j], position)
    {
      if Lower(settings[i].pos) == Lower(position) {
        found := Some((settings[i].MaxNum(), settings[i].KVal()));
        at := i;
      }
    }
    if found.None? {
      return Failure(MissingConfiguration);
    }
    return Success(found.value);
  }

  /** A string with no upper-case ASCII letter is its own lower case. */
  predicate NoUpper(s: string)
  {
    forall i :: 0 <= i < |s| ==> !('A' <= s[i] <= 'Z')
  }

  lemma LowerKeepsLowercase(s: string)
    requires NoUpper(s)
    ensures Lower(s) == s
  {
  }

  /** In the lookup tables no two entries name the same position, even
      ignoring case, so "last match wins" never has to choose. */
  predicate KeysUnique(settings: seq<Setting>)
  {
    forall i, j :: 0 <= i < j < |settings| ==> Lower(settings[i].pos) != Lower(settings[j].pos)
  }

  /** Lower-case keys that differ stay different after lowering. */
  lemma LowercaseDistinctKeys(settings: seq<Setting>)
    requires forall i :: 0 <= i < |settings| ==> NoUpper(settings[i].pos)
    requires forall i, j :: 0 <= i < j < |settings| ==> settings[i].pos != settings[j].pos
    ensures KeysUnique(settings)
  {
    forall i, j | 0 <= i < j < |settings|
      ensures Lower(settings[i].pos) != Lower(settings[j].pos)
    {
      LowerKeepsLowercase(settings[i].pos);
      LowerKeepsLowercase(settings[j].pos);
    }
  }

  lemma PreseasonKeysUnique()
    ensures KeysUnique(PreseasonClusterSettings)
  {
    LowercaseDistinctKeys(PreseasonClusterSettings);
  }

  lemma WeeklyKeysUnique()
    ensures KeysUnique(WeeklyPosClusterSettings)
  {
    LowercaseDistinctKeys(WeeklyPosClusterSettings);
  }

  lemma RosKeysUnique()
    ensures KeysUnique(RosPosClusterSettings)
  {
    LowercaseDistinctKeys(RosPosClusterSettings);
  }

  lemma TableKeysUnique(week: int)
    ensures KeysUnique(GetClusterSettings(week).0)
    ensures KeysUnique(GetClusterSettings(week).1)
  {
    PreseasonKeysUnique();
    WeeklyKeysUnique();
    RosKeysUnique();
  }

  /** The entries whose `'pos'` is exactly `position`, in table order: the
      entries `plot` runs its split-board branch for. */
  function EntriesNamed(table: seq<Setting>, position: string): (es: seq<Setting>)
    ensures forall e :: e in es <==> e in table && e.pos == position
    ensures |es| <= |table|
  {
    if table == [] then []
    else (if table[0].pos == position then [table[0]] else []) + EntriesNamed(table[1..], position)
  }

  /** One more entry at the end of the table adds it at the end when it is
      named `position`. */
  lemma {:induction false} EntriesNamedSnoc(table: seq<Setting>, e: Setting, position: string)
    ensures EntriesNamed(table + [e], position)
            == EntriesNamed(table, position) + (if e.pos == position then [e] else [])
  {
    var t := table + [e];
    if table == [] {
      assert t == [e];
      assert |t[1..]| == 0;
    } else {
      assert t[0] == table[0];
      assert t[1..] == table[1..] + [e];
      EntriesNamedSnoc(table[1..], e, position);
      var head := if table[0].pos == position then [table[0]] else [];
      assert EntriesNamed(t, position) == head + EntriesNamed(t[1..], position);
      assert EntriesNamed(table, position) == head + EntriesNamed(table[1..], position);
    }
  }

  /** From week 1 on, the `ros-overall` branch of `plot` searches the weekly
      table, which has no `ros-overall` entry: its body never runs. In week 0
      the `preseason-overall` search finds exactly its one split entry. */
  lemma RosOverallBranchDead(week: int)
    ensures week != 0 ==> EntriesNamed(GetClusterSettings(week).0, "ros-overall") == []
    ensures week == 0 ==> EntriesNamed(GetClusterSettings(week).0, "preseason-overall")
                          == [SplitSetting("preseason-overall", 60, 10, 60, 7, 80, 6)]
  {
  }
}
