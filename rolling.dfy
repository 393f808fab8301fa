/** Rolling form of `add_rolling_features`: every team keeps five lists in
    `rolling_stats` (points, goals for, goals against, shots, shots on
    target). Before a match each side's form is read from the last five
    entries of its lists, undefined (NaN) while it has fewer than five; then
    the match is appended to both teams' lists. */
module RollingForm {
  import opened Common
  import opened Matches

  /** `window`: the number of most recent entries a form value averages. */
  const Window: nat := 5

  /** `get_points(result, is_home)`: 3 for a win, 1 for a draw, 0 for a loss,
      and 0 for a label other than H, D or A. */
  function GetPoints(result: Ftr, isHome: bool): (p: int)
    ensures 0 <= p <= 3
    ensures p == 3 <==> (result == H && isHome) || (result == A && !isHome)
    ensures p == 1 <==> result == D
    ensures p == 0 <==> !((result == H && isHome) || (result == A && !isHome) || result == D)
  {
    if result == H then (if isHome then 3 else 0)
    else if result == A then (if isHome then 0 else 3)
    else if result == D then 1
    else 0
  }

  /** The two sides of a decided match share 3 points, a draw gives 2, and
      a row with an unknown label gives none. */
  lemma PointsShared(result: Ftr)
    ensures GetPoints(result, true) + GetPoints(result, false)
         == (if result == D then 2 else if result == Other then 0 else 3)
    ensures result == H || result == A ==> GetPoints(result, true) != GetPoints(result, false)
  {
  }

  /** One team's entry of `rolling_stats`. */
  datatype Stats = Stats(points: seq<int>, goalsFor: seq<int>, goalsAgainst: seq<int>,
                         shots: seq<int>, shotsOnTarget: seq<int>)

  /** The entry every team starts with: five empty lists. */
  const NoStats: Stats := Stats([], [], [], [], [])

  /** The five lists grow together, one entry per match played. */
  predicate Aligned(s: Stats) {
    |s.goalsFor| == |s.points| && |s.goalsAgainst| == |s.points|
    && |s.shots| == |s.points| && |s.shotsOnTarget| == |s.points|
  }

  /** An entry of `rolling_stats` as the loop keeps it: aligned lists. */
  type TeamStats = s: Stats | Aligned(s) witness NoStats

  /** Appends one match, seen from one side, to that side's five lists. */
  function Append(s: TeamStats, points: int, goalsFor: int, goalsAgainst: int, shots: int,
                  shotsOnTarget: int): (r: TeamStats)
    ensures r.points == s.points + [points] && r.goalsFor == s.goalsFor + [goalsFor]
    ensures r.goalsAgainst == s.goalsAgainst + [goalsAgainst]
    ensures r.shots == s.shots + [shots] && r.shotsOnTarget == s.shotsOnTarget + [shotsOnTarget]
  {
    Stats(s.points + [points], s.goalsFor + [goalsFor], s.goalsAgainst + [goalsAgainst],
          s.shots + [shots], s.shotsOnTarget + [shotsOnTarget])
  }

  /** The end of a loop iteration: the home side's lists get the match as
      played at home, then the away side's get it with goals for and
      against swapped. */
  function RecordMatch(stats: map<string, TeamStats>, m: Match): (r: map<string, TeamStats>)
    requires m.homeTeam in stats && m.awayTeam in stats
    ensures r.Keys == stats.Keys
  {
    var afterHome := stats[m.homeTeam := Append(stats[m.homeTeam], GetPoints(m.ftr, true),
                                                m.fthg, m.ftag, m.shotsHome, m.shotsOnTargetHome)];
    afterHome[m.awayTeam := Append(afterHome[m.awayTeam], GetPoints(m.ftr, false),
                                   m.ftag, m.fthg, m.shotsAway, m.shotsOnTargetAway)]
  }

  /** The away side's goals for and against are the home side's, swapped. */
  lemma RecordMatchSwapsGoals(stats: map<string, TeamStats>, m: Match)
    requires m.homeTeam in stats && m.awayTeam in stats && m.homeTeam != m.awayTeam
    ensures var r := RecordMatch(stats, m);
            r[m.awayTeam].goalsFor == stats[m.awayTeam].goalsFor + [m.ftag]
            && r[m.awayTeam].goalsAgainst == stats[m.awayTeam].goalsAgainst + [m.fthg]
            && r[m.homeTeam].goalsFor == stats[m.homeTeam].goalsFor + [m.fthg]
            && r[m.homeTeam].goalsAgainst == stats[m.homeTeam].goalsAgainst + [m.ftag]
  {
  }

  /** The sum of the first n entries of `xs`. */
  function SumFirst(xs: seq<int>, n: nat): int
    requires n <= |xs|
  {
    if n == 0 then 0 else SumFirst(xs, n - 1) + xs[n - 1]
  }

  function Sum(xs: seq<int>): int {
    SumFirst(xs, |xs|)
  }

  /** `np.mean` */
  function Mean(xs: seq<int>): real
    requires |xs| > 0
  {
    Sum(xs) as real / |xs| as real
  }

  /** A list `[-window:]`: its last five entries. */
  function LastWindow(xs: seq<int>): (r: seq<int>)
    requires |xs| >= Window
    ensures |r| == Window
  {
    xs[|xs| - Window..]
  }

  /** The four form values of one side: mean points, goals scored, shots and
      shots on target over the window (goals against are kept but not read). */
  datatype Form = Form(points: real, goals: real, shots: real, shotsOnTarget: real)

  /** A side's form before a match: defined exactly when it has at least
      `window` entries, from the last `window` of each list. */
  function FormOf(s: TeamStats): (f: Option<Form>)
    ensures f.Some? <==> |s.points| >= Window
  {
    if |s.points| >= Window then
      Some(Form(Mean(LastWindow(s.points)), Mean(LastWindow(s.goalsFor)),
                Mean(LastWindow(s.shots)), Mean(LastWindow(s.shotsOnTarget))))
    else None
  }

  /** The features of one row: the home side's form and the away side's. */
  datatype FormPair = FormPair(home: Option<Form>, away: Option<Form>)

  /** The features a row gets from the lists as they stand before it. */
  function FormRowOf(stats: map<string, TeamStats>, m: Match): FormPair
    requires m.homeTeam in stats && m.awayTeam in stats
  {
    FormPair(FormOf(stats[m.homeTeam]), FormOf(stats[m.awayTeam]))
  }

  /** The per-team lists once rows lo .. hi - 1 have been recorded. */
  function StatsAfter(stats: map<string, TeamStats>, ms: seq<Match>, lo: nat, hi: nat): (r: map<string, TeamStats>)
    requires Covers(stats, ms) && lo <= hi <= |ms|
    ensures r.Keys == stats.Keys
    decreases hi - lo
  {
    if lo == hi then stats else StatsAfter(RecordMatch(stats, ms[lo]), ms, lo + 1, hi)
  }

  /** `rolling_stats` as first built: five empty lists for every team. */
  function InitialStats(ms: seq<Match>): (stats: map<string, TeamStats>)
    ensures Covers(stats, ms)
    ensures forall t :: t in stats ==> stats[t] == NoStats
  {
    TeamMapValues(ms, NoStats);
    TeamMap(ms, NoStats)
  }

  /** The two in-place updates of a loop iteration, spelled out. */
  lemma RecordInPlace(before: map<string, TeamStats>, m: Match, mid: map<string, TeamStats>,
                      after: map<string, TeamStats>)
    requires m.homeTeam in before && m.awayTeam in before
    requires mid == before[m.homeTeam := Append(before[m.homeTeam], GetPoints(m.ftr, true),
                                                m.fthg, m.ftag, m.shotsHome, m.shotsOnTargetHome)]
    requires after == mid[m.awayTeam := Append(mid[m.awayTeam], GetPoints(m.ftr, false),
                                               m.ftag, m.fthg, m.shotsAway, m.shotsOnTargetAway)]
    ensures after == RecordMatch(before, m)
  {
  }

  /** The features row i gets: both sides' forms read from the lists as
      they stand once rows 0 .. i - 1 have been recorded. */
  function FeatureRow(ms: seq<Match>, i: nat): FormPair
    requires i < |ms|
  {
    FormRowOf(StatsAfter(InitialStats(ms), ms, 0, i), ms[i])
  }

  /** Recording one more row extends `StatsAfter` by that row. */
  lemma {:induction false} StatsAfterLast(stats: map<string, TeamStats>, ms: seq<Match>, lo: nat, hi: nat)
    requires Covers(stats, ms) && lo <= hi < |ms|
    ensures Covers(StatsAfter(stats, ms, lo, hi), ms)
    ensures StatsAfter(stats, ms, lo, hi + 1) == RecordMatch(StatsAfter(stats, ms, lo, hi), ms[hi])
    decreases hi - lo
  {
    var next := RecordMatch(stats, ms[lo]);
    if lo < hi {
      StatsAfterLast(next, ms, lo + 1, hi);
      assert StatsAfter(stats, ms, lo, hi) == StatsAfter(next, ms, lo + 1, hi);
      assert StatsAfter(stats, ms, lo, hi + 1) == StatsAfter(next, ms, lo + 1, hi + 1);
    } else {
      assert StatsAfter(stats, ms, lo, hi) == stats;
      assert StatsAfter(next, ms, lo + 1, hi + 1) == next;
    }
  }

  /** Appending one row to the two output columns keeps them equal to the
      feature rows so far. */
  lemma AppendFeatureRow(homes: seq<Option<Form>>, aways: seq<Option<Form>>, ms: seq<Match>,
                         i: nat, h: Option<Form>, a: Option<Form>)
    requires i < |ms| && |homes| == i && |aways| == i && FeatureRow(ms, i) == FormPair(h, a)
    requires forall j :: 0 <= j < i ==> FormPair(homes[j], aways[j]) == FeatureRow(ms, j)
    ensures forall j :: 0 <= j < i + 1 ==> FormPair((homes + [h])[j], (aways + [a])[j]) == FeatureRow(ms, j)
  {
    forall j | 0 <= j < i + 1
      ensures FormPair((homes + [h])[j], (aways + [a])[j]) == FeatureRow(ms, j)
    {
      if j < i {
        assert (homes + [h])[j] == homes[j] && (aways + [a])[j] == aways[j];
      } else {
        assert (homes + [h])[j] == h && (aways + [a])[j] == a;
      }
    }
  }

  /** `add_rolling_features(df, window=5)`: the home and away form of every
      row (each form standing for its four columns, all NaN together). */
  method AddRollingFeatures(ms: seq<Match>) returns (homeForm: seq<Option<Form>>, awayForm: seq<Option<Form>>)
    ensures |homeForm| == |ms| && |awayForm| == |ms|
    ensures forall i :: 0 <= i < |ms| ==> FormPair(homeForm[i], awayForm[i]) == FeatureRow(ms, i)
  {
    var rollingStats: map<string, TeamStats> := InitialStats(ms);
    ghost var init := rollingStats;
    homeForm, awayForm := [], [];
    for i := 0 to |ms|
      invariant |homeForm| == i && |awayForm| == i
      invariant Covers(rollingStats, ms) && rollingStats == StatsAfter(init, ms, 0, i)
      invariant forall j :: 0 <= j < i ==> FormPair(homeForm[j], awayForm[j]) == FeatureRow(ms, j)
    {
      var home, away := ms[i].homeTeam, ms[i].awayTeam;
      var homeF := FormOf(rollingStats[home]);
      var awayF := FormOf(rollingStats[away]);
      assert FormPair(homeF, awayF) == FeatureRow(ms, i);
      AppendFeatureRow(homeForm, awayForm, ms, i, homeF, awayF);
      homeForm := homeForm + [homeF];
      awayForm := awayForm + [awayF];
      var homePoints := GetPoints(ms[i].ftr, true);
      var awayPoints := GetPoints(ms[i].ftr, false);
      ghost var before := rollingStats;
      rollingStats := rollingStats[home := Append(rollingStats[home], homePoints, ms[i].fthg,
                                                  ms[i].ftag, ms[i].shotsHome, ms[i].shotsOnTargetHome)];
      ghost var mid := rollingStats;
      rollingStats := rollingStats[away := Append(rollingStats[away], awayPoints, ms[i].ftag,
                                                  ms[i].fthg, ms[i].shotsAway, ms[i].shotsOnTargetAway)];
      RecordInPlace(before, ms[i], mid, rollingStats);
      StatsAfterLast(init, ms, 0, i);
      assert rollingStats == StatsAfter(init, ms, 0, i + 1);
    }
  }

  // ---------------------------------------------------------------------
  // What the features mean

  /** The five lists of a team's entry in `rolling_stats`. */
  datatype Column = Points | GoalsFor | GoalsAgainst | Shots | ShotsOnTarget

  function ColumnOf(s: Stats, c: Column): seq<int> {
    match c
    case Points => s.points
    case GoalsFor => s.goalsFor
    case GoalsAgainst => s.goalsAgainst
    case Shots => s.shots
    case ShotsOnTarget => s.shotsOnTarget
  }

  /** The entry one side of a match contributes to list c, read off the row:
      the away side scores FTAG and concedes FTHG, and takes the away shots. */
  function SideEntry(m: Match, isHome: bool, c: Column): (x: int)
    ensures c == Points ==> x == 0 || x == 1 || x == 3
  {
    match c
    case Points => GetPoints(m.ftr, isHome)
    case GoalsFor => if isHome then m.fthg else m.ftag
    case GoalsAgainst => if isHome then m.ftag else m.fthg
    case Shots => if isHome then m.shotsHome else m.shotsAway
    case ShotsOnTarget => if isHome then m.shotsOnTargetHome else m.shotsOnTargetAway
  }

  /** How often team t is listed in a row: once per side it plays. */
  function Sides(m: Match, t: string): nat {
    (if m.homeTeam == t then 1 else 0) + (if m.awayTeam == t then 1 else 0)
  }

  /** The entries one row adds to team t's list c: its home entry, then its
      away entry (both when the team is listed on both sides). */
  function RowEntries(m: Match, t: string, c: Column): (r: seq<int>)
    ensures |r| == Sides(m, t)
    ensures c == Points ==> forall x :: x in r ==> x == 0 || x == 1 || x == 3
  {
    (if m.homeTeam == t then [SideEntry(m, true, c)] else [])
    + (if m.awayTeam == t then [SideEntry(m, false, c)] else [])
  }

  /** How often team t is listed in rows lo .. hi - 1. */
  function Appearances(ms: seq<Match>, lo: nat, hi: nat, t: string): nat
    requires lo <= hi <= |ms|
    decreases hi - lo
  {
    if lo == hi then 0 else Sides(ms[lo], t) + Appearances(ms, lo + 1, hi, t)
  }

  /** Team t's entries of list c from rows lo .. hi - 1, in row order; every
      points entry is 0, 1 or 3. */
  function History(ms: seq<Match>, lo: nat, hi: nat, t: string, c: Column): (r: seq<int>)
    requires lo <= hi <= |ms|
    ensures c == Points ==> forall x :: x in r ==> x == 0 || x == 1 || x == 3
    decreases hi - lo
  {
    if lo == hi then [] else RowEntries(ms[lo], t, c) + History(ms, lo + 1, hi, t, c)
  }

  /** A history holds one entry per appearance, whichever list it is. */
  lemma {:induction false} HistoryLength(ms: seq<Match>, lo: nat, hi: nat, t: string, c: Column)
    requires lo <= hi <= |ms|
    ensures |History(ms, lo, hi, t, c)| == Appearances(ms, lo, hi, t)
    decreases hi - lo
  {
    if lo < hi {
      HistoryLength(ms, lo + 1, hi, t, c);
    }
  }

  /** Recording a match appends to each of a team's lists exactly what the
      row gives it. */
  lemma RecordMatchEntries(stats: map<string, TeamStats>, m: Match, t: string, c: Column)
    requires m.homeTeam in stats && m.awayTeam in stats && t in stats
    ensures ColumnOf(RecordMatch(stats, m)[t], c) == ColumnOf(stats[t], c) + RowEntries(m, t, c)
  {
    var afterHome := stats[m.homeTeam := Append(stats[m.homeTeam], GetPoints(m.ftr, true),
                                                m.fthg, m.ftag, m.shotsHome, m.shotsOnTargetHome)];
    var homePart: seq<int> := if m.homeTeam == t then [SideEntry(m, true, c)] else [];
    var awayPart: seq<int> := if m.awayTeam == t then [SideEntry(m, false, c)] else [];
    assert ColumnOf(afterHome[t], c) == ColumnOf(stats[t], c) + homePart;
    AppendAssoc(ColumnOf(stats[t], c), homePart, awayPart);
  }

  /** After rows lo .. hi - 1 each of a team's lists is what it held before,
      followed by the team's own entries from those rows. */
  lemma {:induction false} StatsAfterHistory(stats: map<string, TeamStats>, ms: seq<Match>, lo: nat,
                                             hi: nat, t: string, c: Column)
    requires Covers(stats, ms) && lo <= hi <= |ms| && t in stats
    ensures ColumnOf(StatsAfter(stats, ms, lo, hi)[t], c) == ColumnOf(stats[t], c) + History(ms, lo, hi, t, c)
    decreases hi - lo
  {
    if lo < hi {
      var next := RecordMatch(stats, ms[lo]);
      var before := ColumnOf(stats[t], c);
      var row := RowEntries(ms[lo], t, c);
      var rest := History(ms, lo + 1, hi, t, c);
      assert History(ms, lo, hi, t, c) == row + rest;
      RecordMatchEntries(stats, ms[lo], t, c);
      StatsAfterHistory(next, ms, lo + 1, hi, t, c);
      AppendAssoc(before, row, rest);
      calc {
        ColumnOf(StatsAfter(stats, ms, lo, hi)[t], c);
        ColumnOf(StatsAfter(next, ms, lo + 1, hi)[t], c);
        ColumnOf(next[t], c) + rest;
        (before + row) + rest;
        before + (row + rest);
      }
    } else {
      assert StatsAfter(stats, ms, lo, hi) == stats;
      assert History(ms, lo, hi, t, c) == [];
    }
  }

  /** The mean of the last `window` entries of team t's list c before row i. */
  function WindowMean(ms: seq<Match>, i: nat, t: string, c: Column): real
    requires i <= |ms| && Appearances(ms, 0, i, t) >= Window
  {
    HistoryLength(ms, 0, i, t, c);
    Mean(LastWindow(History(ms, 0, i, t, c)))
  }

  /** The form a side should get at row i, from the table alone: undefined
      while the team has appeared fewer than five times in earlier rows,
      otherwise the means of its last five points, goals scored, shots and
      shots on target. */
  function HistoryForm(ms: seq<Match>, i: nat, t: string): Option<Form>
    requires i <= |ms|
  {
    if Appearances(ms, 0, i, t) >= Window then
      Some(Form(WindowMean(ms, i, t, Points), WindowMean(ms, i, t, GoalsFor),
                WindowMean(ms, i, t, Shots), WindowMean(ms, i, t, ShotsOnTarget)))
    else None
  }

  /** The features of row i are both sides' forms from their own earlier
      appearances: each of the four values is the mean of exactly the last
      five entries of its list, all from rows before i. */
  lemma FormAtRow(ms: seq<Match>, i: nat)
    requires i < |ms|
    ensures FeatureRow(ms, i) == FormPair(HistoryForm(ms, i, ms[i].homeTeam), HistoryForm(ms, i, ms[i].awayTeam))
  {
    var init := InitialStats(ms);
    SideForm(init, ms, i, ms[i].homeTeam);
    SideForm(init, ms, i, ms[i].awayTeam);
  }

  /** A team that starts with empty lists holds exactly its history. */
  lemma SideColumn(init: map<string, TeamStats>, ms: seq<Match>, i: nat, t: string, c: Column)
    requires i <= |ms| && Covers(init, ms) && t in init && init[t] == NoStats
    ensures ColumnOf(StatsAfter(init, ms, 0, i)[t], c) == History(ms, 0, i, t, c)
  {
    var h := History(ms, 0, i, t, c);
    StatsAfterHistory(init, ms, 0, i, t, c);
    assert ColumnOf(NoStats, c) == [];
    assert ColumnOf(init[t], c) + h == [] + h == h;
  }

  /** One side's form, read from the lists, is its form from the table. */
  lemma SideForm(init: map<string, TeamStats>, ms: seq<Match>, i: nat, t: string)
    requires i <= |ms| && Covers(init, ms) && t in init && init[t] == NoStats
    ensures FormOf(StatsAfter(init, ms, 0, i)[t]) == HistoryForm(ms, i, t)
  {
    var s := StatsAfter(init, ms, 0, i)[t];
    SideColumn(init, ms, i, t, Points);
    SideColumn(init, ms, i, t, GoalsFor);
    SideColumn(init, ms, i, t, Shots);
    SideColumn(init, ms, i, t, ShotsOnTarget);
    HistoryLength(ms, 0, i, t, Points);
    if Appearances(ms, 0, i, t) >= Window {
      assert FormOf(s) == Some(Form(Mean(LastWindow(s.points)), Mean(LastWindow(s.goalsFor)),
                                    Mean(LastWindow(s.shots)), Mean(LastWindow(s.shotsOnTarget))));
    } else {
      assert |s.points| < Window;
    }
  }

  /** Bounds on each entry bound the sum. */
  lemma {:induction false} SumBounds(xs: seq<int>, n: nat)
    requires n <= |xs| && forall x :: x in xs ==> 0 <= x <= 3
    ensures 0 <= SumFirst(xs, n) <= 3 * n
  {
    if n > 0 {
      assert xs[n - 1] in xs;
      SumBounds(xs, n - 1);
    }
  }

  /** Every points entry is 0, 1 or 3, so a mean of points lies in [0, 3]. */
  lemma FormPointsInRange(ms: seq<Match>, i: nat)
    requires i < |ms|
    ensures var f := FeatureRow(ms, i).home;
            f.Some? ==> 0.0 <= f.value.points <= 3.0
    ensures var f := FeatureRow(ms, i).away;
            f.Some? ==> 0.0 <= f.value.points <= 3.0
  {
    FormAtRow(ms, i);
    var hh := History(ms, 0, i, ms[i].homeTeam, Points);
    var ha := History(ms, 0, i, ms[i].awayTeam, Points);
    HistoryLength(ms, 0, i, ms[i].homeTeam, Points);
    HistoryLength(ms, 0, i, ms[i].awayTeam, Points);
    if |hh| >= Window {
      MeanInRange(LastWindow(hh), hh);
    }
    if |ha| >= Window {
      MeanInRange(LastWindow(ha), ha);
    }
  }

  /** The mean of points entries taken from a list of points entries. */
  lemma MeanInRange(xs: seq<int>, whole: seq<int>)
    requires |xs| > 0 && forall x :: x in whole ==> x == 0 || x == 1 || x == 3
    requires forall x :: x in xs ==> x in whole
    ensures 0.0 <= Mean(xs) <= 3.0
  {
    assert forall x :: x in xs ==> 0 <= x <= 3;
    SumBounds(xs, |xs|);
  }
}
