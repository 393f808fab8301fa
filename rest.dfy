/** Rest days of `add_rest_days`: `last_game_date` maps each team to the date
    of its latest match so far. A side's rest before a match is the number of
    days since that date, undefined (NaN) on the team's first appearance;
    the home side's date is recorded before the away side's rest is read. */
module RestDays {
  import opened Common
  import opened Matches

  /** `last_game_date` after one row: the home team's date is set, then the
      away team's. */
  function RecordDates(last: map<string, int>, m: Match): (r: map<string, int>)
    ensures r.Keys == last.Keys + {m.homeTeam, m.awayTeam}
    ensures r[m.homeTeam] == m.date && r[m.awayTeam] == m.date
    ensures forall t :: t in last && !Plays(m, t) ==> r[t] == last[t]
  {
    last[m.homeTeam := m.date][m.awayTeam := m.date]
  }

  /** `last_game_date` once rows 0 .. n - 1 have been processed. */
  function DatesAfter(ms: seq<Match>, n: nat): map<string, int>
    requires n <= |ms|
  {
    if n == 0 then map[] else RecordDates(DatesAfter(ms, n - 1), ms[n - 1])
  }

  /** `days_rest_home` and `days_rest_away` of one row. */
  datatype RestPair = RestPair(home: Option<int>, away: Option<int>)

  /** The two rest values a row reads from `last_game_date`: the away side
      reads the dictionary after the home side's date has been stored. */
  function RestRowOf(last: map<string, int>, m: Match): RestPair {
    var home := if m.homeTeam in last then Some(m.date - last[m.homeTeam]) else None;
    var mid := last[m.homeTeam := m.date];
    var away := if m.awayTeam in mid then Some(m.date - mid[m.awayTeam]) else None;
    RestPair(home, away)
  }

  /** The rest values row i gets. */
  function RestRow(ms: seq<Match>, i: nat): RestPair
    requires i < |ms|
  {
    RestRowOf(DatesAfter(ms, i), ms[i])
  }

  /** `days_rest_home - days_rest_away`: NaN as soon as either side is. */
  function Difference(home: Option<int>, away: Option<int>): (d: Option<int>)
    ensures d.Some? <==> home.Some? && away.Some?
  {
    if home.Some? && away.Some? then Some(home.value - away.value) else None
  }

  /** Appending one row's values keeps the columns equal to the rows so far. */
  lemma AppendRestRow(homes: seq<Option<int>>, aways: seq<Option<int>>, ms: seq<Match>, i: nat,
                      h: Option<int>, a: Option<int>)
    requires i < |ms| && |homes| == i && |aways| == i && RestRow(ms, i) == RestPair(h, a)
    requires forall j :: 0 <= j < i ==> RestPair(homes[j], aways[j]) == RestRow(ms, j)
    ensures forall j :: 0 <= j < i + 1 ==> RestPair((homes + [h])[j], (aways + [a])[j]) == RestRow(ms, j)
  {
    forall j | 0 <= j < i + 1
      ensures RestPair((homes + [h])[j], (aways + [a])[j]) == RestRow(ms, j)
    {
      if j < i {
        assert (homes + [h])[j] == homes[j] && (aways + [a])[j] == aways[j];
      } else {
        assert (homes + [h])[j] == h && (aways + [a])[j] == a;
      }
    }
  }

  /** `add_rest_days(df)`: both rest columns row by row, then their
      difference. */
  method AddRestDays(ms: seq<Match>)
    returns (restHome: seq<Option<int>>, restAway: seq<Option<int>>, restDiff: seq<Option<int>>)
    ensures |restHome| == |ms| && |restAway| == |ms| && |restDiff| == |ms|
    ensures forall i :: 0 <= i < |ms| ==> RestPair(restHome[i], restAway[i]) == RestRow(ms, i)
    ensures forall i :: 0 <= i < |ms| ==> restDiff[i] == Difference(restHome[i], restAway[i])
  {
    var lastGameDate: map<string, int> := map[];
    restHome, restAway := [], [];
    for i := 0 to |ms|
      invariant |restHome| == i && |restAway| == i
      invariant lastGameDate == DatesAfter(ms, i)
      invariant forall j :: 0 <= j < i ==> RestPair(restHome[j], restAway[j]) == RestRow(ms, j)
    {
      var home, away, date := ms[i].homeTeam, ms[i].awayTeam, ms[i].date;
      ghost var before := lastGameDate;
      var restH: Option<int>;
      if home in lastGameDate {
        restH := Some(date - lastGameDate[home]);
      } else {
        restH := None;
      }
      lastGameDate := lastGameDate[home := date];
      var restA: Option<int>;
      if away in lastGameDate {
        restA := Some(date - lastGameDate[away]);
      } else {
        restA := None;
      }
      lastGameDate := lastGameDate[away := date];
      assert RestPair(restH, restA) == RestRowOf(before, ms[i]);
      AppendRestRow(restHome, restAway, ms, i, restH, restA);
      restHome := restHome + [restH];
      restAway := restAway + [restA];
    }
    restDiff := seq(|ms|, i requires 0 <= i < |ms| => Difference(restHome[i], restAway[i]));
  }

  // ---------------------------------------------------------------------
  // What the rest values mean

  /** The latest row before row i in which team t plays, if any. */
  function PreviousRow(ms: seq<Match>, i: nat, t: string): (r: Option<nat>)
    requires i <= |ms|
    ensures r.Some? ==> r.value < i && Plays(ms[r.value], t)
    ensures r.Some? ==> forall j :: r.value < j < i ==> !Plays(ms[j], t)
    ensures r.None? ==> forall j :: 0 <= j < i ==> !Plays(ms[j], t)
  {
    if i == 0 then None
    else if Plays(ms[i - 1], t) then Some(i - 1)
    else PreviousRow(ms, i - 1, t)
  }

  /** `last_game_date` holds exactly the teams seen so far, each with the
      date of its latest row. */
  lemma {:induction false} DatesAfterIsPrevious(ms: seq<Match>, n: nat, t: string)
    requires n <= |ms|
    ensures t in DatesAfter(ms, n) <==> PreviousRow(ms, n, t).Some?
    ensures t in DatesAfter(ms, n) ==> DatesAfter(ms, n)[t] == ms[PreviousRow(ms, n, t).value].date
  {
    if n > 0 {
      DatesAfterIsPrevious(ms, n - 1, t);
    }
  }

  /** The rest a team has before row i, from the table alone: undefined when
      it has not played before, else the days since its latest earlier row. */
  function RestSince(ms: seq<Match>, i: nat, t: string): Option<int>
    requires i < |ms|
  {
    var p := PreviousRow(ms, i, t);
    if p.Some? then Some(ms[i].date - ms[p.value].date) else None
  }

  /** Row i's rest values are the days since each side's previous match,
      undefined exactly on a first appearance; a team listed on both sides
      has rested 0 days as the away side, its home date being stored first. */
  lemma RestRowMeaning(ms: seq<Match>, i: nat)
    requires i < |ms|
    ensures RestRow(ms, i).home == RestSince(ms, i, ms[i].homeTeam)
    ensures RestRow(ms, i).home.None? <==> forall j :: 0 <= j < i ==> !Plays(ms[j], ms[i].homeTeam)
    ensures ms[i].awayTeam != ms[i].homeTeam ==> RestRow(ms, i).away == RestSince(ms, i, ms[i].awayTeam)
    ensures ms[i].awayTeam != ms[i].homeTeam ==>
      (RestRow(ms, i).away.None? <==> forall j :: 0 <= j < i ==> !Plays(ms[j], ms[i].awayTeam))
    ensures ms[i].awayTeam == ms[i].homeTeam ==> RestRow(ms, i).away == Some(0)
  {
    DatesAfterIsPrevious(ms, i, ms[i].homeTeam);
    DatesAfterIsPrevious(ms, i, ms[i].awayTeam);
  }

  /** In a table sorted by date no rest value is negative. */
  lemma RestNonNegative(ms: seq<Match>, i: nat)
    requires i < |ms| && SortedByDate(ms)
    ensures RestRow(ms, i).home.Some? ==> RestRow(ms, i).home.value >= 0
    ensures RestRow(ms, i).away.Some? ==> RestRow(ms, i).away.value >= 0
  {
    RestRowMeaning(ms, i);
  }
}
