/** Elo ratings of the feature engine: `initialize_elo`, `update_elo`,
    `add_elo_ratings` (ratings before each match, scored from goals) and
    `compute_elo` (ratings after each match, scored from the FTR label). */
module Elo {
  import opened Common
  import opened Matches

  /** How a row's actual home score is read: `update_elo` compares goals,
      `compute_elo` reads the FTR label. */
  datatype Scoring = ByGoals | ByLabel

  /** The expected home score 1 / (1 + 10^((away - home) / 400)) is passed in
      as `expected`, applied to the rating gap away - home. The proofs rely
      only on what the logistic curve guarantees: a value strictly between 0
      and 1, and one half when the ratings are equal. */
  ghost predicate LogisticLike(expected: real -> real) {
    (forall d :: 0.0 < expected(d) < 1.0) && expected(0.0) == 0.5
  }

  /** `initialize_elo`: a rating of 1500 for every team of the table. */
  function InitializeElo(ms: seq<Match>): (elo: map<string, real>)
    ensures Covers(elo, ms)
  {
    TeamMap(ms, BaseRating)
  }

  /** Every team that appears as HomeTeam or AwayTeam starts at exactly 1500,
      and no other name is rated. */
  lemma InitialRatings(ms: seq<Match>)
    ensures forall t :: t in InitializeElo(ms) <==> t in Teams(ms)
    ensures forall t :: t in InitializeElo(ms) ==> InitializeElo(ms)[t] == BaseRating
  {
    TeamMapKeys(ms, BaseRating);
    TeamMapValues(ms, BaseRating);
  }

  /** `result_home` of `update_elo`: 1 for a home win, 0 for an away win,
      one half for a draw, decided by the goals. */
  function GoalScore(homeScore: int, awayScore: int): (s: real)
    ensures s == 1.0 <==> homeScore > awayScore
    ensures s == 0.0 <==> homeScore < awayScore
    ensures s == 0.5 <==> homeScore == awayScore
  {
    if homeScore > awayScore then 1.0 else if homeScore < awayScore then 0.0 else 0.5
  }

  /** `Sh` of `compute_elo`: 1 for 'H', one half for 'D', and 0 for every
      other label, including an unknown one. */
  function LabelScore(r: Ftr): (s: real)
    ensures s == 1.0 <==> r == H
    ensures s == 0.5 <==> r == D
    ensures s == 0.0 <==> r == A || r == Other
  {
    match r
    case H => 1.0
    case D => 0.5
    case _ => 0.0
  }

  function ActualScore(m: Match, scoring: Scoring): (s: real)
    ensures s == 0.0 || s == 0.5 || s == 1.0
  {
    match scoring
    case ByGoals => GoalScore(m.fthg, m.ftag)
    case ByLabel => LabelScore(m.ftr)
  }

  /** One match applied to the ratings: the home rating moves by
      K * (actual - expected), then the away rating by
      K * ((1 - actual) - (1 - expected)), both from the pre-match expectation. */
  function EloStep(elo: map<string, real>, home: string, away: string,
                   actualHome: real, expected: real -> real): (r: map<string, real>)
    requires home in elo && away in elo
    ensures r.Keys == elo.Keys
  {
    var expectedHome := expected(elo[away] - elo[home]);
    var afterHome := elo[home := elo[home] + K * (actualHome - expectedHome)];
    afterHome[away := afterHome[away] + K * ((1.0 - actualHome) - (1.0 - expectedHome))]
  }

  /** The two in-place dictionary updates of one match, spelled out: first
      the home entry, then the away entry, both from the same expectation. */
  lemma EloStepInPlace(before: map<string, real>, home: string, away: string, actualHome: real,
                       expected: real -> real, expectedHome: real,
                       mid: map<string, real>, after: map<string, real>)
    requires home in before && away in before
    requires expectedHome == expected(before[away] - before[home])
    requires mid == before[home := before[home] + K * (actualHome - expectedHome)]
    requires after == mid[away := mid[away] + K * ((1.0 - actualHome) - (1.0 - expectedHome))]
    ensures after == EloStep(before, home, away, actualHome, expected)
  {
  }

  /** The ratings once rows lo .. hi - 1 of the table have been applied, in
      order, to `elo`. */
  function Advance(elo: map<string, real>, ms: seq<Match>, lo: nat, hi: nat, scoring: Scoring,
                   expected: real -> real): (r: map<string, real>)
    requires Covers(elo, ms) && lo <= hi <= |ms|
    ensures r.Keys == elo.Keys
    decreases hi - lo
  {
    if lo == hi then elo
    else
      var m := ms[lo];
      Advance(EloStep(elo, m.homeTeam, m.awayTeam, ActualScore(m, scoring), expected),
              ms, lo + 1, hi, scoring, expected)
  }

  /** Applying one more row at the end is one more `EloStep`. */
  lemma {:induction false} AdvanceLast(elo: map<string, real>, ms: seq<Match>, lo: nat, hi: nat,
                                       scoring: Scoring, expected: real -> real)
    requires Covers(elo, ms) && lo <= hi < |ms|
    ensures var r := Advance(elo, ms, lo, hi, scoring, expected);
            Advance(elo, ms, lo, hi + 1, scoring, expected)
            == EloStep(r, ms[hi].homeTeam, ms[hi].awayTeam, ActualScore(ms[hi], scoring), expected)
    decreases hi - lo
  {
    var m := ms[lo];
    var next := EloStep(elo, m.homeTeam, m.awayTeam, ActualScore(m, scoring), expected);
    assert Advance(elo, ms, lo, hi + 1, scoring, expected) == Advance(next, ms, lo + 1, hi + 1, scoring, expected);
    if lo < hi {
      AdvanceLast(next, ms, lo + 1, hi, scoring, expected);
      assert Advance(elo, ms, lo, hi, scoring, expected) == Advance(next, ms, lo + 1, hi, scoring, expected);
    } else {
      assert Advance(elo, ms, lo, hi, scoring, expected) == elo;
      assert Advance(next, ms, lo + 1, hi + 1, scoring, expected) == next;
    }
  }

  /** The dictionary `elo_dict` that `update_elo` changes in place. */
  class EloTable {
    var ratings: map<string, real>

    /** `initialize_elo(df)` */
    constructor (ms: seq<Match>)
      ensures ratings == InitializeElo(ms)
    {
      ratings := InitializeElo(ms);
    }
  }

  /** `update_elo(elo_dict, home, away, home_score, away_score)` with k = 20. */
  method UpdateElo(eloDict: EloTable, home: string, away: string,
                   homeScore: int, awayScore: int, expected: real -> real)
    requires home in eloDict.ratings && away in eloDict.ratings
    modifies eloDict
    ensures eloDict.ratings
         == EloStep(old(eloDict.ratings), home, away, GoalScore(homeScore, awayScore), expected)
  {
    var expectedHome := expected(eloDict.ratings[away] - eloDict.ratings[home]);
    var expectedAway := 1.0 - expectedHome;
    var resultHome, resultAway;
    if homeScore > awayScore {
      resultHome, resultAway := 1.0, 0.0;
    } else if homeScore < awayScore {
      resultHome, resultAway := 0.0, 1.0;
    } else {
      resultHome, resultAway := 0.5, 0.5;
    }
    eloDict.ratings := eloDict.ratings[home := eloDict.ratings[home] + K * (resultHome - expectedHome)];
    eloDict.ratings := eloDict.ratings[away := eloDict.ratings[away] + K * (resultAway - expectedAway)];
  }

  /** The two ratings a row of the output table carries. */
  datatype RatingPair = RatingPair(home: real, away: real)

  function PairOf(elo: map<string, real>, m: Match): RatingPair
    requires m.homeTeam in elo && m.awayTeam in elo
  {
    RatingPair(elo[m.homeTeam], elo[m.awayTeam])
  }

  /** Row i of `add_elo_ratings`: both teams' ratings once rows 0 .. i - 1
      have been applied, before match i. */
  function PreMatchRow(ms: seq<Match>, i: nat, scoring: Scoring, expected: real -> real): RatingPair
    requires i < |ms|
  {
    PairOf(Advance(InitializeElo(ms), ms, 0, i, scoring, expected), ms[i])
  }

  /** Row i of `compute_elo`: both teams' ratings once match i has been
      applied too. */
  function PostMatchRow(ms: seq<Match>, i: nat, scoring: Scoring, expected: real -> real): RatingPair
    requires i < |ms|
  {
    PairOf(Advance(InitializeElo(ms), ms, 0, i + 1, scoring, expected), ms[i])
  }

  /** `add_elo_ratings`: row i holds both teams' ratings before match i,
      captured before `update_elo` runs on it. */
  method AddEloRatings(ms: seq<Match>, expected: real -> real)
    returns (homeElo: seq<real>, awayElo: seq<real>)
    ensures |homeElo| == |ms| && |awayElo| == |ms|
    ensures forall i :: 0 <= i < |ms| ==>
      RatingPair(homeElo[i], awayElo[i]) == PreMatchRow(ms, i, ByGoals, expected)
  {
    var eloDict := new EloTable(ms);
    ghost var init := eloDict.ratings;
    homeElo, awayElo := [], [];
    for i := 0 to |ms|
      invariant |homeElo| == i && |awayElo| == i
      invariant Covers(eloDict.ratings, ms) && eloDict.ratings == Advance(init, ms, 0, i, ByGoals, expected)
      invariant forall j :: 0 <= j < i ==>
        RatingPair(homeElo[j], awayElo[j]) == PreMatchRow(ms, j, ByGoals, expected)
    {
      var home, away := ms[i].homeTeam, ms[i].awayTeam;
      assert RatingPair(eloDict.ratings[home], eloDict.ratings[away]) == PreMatchRow(ms, i, ByGoals, expected);
      ghost var homesBefore, awaysBefore := homeElo, awayElo;
      homeElo := homeElo + [eloDict.ratings[home]];
      awayElo := awayElo + [eloDict.ratings[away]];
      forall j | 0 <= j < i + 1
        ensures RatingPair(homeElo[j], awayElo[j]) == PreMatchRow(ms, j, ByGoals, expected)
      {
        if j < i {
          assert homeElo[j] == homesBefore[j] && awayElo[j] == awaysBefore[j];
        }
      }
      UpdateElo(eloDict, home, away, ms[i].fthg, ms[i].ftag, expected);
      AdvanceLast(init, ms, 0, i, ByGoals, expected);
    }
  }

  /** `compute_elo`: row i holds both teams' ratings after match i (scored
      from the FTR label), and `elo_diff` = `elo_home` - `elo_away`. */
  method ComputeElo(ms: seq<Match>, expected: real -> real)
    returns (eloHome: seq<real>, eloAway: seq<real>, eloDiff: seq<real>)
    ensures |eloHome| == |ms| && |eloAway| == |ms| && |eloDiff| == |ms|
    ensures forall i :: 0 <= i < |ms| ==>
      RatingPair(eloHome[i], eloAway[i]) == PostMatchRow(ms, i, ByLabel, expected)
    ensures forall i :: 0 <= i < |ms| ==> eloDiff[i] == eloHome[i] - eloAway[i]
  {
    var elo := InitializeElo(ms);
    ghost var init := elo;
    eloHome, eloAway := [], [];
    for i := 0 to |ms|
      invariant |eloHome| == i && |eloAway| == i
      invariant Covers(elo, ms) && elo == Advance(init, ms, 0, i, ByLabel, expected)
      invariant forall j :: 0 <= j < i ==>
        RatingPair(eloHome[j], eloAway[j]) == PostMatchRow(ms, j, ByLabel, expected)
    {
      var th, ta := ms[i].homeTeam, ms[i].awayTeam;
      var eh := expected(elo[ta] - elo[th]);
      var sh;
      if ms[i].ftr == H {
        sh := 1.0;
      } else if ms[i].ftr == D {
        sh := 0.5;
      } else {
        sh := 0.0;
      }
      assert sh == ActualScore(ms[i], ByLabel);
      ghost var before := elo;
      elo := elo[th := elo[th] + K * (sh - eh)];
      ghost var mid := elo;
      elo := elo[ta := elo[ta] + K * ((1.0 - sh) - (1.0 - eh))];
      EloStepInPlace(before, th, ta, sh, expected, eh, mid, elo);
      AdvanceLast(init, ms, 0, i, ByLabel, expected);
      assert RatingPair(elo[th], elo[ta]) == PostMatchRow(ms, i, ByLabel, expected);
      ghost var homesBefore, awaysBefore := eloHome, eloAway;
      eloHome := eloHome + [elo[th]];
      eloAway := eloAway + [elo[ta]];
      forall j | 0 <= j < i + 1
        ensures RatingPair(eloHome[j], eloAway[j]) == PostMatchRow(ms, j, ByLabel, expected)
      {
        if j < i {
          assert eloHome[j] == homesBefore[j] && eloAway[j] == awaysBefore[j];
        }
      }
    }
    eloDiff := seq(|ms|, i requires 0 <= i < |ms| => eloHome[i] - eloAway[i]);
  }

  // ---------------------------------------------------------------------
  // What the rows mean

  /** Row i of `compute_elo` is row i of `add_elo_ratings` moved by exactly
      the update of match i: between two different teams, what one gains
      the other loses. */
  lemma RowsBeforeAndAfter(ms: seq<Match>, i: nat, scoring: Scoring, expected: real -> real)
    requires i < |ms|
    ensures var before := Advance(InitializeElo(ms), ms, 0, i, scoring, expected);
            PostMatchRow(ms, i, scoring, expected)
            == PairOf(EloStep(before, ms[i].homeTeam, ms[i].awayTeam, ActualScore(ms[i], scoring), expected),
                      ms[i])
    ensures var pre, post := PreMatchRow(ms, i, scoring, expected), PostMatchRow(ms, i, scoring, expected);
            ms[i].homeTeam != ms[i].awayTeam ==> post.away - pre.away == -(post.home - pre.home)
  {
    var init := InitializeElo(ms);
    AdvanceLast(init, ms, 0, i, scoring, expected);
    if ms[i].homeTeam != ms[i].awayTeam {
      var before := Advance(init, ms, 0, i, scoring, expected);
      EloStepZeroSum(before, ms[i].homeTeam, ms[i].awayTeam, ActualScore(ms[i], scoring), expected);
    }
  }

  // ---------------------------------------------------------------------
  // One update

  /** The home rating moves by K * (actual - expected) and the away rating by
      exactly the opposite amount; no other rating moves. */
  lemma EloStepZeroSum(elo: map<string, real>, home: string, away: string, actualHome: real,
                       expected: real -> real)
    requires home in elo && away in elo && home != away
    ensures var eh := expected(elo[away] - elo[home]);
            var r := EloStep(elo, home, away, actualHome, expected);
            r[home] - elo[home] == K * (actualHome - eh)
            && r[away] - elo[away] == -(r[home] - elo[home])
    ensures forall t :: t in elo && t != home && t != away
              ==> EloStep(elo, home, away, actualHome, expected)[t] == elo[t]
  {
  }

  /** With an expectation strictly between 0 and 1, a change is strictly
      smaller than K; a win strictly raises the winner's rating, a loss
      strictly lowers the loser's. */
  lemma EloStepBounds(elo: map<string, real>, home: string, away: string, homeScore: int,
                      awayScore: int, expected: real -> real)
    requires LogisticLike(expected)
    requires home in elo && away in elo && home != away
    ensures var r := EloStep(elo, home, away, GoalScore(homeScore, awayScore), expected);
            -K < r[home] - elo[home] < K && -K < r[away] - elo[away] < K
    ensures var r := EloStep(elo, home, away, GoalScore(homeScore, awayScore), expected);
            homeScore > awayScore ==> r[home] > elo[home] && r[away] < elo[away]
    ensures var r := EloStep(elo, home, away, GoalScore(homeScore, awayScore), expected);
            homeScore < awayScore ==> r[home] < elo[home] && r[away] > elo[away]
  {
    var eh := expected(elo[away] - elo[home]);
    assert 0.0 < eh < 1.0;
    EloStepZeroSum(elo, home, away, GoalScore(homeScore, awayScore), expected);
  }

  /** Between equally rated teams a home win moves the ratings by +10 and
      -10, and a draw moves neither. */
  lemma EloStepEqualRatings(elo: map<string, real>, home: string, away: string, homeScore: int,
                            awayScore: int, expected: real -> real)
    requires LogisticLike(expected)
    requires home in elo && away in elo && home != away && elo[home] == elo[away]
    ensures var r := EloStep(elo, home, away, GoalScore(homeScore, awayScore), expected);
            homeScore > awayScore ==> r[home] == elo[home] + 10.0 && r[away] == elo[away] - 10.0
    ensures var r := EloStep(elo, home, away, GoalScore(homeScore, awayScore), expected);
            homeScore == awayScore ==> r[home] == elo[home] && r[away] == elo[away]
  {
    assert elo[away] - elo[home] == 0.0;
    assert expected(elo[away] - elo[home]) == 0.5;
  }

  // ---------------------------------------------------------------------
  // Conservation of the total rating

  /** The sum of the ratings of the teams `ts`. */
  function Total(elo: map<string, real>, ts: seq<string>): real
    requires forall t :: t in ts ==> t in elo
  {
    if ts == [] then 0.0 else Total(elo, ts[..|ts| - 1]) + elo[ts[|ts| - 1]]
  }

  /** Changing one listed team's rating changes the total by the difference. */
  lemma {:induction false} TotalUpdate(elo: map<string, real>, ts: seq<string>, t: string, v: real)
    requires Distinct(ts) && t in ts && forall u :: u in ts ==> u in elo
    ensures Total(elo[t := v], ts) == Total(elo, ts) - elo[t] + v
  {
    var last := ts[|ts| - 1];
    var prev := ts[..|ts| - 1];
    assert forall u :: u in prev ==> u in ts;
    assert Distinct(prev);
    if t == last {
      assert t !in prev;
      TotalUnchanged(elo, prev, t, v);
    } else {
      assert t in prev;
      TotalUpdate(elo, prev, t, v);
    }
  }

  /** Changing an unlisted team's rating leaves the total alone. */
  lemma {:induction false} TotalUnchanged(elo: map<string, real>, ts: seq<string>, t: string, v: real)
    requires t !in ts && forall u :: u in ts ==> u in elo
    ensures Total(elo[t := v], ts) == Total(elo, ts)
  {
    if ts != [] {
      var prev := ts[..|ts| - 1];
      assert forall u :: u in prev ==> u in ts;
      TotalUnchanged(elo, prev, t, v);
    }
  }

  /** Every listed team at rating c: the total is c times their number. */
  lemma {:induction false} TotalConstant(elo: map<string, real>, ts: seq<string>, c: real)
    requires forall u :: u in ts ==> u in elo && elo[u] == c
    ensures Total(elo, ts) == c * |ts| as real
  {
    if ts != [] {
      var prev := ts[..|ts| - 1];
      assert forall u :: u in prev ==> u in ts;
      TotalConstant(elo, prev, c);
    }
  }

  /** One match leaves the total rating unchanged, also when a team is
      listed as its own opponent. */
  lemma EloStepConservesTotal(elo: map<string, real>, ts: seq<string>, home: string, away: string,
                              actualHome: real, expected: real -> real)
    requires Distinct(ts) && home in ts && away in ts && forall u :: u in ts ==> u in elo
    ensures Total(EloStep(elo, home, away, actualHome, expected), ts) == Total(elo, ts)
  {
    var eh := expected(elo[away] - elo[home]);
    var afterHome := elo[home := elo[home] + K * (actualHome - eh)];
    TotalUpdate(elo, ts, home, elo[home] + K * (actualHome - eh));
    assert forall u :: u in ts ==> u in afterHome;
    TotalUpdate(afterHome, ts, away, afterHome[away] + K * ((1.0 - actualHome) - (1.0 - eh)));
  }

  lemma {:induction false} AdvanceConservesTotal(elo: map<string, real>, ms: seq<Match>, lo: nat,
                                                 hi: nat, scoring: Scoring, expected: real -> real,
                                                 ts: seq<string>)
    requires Covers(elo, ms) && lo <= hi <= |ms|
    requires Distinct(ts)
    requires forall j :: 0 <= j < |ms| ==> ms[j].homeTeam in ts && ms[j].awayTeam in ts
    requires forall u :: u in ts ==> u in elo
    ensures Total(Advance(elo, ms, lo, hi, scoring, expected), ts) == Total(elo, ts)
    decreases hi - lo
  {
    if lo < hi {
      var m := ms[lo];
      var next := EloStep(elo, m.homeTeam, m.awayTeam, ActualScore(m, scoring), expected);
      assert m.homeTeam in ts && m.awayTeam in ts;
      EloStepConservesTotal(elo, ts, m.homeTeam, m.awayTeam, ActualScore(m, scoring), expected);
      AdvanceConservesTotal(next, ms, lo + 1, hi, scoring, expected, ts);
    }
  }

  /** After any number of matches the ratings of all teams still sum to
      1500 times the number of teams. */
  lemma TotalRatingConserved(ms: seq<Match>, n: nat, scoring: Scoring, expected: real -> real)
    requires n <= |ms|
    ensures forall t :: t in Teams(ms) ==> t in InitializeElo(ms)
    ensures Total(Advance(InitializeElo(ms), ms, 0, n, scoring, expected), Teams(ms))
         == BaseRating * |Teams(ms)| as real
  {
    var init := InitializeElo(ms);
    var ts := Teams(ms);
    InitialRatings(ms);
    TotalConstant(init, ts, BaseRating);
    assert forall j :: 0 <= j < |ms| ==> ms[j].homeTeam in ts && ms[j].awayTeam in ts by {
      forall j | 0 <= j < |ms| ensures ms[j].homeTeam in ts && ms[j].awayTeam in ts {
        assert ms[j] in ms;
      }
    }
    AdvanceConservesTotal(init, ms, 0, n, scoring, expected, ts);
  }

  // ---------------------------------------------------------------------
  // Teams that have not played yet, and the two ways of scoring

  /** A team that plays none of rows lo .. hi - 1 keeps its rating. */
  lemma {:induction false} AdvanceLeavesIdle(elo: map<string, real>, ms: seq<Match>, lo: nat, hi: nat,
                                             scoring: Scoring, expected: real -> real, t: string)
    requires Covers(elo, ms) && lo <= hi <= |ms| && t in elo
    requires forall j :: lo <= j < hi ==> !Plays(ms[j], t)
    ensures Advance(elo, ms, lo, hi, scoring, expected)[t] == elo[t]
    decreases hi - lo
  {
    if lo < hi {
      var m := ms[lo];
      var next := EloStep(elo, m.homeTeam, m.awayTeam, ActualScore(m, scoring), expected);
      assert !Plays(m, t);
      AdvanceLeavesIdle(next, ms, lo + 1, hi, scoring, expected, t);
    }
  }

  /** In its first match a team is recorded by `add_elo_ratings` at 1500. */
  lemma FirstMatchAtBase(ms: seq<Match>, i: nat, t: string, expected: real -> real)
    requires i < |ms| && Plays(ms[i], t)
    requires forall j :: 0 <= j < i ==> !Plays(ms[j], t)
    ensures t == ms[i].homeTeam ==> PreMatchRow(ms, i, ByGoals, expected).home == BaseRating
    ensures t == ms[i].awayTeam ==> PreMatchRow(ms, i, ByGoals, expected).away == BaseRating
  {
    var init := InitializeElo(ms);
    InitialRatings(ms);
    AdvanceLeavesIdle(init, ms, 0, i, ByGoals, expected, t);
  }

  /** When every label agrees with its score, scoring from goals and scoring
      from the label produce the same ratings. */
  lemma {:induction false} ScoringsAgree(elo: map<string, real>, ms: seq<Match>, lo: nat, hi: nat,
                                         expected: real -> real)
    requires Covers(elo, ms) && lo <= hi <= |ms|
    requires forall j :: lo <= j < hi ==> ConsistentResult(ms[j])
    ensures Advance(elo, ms, lo, hi, ByGoals, expected) == Advance(elo, ms, lo, hi, ByLabel, expected)
    decreases hi - lo
  {
    if lo < hi {
      var m := ms[lo];
      assert ConsistentResult(m);
      assert ActualScore(m, ByGoals) == ActualScore(m, ByLabel);
      var next := EloStep(elo, m.homeTeam, m.awayTeam, ActualScore(m, ByGoals), expected);
      ScoringsAgree(next, ms, lo + 1, hi, expected);
    }
  }

  /** So on consistent data `compute_elo` row i holds what `add_elo_ratings`
      would record for the same two teams right after match i: when the next
      row pairs the same teams, it is exactly that row. */
  lemma PostMatchIsNextPreMatch(ms: seq<Match>, i: nat, expected: real -> real)
    requires i < |ms|
    requires forall j :: 0 <= j < |ms| ==> ConsistentResult(ms[j])
    ensures PostMatchRow(ms, i, ByLabel, expected)
         == PairOf(Advance(InitializeElo(ms), ms, 0, i + 1, ByGoals, expected), ms[i])
    ensures i + 1 < |ms| && ms[i + 1].homeTeam == ms[i].homeTeam && ms[i + 1].awayTeam == ms[i].awayTeam
            ==> PostMatchRow(ms, i, ByLabel, expected) == PreMatchRow(ms, i + 1, ByGoals, expected)
  {
    var init := InitializeElo(ms);
    ScoringsAgree(init, ms, 0, i + 1, expected);
  }

  /** A row whose label is not H, D or A counts as an away win in
      `compute_elo`, even when its goals say otherwise. */
  lemma UnknownLabelIsAwayWin(m: Match)
    requires m.ftr == Other
    ensures ActualScore(m, ByLabel) == 0.0
    ensures m.fthg == m.ftag ==> ActualScore(m, ByGoals) == 0.5
  {
  }
}
