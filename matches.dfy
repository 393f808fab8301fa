/** The match record that the feature engine replays, and the facts about
    which teams take part in a sequence of matches. */
module Matches {
  import opened Common

  /** The `FTR` column: 'H', 'D', 'A', or any other value (a typo, an empty
      cell) which the feature code treats case by case. */
  datatype Ftr = H | D | A | Other

  /** One row of the combined match table, after missing numeric cells were
      filled with 0. `date` is the `Date` column as a day number. */
  datatype Match = Match(
    date: int,
    homeTeam: string,
    awayTeam: string,
    fthg: int,
    ftag: int,
    ftr: Ftr,
    shotsHome: int,
    shotsAway: int,
    shotsOnTargetHome: int,
    shotsOnTargetAway: int)

  /** The base rating every team starts from, and the Elo K-factor. */
  const BaseRating: real := 1500.0
  const K: real := 20.0

  predicate Plays(m: Match, t: string) {
    m.homeTeam == t || m.awayTeam == t
  }

  ghost predicate AppearsIn(ms: seq<Match>, t: string) {
    exists j :: 0 <= j < |ms| && Plays(ms[j], t)
  }

  predicate Distinct(ts: seq<string>) {
    forall i, j :: 0 <= i < j < |ts| ==> ts[i] != ts[j]
  }

  /** The table is in date order: the precondition under which rest days and
      the replay order mean what the feature code intends. */
  predicate SortedByDate(ms: seq<Match>) {
    forall i, j :: 0 <= i < j < |ms| ==> ms[i].date <= ms[j].date
  }

  function AddNew(ts: seq<string>, t: string): (r: seq<string>)
    ensures Distinct(ts) ==> Distinct(r)
    ensures t in r
    ensures forall u :: u in ts ==> u in r
    ensures forall u :: u in r ==> u in ts || u == t
  {
    if t in ts then ts else ts + [t]
  }

  /** `pd.unique` of the HomeTeam and AwayTeam columns: every team that plays
      in the table, each once, in order of first appearance. */
  function Teams(ms: seq<Match>): (ts: seq<string>)
    ensures Distinct(ts)
    ensures forall m :: m in ms ==> m.homeTeam in ts && m.awayTeam in ts
  {
    if ms == [] then []
    else
      var prev := ms[..|ms| - 1];
      var m := ms[|ms| - 1];
      assert ms == prev + [m];
      AddNew(AddNew(Teams(prev), m.homeTeam), m.awayTeam)
  }

  /** Conversely, nothing but the table's own teams is listed. */
  lemma {:induction false} TeamsAppear(ms: seq<Match>, t: string)
    requires t in Teams(ms)
    ensures AppearsIn(ms, t)
  {
    var prev := ms[..|ms| - 1];
    var m := ms[|ms| - 1];
    var pt := Teams(prev);
    assert Teams(ms) == AddNew(AddNew(pt, m.homeTeam), m.awayTeam);
    if t in pt {
      TeamsAppear(prev, t);
      var j :| 0 <= j < |prev| && Plays(prev[j], t);
      assert ms[j] == prev[j];
    } else {
      assert t == m.homeTeam || t == m.awayTeam;
      assert Plays(ms[|ms| - 1], t);
    }
  }

  /** Every team of the table has an entry in `m`. */
  predicate Covers<V>(m: map<string, V>, ms: seq<Match>) {
    forall j :: 0 <= j < |ms| ==> ms[j].homeTeam in m && ms[j].awayTeam in m
  }

  /** A per-team dictionary holding `v` for every team of the table, as the
      feature code builds `elo_dict` and `rolling_stats` from the unique team
      names: setting both teams of every row to `v` in turn gives the same map. */
  function TeamMap<V>(ms: seq<Match>, v: V): (r: map<string, V>)
    ensures Covers(r, ms)
  {
    if ms == [] then map[]
    else
      var prev := ms[..|ms| - 1];
      var m := ms[|ms| - 1];
      assert forall j :: 0 <= j < |prev| ==> prev[j] == ms[j];
      TeamMap(prev, v)[m.homeTeam := v][m.awayTeam := v]
  }

  /** Its keys are exactly the unique team names of the table. */
  lemma {:induction false} TeamMapKeys<V>(ms: seq<Match>, v: V)
    ensures forall t :: t in TeamMap(ms, v) <==> t in Teams(ms)
  {
    if ms != [] {
      TeamMapKeys(ms[..|ms| - 1], v);
    }
  }

  /** Every entry holds `v`. */
  lemma {:induction false} TeamMapValues<V>(ms: seq<Match>, v: V)
    ensures forall t :: t in TeamMap(ms, v) ==> TeamMap(ms, v)[t] == v
  {
    if ms != [] {
      TeamMapValues(ms[..|ms| - 1], v);
    }
  }

  /** `result_to_label`: H -> 0, D -> 1, A -> 2, anything else -> NaN. */
  function ResultToLabel(r: Ftr): (code: Option<nat>)
    ensures code.Some? <==> r != Other
    ensures code.Some? ==> code.value < 3
  {
    match r
    case H => Some(0)
    case D => Some(1)
    case A => Some(2)
    case Other => None
  }

  /** The result code a label stands for (the inverse of `ResultToLabel`). */
  function LabelToResult(code: nat): (r: Ftr)
    ensures code < 3 <==> r != Other
  {
    if code == 0 then H else if code == 1 then D else if code == 2 then A else Other
  }

  /** The label encoding is a bijection between {H, D, A} and {0, 1, 2}. */
  lemma LabelRoundTrip(r: Ftr, code: nat)
    ensures r != Other ==> LabelToResult(ResultToLabel(r).value) == r
    ensures code < 3 ==> ResultToLabel(LabelToResult(code)) == Some(code)
  {
  }

  /** The `FTR` code that agrees with the score. */
  function FtrOfScore(fthg: int, ftag: int): (r: Ftr)
    ensures r != Other
    ensures r == H <==> fthg > ftag
    ensures r == A <==> fthg < ftag
  {
    if fthg > ftag then H else if fthg < ftag then A else D
  }

  /** The row's explicit result label agrees with its goals. */
  predicate ConsistentResult(m: Match) {
    m.ftr == FtrOfScore(m.fthg, m.ftag)
  }
}
