/** Bookmaker odds as features. When the table has all three Bet365 columns,
    each decimal price is inverted and the three inverses are divided by their
    sum, which removes the bookmaker's margin; `add_bookmaker_probs` adds the
    plain inverse of every Bet365 column that exists. Columns are
    floating-point and pandas divides them element-wise, so a zero price
    gives an infinity and a missing price a NaN that spreads. */
module Odds {

  /** A floating-point cell: a finite value, an infinity, or NaN (a missing
      price reads as NaN). Rounding is not modelled: finite values are exact. */
  datatype Float = Finite(v: real) | Infinity(positive: bool) | NaN

  /** IEEE division: x / 0 is an infinity with x's sign, 0 / 0 and inf / inf
      are NaN, a finite value over an infinity is 0. */
  function Div(x: Float, y: Float): Float {
    match (x, y)
    case (NaN, _) => NaN
    case (_, NaN) => NaN
    case (Infinity(_), Infinity(_)) => NaN
    case (Finite(_), Infinity(_)) => Finite(0.0)
    case (Infinity(s), Finite(w)) => Infinity(if w < 0.0 then !s else s)
    case (Finite(a), Finite(w)) =>
      if w != 0.0 then Finite(a / w)
      else if a > 0.0 then Infinity(true)
      else if a < 0.0 then Infinity(false)
      else NaN
  }

  /** IEEE addition: NaN spreads, infinities of opposite signs give NaN. */
  function Add(x: Float, y: Float): Float {
    match (x, y)
    case (NaN, _) => NaN
    case (_, NaN) => NaN
    case (Infinity(s), Infinity(t)) => if s == t then x else NaN
    case (Infinity(_), Finite(_)) => x
    case (Finite(_), Infinity(_)) => y
    case (Finite(a), Finite(b)) => Finite(a + b)
  }

  /** `1 / price` */
  function Reciprocal(x: Float): Float {
    Div(Finite(1.0), x)
  }

  /** The three normalised implied probabilities of one row. */
  datatype Implied = Implied(home: Float, draw: Float, away: Float)

  /** Three finite, strictly positive prices. */
  predicate PositivePrices(h: Float, d: Float, a: Float) {
    h.Finite? && d.Finite? && a.Finite? && h.v > 0.0 && d.v > 0.0 && a.v > 0.0
  }

  /** One row of the normalisation: the three inverses, their sum taken home
      + draw + away, and each inverse divided by that sum. Positive prices
      give three finite shares strictly between 0 and 1 that sum to exactly
      1; a missing price makes the sum NaN and so the whole row NaN. */
  function Normalise(h: Float, d: Float, a: Float): (r: Implied)
    ensures PositivePrices(h, d, a) ==>
              r.home.Finite? && r.draw.Finite? && r.away.Finite?
              && r.home.v + r.draw.v + r.away.v == 1.0
              && 0.0 < r.home.v < 1.0 && 0.0 < r.draw.v < 1.0 && 0.0 < r.away.v < 1.0
    ensures h == NaN || d == NaN || a == NaN ==> r == Implied(NaN, NaN, NaN)
  {
    var ph, pd, pa := Reciprocal(h), Reciprocal(d), Reciprocal(a);
    var total := Add(Add(ph, pd), pa);
    var r := Implied(Div(ph, total), Div(pd, total), Div(pa, total));
    if PositivePrices(h, d, a) then
      var x, y, z := 1.0 / h.v, 1.0 / d.v, 1.0 / a.v;
      assert ph == Finite(x) && pd == Finite(y) && pa == Finite(z);
      assert x > 0.0 && y > 0.0 && z > 0.0;
      assert total == Finite(x + y + z);
      Shares(x, y, z);
      assert r == Implied(Finite(x / (x + y + z)), Finite(y / (x + y + z)), Finite(z / (x + y + z)));
      r
    else r
  }

  /** With three positive prices each probability is its price's inverse
      scaled by one common factor, and a lower price gives a strictly higher
      probability. */
  lemma NormalisePositive(h: real, d: real, a: real)
    requires h > 0.0 && d > 0.0 && a > 0.0
    ensures var p := Normalise(Finite(h), Finite(d), Finite(a));
            p.home.Finite? && p.draw.Finite? && p.away.Finite?
            && p.home.v * h == p.draw.v * d == p.away.v * a
            && (h < d <==> p.home.v > p.draw.v) && (d < a <==> p.draw.v > p.away.v)
            && (h < a <==> p.home.v > p.away.v)
  {
    var ph, pd, pa := 1.0 / h, 1.0 / d, 1.0 / a;
    var total := ph + pd + pa;
    assert Normalise(Finite(h), Finite(d), Finite(a))
        == Implied(Finite(ph / total), Finite(pd / total), Finite(pa / total));
    InverseScaled(h, total);
    InverseScaled(d, total);
    InverseScaled(a, total);
    InverseOrder(h, d, total);
    InverseOrder(d, a, total);
    InverseOrder(h, a, total);
  }

  /** Three positive weights over their sum are shares: each strictly between
      0 and 1, together exactly 1. */
  lemma Shares(x: real, y: real, z: real)
    requires x > 0.0 && y > 0.0 && z > 0.0
    ensures var t := x + y + z;
            x / t + y / t + z / t == 1.0
            && 0.0 < x / t < 1.0 && 0.0 < y / t < 1.0 && 0.0 < z / t < 1.0
  {
    var t := x + y + z;
    assert x / t + y / t + z / t == (x + y + z) / t;
    Share(x, t);
    Share(y, t);
    Share(z, t);
  }

  lemma Share(x: real, t: real)
    requires 0.0 < x < t
    ensures 0.0 < x / t < 1.0
  {
    assert x / t == x * (1.0 / t);
    assert 1.0 == t * (1.0 / t);
    assert x * (1.0 / t) < t * (1.0 / t);
  }

  /** A scaled inverse times its price is the common factor. */
  lemma InverseScaled(x: real, total: real)
    requires x > 0.0 && total > 0.0
    ensures (1.0 / x) / total * x == 1.0 / total
  {
  }

  /** Scaled inverses reverse the order of two positive prices. */
  lemma InverseOrder(x: real, y: real, total: real)
    requires x > 0.0 && y > 0.0 && total > 0.0
    ensures x < y <==> (1.0 / x) / total > (1.0 / y) / total
  {
    if x < y {
      assert 1.0 / x > 1.0 / y;
    } else {
      assert 1.0 / x <= 1.0 / y;
    }
  }

  /** A zero home price has an infinite inverse: the home probability is
      inf / inf = NaN and the other two are finite / inf = 0. */
  lemma NormaliseZeroHomePrice(d: real, a: real)
    requires d > 0.0 && a > 0.0
    ensures Normalise(Finite(0.0), Finite(d), Finite(a)) == Implied(NaN, Finite(0.0), Finite(0.0))
  {
  }

  // ---------------------------------------------------------------------
  // The columns of the table

  /** The numeric columns of the table, by name. */
  type Frame = map<string, seq<Float>>

  const HomeOdds: string := "B365H"
  const DrawOdds: string := "B365D"
  const AwayOdds: string := "B365A"

  /** `['B365H', 'B365D', 'B365A']` */
  const BookmakerColumns: seq<string> := [HomeOdds, DrawOdds, AwayOdds]

  predicate HasAllOdds(df: Frame) {
    HomeOdds in df && DrawOdds in df && AwayOdds in df
  }

  /** The odds normalisation: the three `odds_*_prob` columns, added only
      when all three price columns exist. */
  function AddOddsProbs(df: Frame): (r: Frame)
    requires HasAllOdds(df) ==> |df[HomeOdds]| == |df[DrawOdds]| == |df[AwayOdds]|
    ensures !HasAllOdds(df) ==> r == df
    ensures HasAllOdds(df) ==>
      var n := |df[HomeOdds]|;
      && r.Keys == df.Keys + {"odds_home_prob", "odds_draw_prob", "odds_away_prob"}
      && |r["odds_home_prob"]| == n && |r["odds_draw_prob"]| == n && |r["odds_away_prob"]| == n
      && (forall i :: 0 <= i < n ==>
            Implied(r["odds_home_prob"][i], r["odds_draw_prob"][i], r["odds_away_prob"][i])
            == Normalise(df[HomeOdds][i], df[DrawOdds][i], df[AwayOdds][i]))
    ensures forall c :: c in df && c !in {"odds_home_prob", "odds_draw_prob", "odds_away_prob"} ==>
      c in r && r[c] == df[c]
  {
    if HasAllOdds(df) then
      var h, d, a := df[HomeOdds], df[DrawOdds], df[AwayOdds];
      var rows := seq(|h|, i requires 0 <= i < |h| => Normalise(h[i], d[i], a[i]));
      df["odds_home_prob" := seq(|h|, i requires 0 <= i < |h| => rows[i].home)]
        ["odds_draw_prob" := seq(|h|, i requires 0 <= i < |h| => rows[i].draw)]
        ["odds_away_prob" := seq(|h|, i requires 0 <= i < |h| => rows[i].away)]
    else df
  }

  /** `1 / df[col]`, element by element. */
  function Reciprocals(col: seq<Float>): (r: seq<Float>)
    ensures |r| == |col|
  {
    seq(|col|, i requires 0 <= i < |col| => Reciprocal(col[i]))
  }

  /** `col + '_prob'` */
  function ProbName(col: string): string {
    col + "_prob"
  }

  /** The loop of `add_bookmaker_probs` over `cols`, from the first: each
      column that exists gets its inverse column. */
  function WithReciprocals(df: Frame, cols: seq<string>): Frame
    decreases |cols|
  {
    if cols == [] then df
    else
      WithReciprocals(ReciprocalStep(df, cols[0]), cols[1..])
  }

  /** `add_bookmaker_probs(df)` */
  method AddBookmakerProbs(df: Frame) returns (r: Frame)
    ensures r == WithReciprocals(df, BookmakerColumns)
  {
    r := df;
    var cols := BookmakerColumns;
    for k := 0 to |cols|
      invariant WithReciprocals(r, cols[k..]) == WithReciprocals(df, cols)
    {
      assert cols[k..][1..] == cols[k + 1..];
      var col := cols[k];
      if col in r {
        r := r[ProbName(col) := Reciprocals(r[col])];
      }
    }
  }

  /** One pass of the loop of `add_bookmaker_probs`. */
  function ReciprocalStep(df: Frame, col: string): Frame {
    if col in df then df[ProbName(col) := Reciprocals(df[col])] else df
  }

  /** The six column names involved are pairwise different. */
  lemma ColumnNamesDistinct()
    ensures ProbName(HomeOdds) != ProbName(DrawOdds) && ProbName(HomeOdds) != ProbName(AwayOdds)
    ensures ProbName(DrawOdds) != ProbName(AwayOdds)
    ensures forall c, p :: c in BookmakerColumns && p in BookmakerColumns ==> ProbName(p) != c
  {
    assert ProbName(HomeOdds)[4] == 'H' && ProbName(DrawOdds)[4] == 'D' && ProbName(AwayOdds)[4] == 'A';
    forall c, p | c in BookmakerColumns && p in BookmakerColumns
      ensures ProbName(p) != c
    {
      assert |ProbName(p)| == |p| + 5;
    }
  }

  /** The loop over the three Bet365 columns, unrolled. */
  lemma BookmakerUnrolled(df: Frame)
    ensures WithReciprocals(df, BookmakerColumns)
         == ReciprocalStep(ReciprocalStep(ReciprocalStep(df, HomeOdds), DrawOdds), AwayOdds)
  {
    var r1 := ReciprocalStep(df, HomeOdds);
    var r2 := ReciprocalStep(r1, DrawOdds);
    var r3 := ReciprocalStep(r2, AwayOdds);
    assert BookmakerColumns[1..] == [DrawOdds, AwayOdds] && [DrawOdds, AwayOdds][1..] == [AwayOdds];
    assert WithReciprocals(r2, [AwayOdds]) == WithReciprocals(r3, []) == r3;
    assert WithReciprocals(r1, [DrawOdds, AwayOdds]) == WithReciprocals(r2, [AwayOdds]);
  }

  /** Every Bet365 column that exists gets a `_prob` column holding its
      inverses, and none is added for a missing price column. */
  lemma BookmakerProbsAdded(df: Frame)
    ensures var r := WithReciprocals(df, BookmakerColumns);
            forall c :: c in BookmakerColumns ==>
              (ProbName(c) in r <==> ProbName(c) in df || c in df)
              && (c in df ==> r[ProbName(c)] == Reciprocals(df[c]))
  {
    BookmakerUnrolled(df);
    ColumnNamesDistinct();
  }

  /** No other column is touched. */
  lemma BookmakerProbsKeepOthers(df: Frame)
    ensures var r := WithReciprocals(df, BookmakerColumns);
            forall c :: c in df && c !in {ProbName(HomeOdds), ProbName(DrawOdds), ProbName(AwayOdds)} ==>
              c in r && r[c] == df[c]
  {
    BookmakerUnrolled(df);
  }

  /** A decimal price of at least 1 has an inverse in (0, 1]. */
  lemma ReciprocalOfPrice(x: real)
    requires x >= 1.0
    ensures Reciprocal(Finite(x)).Finite? && 0.0 < Reciprocal(Finite(x)).v <= 1.0
  {
  }
}
