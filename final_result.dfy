/** The final prediction: the position of the largest of the three
    probabilities (Away, Draw, Home), found with `max` and `list.index`, is
    looked up in `label_map` to name the winner. */
module FinalResult {
  import opened Common

  /** `label_map = {0: "Away", 1: "Draw", 2: "Home"}`; a missing key (a
      `KeyError`) is None. */
  function LabelMap(i: int): (w: Option<Winner>)
    ensures w.Some? <==> 0 <= i < 3
  {
    if i == 0 then Some(Away) else if i == 1 then Some(Draw) else if i == 2 then Some(Home) else None
  }

  /** The key `label_map` gives to each outcome. */
  function LabelIndex(w: Winner): (i: nat)
    ensures i < 3
  {
    match w
    case Away => 0
    case Draw => 1
    case Home => 2
  }

  /** `label_map` is a bijection between {0, 1, 2} and the three outcomes. */
  lemma LabelMapRoundTrip(w: Winner, i: int)
    ensures LabelMap(LabelIndex(w)) == Some(w)
    ensures 0 <= i < 3 ==> LabelIndex(LabelMap(i).value) == i
  {
  }

  /** `max(probabilities)`: an entry no other entry exceeds. */
  function MaxOf(ps: seq<real>): (m: real)
    requires |ps| > 0
    ensures m in ps
    ensures forall j :: 0 <= j < |ps| ==> ps[j] <= m
  {
    if |ps| == 1 then ps[0]
    else
      var rest := MaxOf(ps[1..]);
      if ps[0] >= rest then ps[0] else rest
  }

  /** `probabilities.index(v)`: the first position holding v. */
  function IndexOf(ps: seq<real>, v: real): (i: nat)
    requires v in ps
    ensures i < |ps| && ps[i] == v
    ensures forall j :: 0 <= j < i ==> ps[j] != v
  {
    if ps[0] == v then 0 else 1 + IndexOf(ps[1..], v)
  }

  /** The outcome and its probability, `predicted_winner` and
      `winning_percentage`. */
  datatype Prediction = Prediction(winner: Winner, percentage: real)

  /** Sections 5.2 and 5.3 of the final step. An empty list (`max` raises)
      and a largest entry past position 2 (`label_map` raises) give None.
      With one to three probabilities there is always a prediction; its
      outcome's position holds the largest entry, every earlier position a
      strictly smaller one (ties go to the lowest position), and its
      percentage is that largest entry. */
  function FinalPrediction(ps: seq<real>): (r: Option<Prediction>)
    ensures 0 < |ps| <= 3 ==> r.Some?
    ensures r.Some? ==>
              var k := LabelIndex(r.value.winner);
              k < |ps| && r.value.percentage == ps[k]
              && (forall j :: 0 <= j < |ps| ==> ps[j] <= ps[k])
              && (forall j :: 0 <= j < k ==> ps[j] < ps[k])
  {
    if |ps| == 0 then None
    else
      var maxIndex := IndexOf(ps, MaxOf(ps));
      var w := LabelMap(maxIndex);
      if w.Some? then
        LabelMapRoundTrip(w.value, maxIndex);
        Some(Prediction(w.value, ps[maxIndex]))
      else None
  }

  /** A longer list whose first largest entry lies past position 2 has no
      label, and an empty list has no maximum. */
  lemma FinalPredictionUndefined(ps: seq<real>)
    ensures FinalPrediction(ps).None? <==> |ps| == 0 || IndexOf(ps, MaxOf(ps)) >= 3
  {
  }

  /** The hard-coded `[20, 3, 77]` predicts a home win at 77. */
  lemma HardCodedExample()
    ensures FinalPrediction([20.0, 3.0, 77.0]) == Some(Prediction(Home, 77.0))
  {
    var ps := [20.0, 3.0, 77.0];
    assert ps[1..] == [3.0, 77.0] && ps[1..][1..] == [77.0];
    assert MaxOf(ps) == 77.0;
    assert IndexOf(ps, 77.0) == 2;
  }
}
