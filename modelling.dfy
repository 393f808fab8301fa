/** The training target of the modelling step: `get_winner` turns a row's
    full-time score into the label the classifier learns. */
module Modelling {
  import opened Common
  import opened Matches
  import Elo

  /** `get_winner(row)`: "Home" when the home side scored more, "Away" when
      it scored fewer, "Draw" otherwise. */
  function GetWinner(fthg: int, ftag: int): (w: Winner)
    ensures w == Home <==> fthg > ftag
    ensures w == Away <==> fthg < ftag
    ensures w == Draw <==> fthg == ftag
  {
    if fthg > ftag then Home
    else if fthg < ftag then Away
    else Draw
  }

  /** Swapping the two scores swaps Home and Away and keeps Draw. */
  lemma GetWinnerSwap(fthg: int, ftag: int)
    ensures GetWinner(ftag, fthg) == match GetWinner(fthg, ftag)
                                     case Home => Away
                                     case Away => Home
                                     case Draw => Draw
  {
  }

  /** The label agrees with the score `update_elo` derives from the goals:
      Home with 1, Draw with one half, Away with 0. */
  lemma GetWinnerAgreesWithElo(fthg: int, ftag: int)
    ensures GetWinner(fthg, ftag) == Home <==> Elo.GoalScore(fthg, ftag) == 1.0
    ensures GetWinner(fthg, ftag) == Draw <==> Elo.GoalScore(fthg, ftag) == 0.5
    ensures GetWinner(fthg, ftag) == Away <==> Elo.GoalScore(fthg, ftag) == 0.0
  {
  }

  /** The label agrees with the `FTR` code that the score implies. */
  lemma GetWinnerAgreesWithFtr(fthg: int, ftag: int)
    ensures var r := FtrOfScore(fthg, ftag);
            (GetWinner(fthg, ftag) == Home <==> r == H)
            && (GetWinner(fthg, ftag) == Draw <==> r == D)
            && (GetWinner(fthg, ftag) == Away <==> r == A)
  {
  }
}
