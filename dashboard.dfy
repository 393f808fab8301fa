/** The decision logic of the dashboard: the background filter applied to the
    club logos, the sum-to-100 correction of the simulated fallback, and the
    mapping of the final step's probabilities onto the two clubs. */
module Dashboard {
  import opened Common
  import FinalResult

  /** One 8-bit colour channel. */
  type Channel = x: int | 0 <= x < 256

  /** An RGBA pixel, as `img.getdata()` yields it after `convert("RGBA")`. */
  datatype Pixel = Pixel(r: Channel, g: Channel, b: Channel, a: Channel)

  /** `(255, 255, 255, 0)`: fully transparent white. */
  const Clear: Pixel := Pixel(255, 255, 255, 0)

  function Abs(x: int): nat {
    if x < 0 then -x else x
  }

  /** `is_background`: pure white, a light grey whose channels lie within 10
      of each other, or a very light colour such as beige. */
  predicate IsBackground(p: Pixel) {
    (p.r > 240 && p.g > 240 && p.b > 240)
    || (Abs(p.r - p.g) < 10 && Abs(p.g - p.b) < 10 && Abs(p.r - p.b) < 10 && p.r > 200)
    || (p.r > 230 && p.g > 230 && p.b > 220)
  }

  /** The pixel the loop appends for `item`. */
  function Cleaned(p: Pixel): Pixel {
    if IsBackground(p) then Clear else p
  }

  /** `make_background_transparent(img)`: one output pixel per input pixel,
      in the same order; background pixels become transparent white and the
      rest are kept, alpha included. */
  method MakeBackgroundTransparent(data: seq<Pixel>) returns (newData: seq<Pixel>)
    ensures |newData| == |data|
    ensures forall i :: 0 <= i < |data| ==> newData[i] == Cleaned(data[i])
  {
    newData := [];
    for i := 0 to |data|
      invariant |newData| == i
      invariant forall j :: 0 <= j < i ==> newData[j] == Cleaned(data[j])
    {
      var item := data[i];
      if IsBackground(item) {
        newData := newData + [Clear];
      } else {
        newData := newData + [item];
      }
    }
  }

  /** Each of the three tests alone makes a pixel transparent white. */
  lemma BackgroundTests(p: Pixel)
    ensures p.r > 240 && p.g > 240 && p.b > 240 ==> Cleaned(p) == Clear
    ensures Abs(p.r - p.g) < 10 && Abs(p.g - p.b) < 10 && Abs(p.r - p.b) < 10 && p.r > 200
            ==> Cleaned(p) == Clear
    ensures p.r > 230 && p.g > 230 && p.b > 220 ==> Cleaned(p) == Clear
  {
  }

  /** Only light pixels are ever removed: a background pixel has red above
      200 and green and blue above 190, so anything darker is kept. */
  lemma BackgroundIsLight(p: Pixel)
    ensures IsBackground(p) ==> p.r > 200 && p.g > 190 && p.b > 190
    ensures p.r <= 200 || p.g <= 190 || p.b <= 190 ==> Cleaned(p) == p
  {
  }

  /** Every output alpha is 0 or the input's alpha, and a pixel is either kept
      whole or replaced whole. */
  lemma AlphaClearedOrKept(p: Pixel)
    ensures Cleaned(p).a == 0 || Cleaned(p).a == p.a
    ensures Cleaned(p) == p || Cleaned(p) == Clear
  {
  }

  /** Filtering twice gives what filtering once gives: transparent white is
      itself background. */
  lemma CleanedIdempotent(p: Pixel)
    ensures Cleaned(Cleaned(p)) == Cleaned(p)
  {
    assert IsBackground(Clear);
  }

  // ---------------------------------------------------------------------
  // The three percentages shown for the match

  /** The dictionary the dashboard reads: Arsenal (home), draw, Man Utd (away). */
  datatype Predictions = Predictions(arsenal: int, draw: int, manutd: int)

  /** The fallback `simulate_ml_model` once its three random shares have been
      rounded to r0, r1, r2: the first entry absorbs the rounding error. */
  method SimulateMlModel(r0: int, r1: int, r2: int) returns (p: Predictions)
    ensures p.arsenal + p.draw + p.manutd == 100
    ensures p.draw == r1 && p.manutd == r2
  {
    var probabilities := new int[3];
    probabilities[0], probabilities[1], probabilities[2] := r0, r1, r2;
    var diff := 100 - (probabilities[0] + probabilities[1] + probabilities[2]);
    probabilities[0] := probabilities[0] + diff;
    p := Predictions(probabilities[0], probabilities[1], probabilities[2]);
  }

  /** The share a prediction gives to one outcome: the home win is
      Arsenal's, the away win Man Utd's. */
  function ShareOf(p: Predictions, w: Winner): int {
    match w
    case Home => p.arsenal
    case Draw => p.draw
    case Away => p.manutd
  }

  /** `load_predictions_from_pipeline` on the final step's list, with
      `round` passed in: Arsenal from position 2, the draw from 1, Man Utd
      from 0. A list shorter than three raises, and the fallbacks taken then
      are not part of this model: None. */
  function LoadPredictionsFromPipeline(ps: seq<real>, round: real -> int): (r: Option<Predictions>)
    ensures r.Some? <==> |ps| >= 3
  {
    if |ps| >= 3 then Some(Predictions(round(ps[2]), round(ps[1]), round(ps[0]))) else None
  }

  /** The mapping agrees with the final step's `label_map`: the outcome that
      position k names gets the rounded entry k, and the predicted winner gets
      its rounded winning percentage. */
  lemma PipelineMatchesLabelMap(ps: seq<real>, round: real -> int)
    requires |ps| >= 3
    ensures var r := LoadPredictionsFromPipeline(ps, round).value;
            forall k :: 0 <= k < 3 ==> ShareOf(r, FinalResult.LabelMap(k).value) == round(ps[k])
    ensures var r := LoadPredictionsFromPipeline(ps, round).value;
            var f := FinalResult.FinalPrediction(ps);
            f.Some? ==> ShareOf(r, f.value.winner) == round(f.value.percentage)
  {
    var f := FinalResult.FinalPrediction(ps);
    if f.Some? {
      var i := FinalResult.IndexOf(ps, FinalResult.MaxOf(ps));
      FinalResult.LabelMapRoundTrip(f.value.winner, i);
    }
  }
}
