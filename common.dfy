/** Small value types shared by every stage of the pipeline. */
module Common {

  /** A value that may be missing. `None` stands for the NaN (or other
      non-finite float) that pandas and numpy produce for an undefined
      feature, so "undefined" is never confused with zero. */
  datatype Option<+T> = None | Some(value: T)

  /** The three match outcomes, as the labels "Home", "Draw" and "Away"
      used by the modelling, final-result and dashboard stages. */
  datatype Winner = Home | Draw | Away

  /** Concatenation of sequences is associative. */
  lemma AppendAssoc<T>(a: seq<T>, b: seq<T>, c: seq<T>)
    ensures a + (b + c) == (a + b) + c
  {
  }
}
