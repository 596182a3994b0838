/** Small facts about counts and measures. */
module Counting {
  function Bit(b: bool): nat { if b then 1 else 0 }

  /** A measure that falls with every step once `live` is off bounds the number of steps. */
  lemma {:induction false} Descends(live: seq<bool>, measure: seq<nat>, i: nat, j: nat)
    requires |live| == |measure| && i <= j < |live| && !live[i]
    requires forall k :: 0 <= k < |live| - 1 && !live[k] ==> !live[k + 1] && measure[k + 1] < measure[k]
    ensures !live[j] && j - i + measure[j] <= measure[i]
    decreases j
  {
    if i < j {
      Descends(live, measure, i, j - 1);
      assert !live[j - 1 + 1] && measure[j - 1 + 1] < measure[j - 1];
    }
  }
}
