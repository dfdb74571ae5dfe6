/** What several components need. */
module Basics {

  datatype Option<T> = None | Some(value: T)

  function Pow2(k: nat): nat {
    if k == 0 then 1 else 2 * Pow2(k - 1)
  }

  lemma {:induction false} Pow2Grows(j: nat, k: nat)
    requires j <= k
    ensures 1 <= Pow2(j) <= Pow2(k)
    decreases k
  {
    if j < k {
      Pow2Grows(j, k - 1);
    } else if k > 0 {
      Pow2Grows(j - 1, k - 1);
    }
  }
}
