/** Bytes, machine words and optional values, as the other modules use them. */
module Basics {
  newtype Byte = x: int | 0 <= x < 256

  type Bytes = seq<Byte>

  /** 2^64: machine words are naturals below it. */
  const WORD: nat := 0x1_0000_0000_0000_0000

  /** A property that every step from i to j keeps. */
  lemma {:induction false} StepByStep(p: nat -> bool, i: nat, j: nat)
    requires i <= j && p(i) && forall k :: i <= k < j && p(k) ==> p(k + 1)
    ensures p(j)
  {
    if i < j { StepByStep(p, i, j - 1); }
  }

  datatype Maybe<T> = None | Some(value: T)
}
