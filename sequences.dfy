/**
 * Facts about sequences that the model uses at several element types,
 * proved once for any element type.
 */
module Sequences {

  lemma ConcatAssoc<T>(x: seq<T>, y: seq<T>, z: seq<T>)
    ensures (x + y) + z == x + (y + z)
  {
  }

  /** The front of a concatenation is its left operand. */
  lemma TakeConcat<T>(x: seq<T>, y: seq<T>)
    ensures (x + y)[..|x|] == x
    ensures y != [] ==> (x + y)[|x|] == y[0]
  {
  }

  /** Dropping the last element of a concatenation drops it from the right operand. */
  lemma DropLastConcat<T>(x: seq<T>, y: seq<T>)
    requires y != []
    ensures (x + y)[..|x + y| - 1] == x + y[..|y| - 1]
    ensures (x + y)[|x + y| - 1] == y[|y| - 1]
  {
  }

  /** A non-empty sequence is its front followed by its last element. */
  lemma SplitLast<T>(x: seq<T>)
    requires x != []
    ensures x == x[..|x| - 1] + [x[|x| - 1]]
  {
  }

  /** Taking one more element of a sequence appends that element. */
  lemma TakeStep<T>(x: seq<T>, i: nat)
    requires i < |x|
    ensures x[..i + 1] == x[..i] + [x[i]]
    ensures x[..i + 1][..i] == x[..i]
  {
  }
}
