/** Model generations: tags handed out on the main thread, by which the audio thread tells a
    rebuild of the running model from a rebuild of one it has already replaced. */
module Generations {

  const U64_COUNT: nat := 0x1_0000_0000_0000_0000

  class Allocator {
    var counter: nat
    ghost var issued: seq<nat>    // the tags handed out so far

    /** The `k`-th call, counting from 1, returned `k` modulo the counter's range. */
    ghost predicate Valid()
      reads this
    {
      counter == |issued| % U64_COUNT && forall k :: 0 <= k < |issued| ==> issued[k] == (k + 1) % U64_COUNT
    }

    constructor ()
      ensures Valid() && issued == []
    {
      counter, issued := 0, [];
    }

    /** A wrapping 64-bit fetch-and-add; the tag is the new value. */
    method AllocateModelGeneration() returns (g: nat)
      requires Valid()
      modifies this
      ensures Valid() && issued == old(issued) + [g]
    {
      var before := counter;
      counter := (counter + 1) % U64_COUNT;
      g := (before + 1) % U64_COUNT;
      issued := issued + [g];
      NextCount(|old(issued)|);
    }
  }

  /** Counting on from a wrapped count is counting on. */
  lemma NextCount(n: nat)
    ensures (n % U64_COUNT + 1) % U64_COUNT == (n + 1) % U64_COUNT
  {}

  /** Two calls of an allocator get the same tag exactly when a whole round of the 64-bit counter
      lies between them, and the reserved tag 0 comes up exactly at the end of a round. */
  lemma TagsAreNotReused(a: Allocator, i: nat, j: nat)
    requires a.Valid() && i < j < |a.issued|
    ensures a.issued[i] == a.issued[j] <==> (j - i) % U64_COUNT == 0
    ensures a.issued[j] == 0 <==> (j + 1) % U64_COUNT == 0
  {
    var m, n := i + 1, j + 1;
    assert m == m / U64_COUNT * U64_COUNT + m % U64_COUNT;
    assert n == n / U64_COUNT * U64_COUNT + n % U64_COUNT;
    if m % U64_COUNT == n % U64_COUNT {
      assert j - i == (n / U64_COUNT - m / U64_COUNT) * U64_COUNT;
    }
  }
}
