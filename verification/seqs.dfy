/** Small facts about sequence concatenation, stated once for every module that needs them. */
module Seqs {
  lemma AppendAssoc<T>(x: seq<T>, y: seq<T>, z: seq<T>)
    ensures x + (y + z) == (x + y) + z
  {
  }

  /** The head and the rest of a concatenation whose first part is not empty. */
  lemma DropAppend<T>(x: seq<T>, y: seq<T>)
    requires x != []
    ensures (x + y)[0] == x[0] && (x + y)[1..] == x[1..] + y
  {
  }

  /** Cutting one element out of a sequence takes exactly that element out of its multiset. */
  lemma MultisetCut<T>(before: seq<T>, x: T, after: seq<T>)
    ensures multiset(before + after) == multiset(before + [x] + after) - multiset{x}
  {
    calc {
      multiset(before + [x] + after);
      multiset(before + [x]) + multiset(after);
      multiset(before) + multiset{x} + multiset(after);
    }
  }
}
