/** The few facts about concatenation that long proofs would otherwise find again and again. */
module Sequences {
  lemma Reassociate<T>(a: seq<T>, b: seq<T>, c: seq<T>)
    ensures a + b + c == a + (b + c)
  {
  }

  lemma Regroup<T>(a: seq<T>, x: T, b: seq<T>)
    ensures a + [x] + b == a + ([x] + b)
  {
  }

  lemma NothingAdded<T>(a: seq<T>)
    ensures a + [] == a && [] + a == a
  {
  }

  /** All but the first, and all but the last, of two sequences put together. */
  lemma TailOf<T>(a: seq<T>, b: seq<T>)
    ensures a != [] ==> (a + b)[1..] == a[1..] + b && (a + b)[0] == a[0]
    ensures b != [] ==> (a + b)[..|a + b| - 1] == a + b[..|b| - 1] && (a + b)[|a + b| - 1] == b[|b| - 1]
  {
  }
}
