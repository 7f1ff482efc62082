/** Facts about sequences that several modules use. */
module SeqFacts {

  /**
   * Concatenation is associative. Stated on its own so that a proof that
   * needs it does not pay for sequence extensionality in a large context.
   */
  lemma ConcatAssoc<T>(a: seq<T>, b: seq<T>, c: seq<T>)
    ensures a + b + c == a + (b + c)
  {
  }
}
