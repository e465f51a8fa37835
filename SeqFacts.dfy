/**
 * Regrouping of sequence concatenations, used where a console log built
 * line by line is compared with the whole list of lines a module logs.
 */
module SeqFacts {

  lemma AppendThree<T>(s: seq<T>, a: seq<T>, b: seq<T>)
    ensures s + a + b == s + (a + b)
  {
  }

  lemma AppendFour<T>(s: seq<T>, a: seq<T>, b: seq<T>, c: seq<T>, d: seq<T>)
    ensures s + a + b + c + d == s + (a + b + c + d)
  {
  }
}
