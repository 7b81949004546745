/** Small facts about sequences that the proofs elsewhere use as steps. */
module Sequences {

  /** Concatenation regroups. */
  lemma Associative<T>(x: seq<T>, y: seq<T>, z: seq<T>)
    ensures x + (y + z) == (x + y) + z
  {
  }

  /** The head and tail of a concatenation with a non-empty left part. */
  lemma TailOfConcat<T>(a: seq<T>, b: seq<T>)
    requires a != []
    ensures (a + b)[0] == a[0] && (a + b)[1..] == a[1..] + b
  {
  }

  /** Extending a run by the next element of `s`. */
  lemma TakeOneMore<T>(done: seq<T>, s: seq<T>, j: nat)
    requires j <= |s|
    ensures j == 0 ==> done + s[..j] == done
    ensures j < |s| ==> done + s[..j + 1] == (done + s[..j]) + [s[j]]
  {
    if j == |s| { return; }
    assert s[..j + 1] == s[..j] + [s[j]];
  }
}
