/**
 * Facts about splitting and joining sequences, stated once for any element
 * type so that proofs about streams of logs can cite them.
 */
module Seqs {
  /** A non-empty sequence is its front followed by its last element. */
  lemma SplitLast<T>(s: seq<T>)
    requires s != []
    ensures s == s[..|s| - 1] + [s[|s| - 1]]
  {
  }

  /** A non-empty sequence is its first element followed by the rest. */
  lemma SplitFirst<T>(s: seq<T>)
    requires s != []
    ensures s == [s[0]] + s[1..]
  {
  }

  /** A sequence is what comes before position `j`, the element there, and what comes after. */
  lemma SplitAt<T>(s: seq<T>, j: nat)
    requires j < |s|
    ensures s == s[..j] + ([s[j]] + s[j + 1..])
    ensures s == (s[..j] + [s[j]]) + s[j + 1..]
  {
  }

  /** Indexing into a concatenation reads from whichever part holds the position. */
  lemma ConcatIndex<T>(a: seq<T>, b: seq<T>, k: nat)
    requires k < |a| + |b|
    ensures (a + b)[k] == if k < |a| then a[k] else b[k - |a|]
  {
  }

  lemma AppendAssoc<T>(a: seq<T>, b: seq<T>, c: seq<T>)
    ensures (a + b) + c == a + (b + c)
  {
  }

  /** The head and tail of `xs + ys` when `xs` is non-empty. */
  lemma ConcatFirst<T>(xs: seq<T>, ys: seq<T>)
    requires xs != []
    ensures (xs + ys)[0] == xs[0] && (xs + ys)[1..] == xs[1..] + ys
  {
  }

  lemma ConcatEmpty<T>(xs: seq<T>)
    ensures xs + [] == xs && [] + xs == xs
  {
  }

  /** Dropping the last element of `xs + ys`, when `ys` has one, drops it from `ys`. */
  lemma ConcatLast<T>(xs: seq<T>, ys: seq<T>)
    requires ys != []
    ensures (xs + ys)[..|xs + ys| - 1] == xs + ys[..|ys| - 1]
    ensures (xs + ys)[|xs + ys| - 1] == ys[|ys| - 1]
  {
  }

  /** Moving a block `a` into the middle of a permutation of `b + c` keeps a permutation. */
  lemma MultisetShuffle<T>(a: seq<T>, r: seq<T>, b: seq<T>, c: seq<T>)
    requires multiset(r) == multiset(b + c)
    ensures multiset(a + r) == multiset(b + (a + c))
  {
    calc {
      multiset(a + r);
      multiset(a) + multiset(r);
      multiset(a) + multiset(b) + multiset(c);
      multiset(b) + multiset(a + c);
      multiset(b + (a + c));
    }
  }

  /** Removing the first element of `xs` and a copy of it from `ys` keeps two permutations permutations. */
  lemma RemoveMatched<T>(xs: seq<T>, ys: seq<T>, j: nat)
    requires multiset(xs) == multiset(ys)
    requires xs != [] && j < |ys| && ys[j] == xs[0]
    ensures multiset(xs[1..]) == multiset(ys[..j] + ys[j + 1..])
  {
    var x, y1, y2 := xs[0], ys[..j], ys[j + 1..];
    SplitFirst(xs);
    SplitAt(ys, j);
    assert multiset(ys) == multiset(y1) + multiset{x} + multiset(y2);
    assert multiset(xs) == multiset{x} + multiset(xs[1..]);
    calc {
      multiset(xs[1..]);
      multiset(xs) - multiset{x};
      multiset(ys) - multiset{x};
      (multiset(y1) + multiset(y2) + multiset{x}) - multiset{x};
      multiset(y1) + multiset(y2);
      multiset(y1 + y2);
    }
  }
}
