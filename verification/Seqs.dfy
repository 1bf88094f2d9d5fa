/** Sequences without repetition. */
module Seqs {

  ghost predicate Distinct<T>(c: seq<T>) {
    c == [] || (c[0] !in c[1..] && Distinct(c[1..]))
  }

  lemma DistinctAt<T>(c: seq<T>, i: nat, j: nat)
    requires Distinct(c) && i < j < |c|
    ensures c[i] != c[j]
  {
    if i == 0 { assert c[j] == c[1..][j-1]; } else { DistinctAt(c[1..], i - 1, j - 1); }
  }

  /** The same by positions, for code that works on them. */
  ghost predicate NoRepeats<T>(c: seq<T>) { forall i, j | 0 <= i < j < |c| :: c[i] != c[j] }

  lemma DistinctIffNoRepeats<T>(c: seq<T>)
    ensures Distinct(c) <==> NoRepeats(c)
  {
    if Distinct(c) {
      forall i, j | 0 <= i < j < |c| ensures c[i] != c[j] { DistinctAt(c, i, j); }
    } else if c[0] !in c[1..] {
      DistinctIffNoRepeats(c[1..]);
      var i, j :| 0 <= i < j < |c[1..]| && c[1..][i] == c[1..][j];
      assert c[i+1] == c[j+1];
    }
  }

  lemma DistinctAppend<T>(c: seq<T>, x: T)
    requires Distinct(c) && x !in c
    ensures Distinct(c + [x])
  {
    if c == [] { assert c + [x] == [x]; }
    else { assert (c + [x])[1..] == c[1..] + [x]; DistinctAppend(c[1..], x); }
  }

  lemma DistinctPrefix<T>(c: seq<T>, n: nat)
    requires Distinct(c) && n <= |c|
    ensures Distinct(c[..n])
  {
    if n > 0 {
      DistinctPrefix(c[1..], n - 1);
      assert c[..n][1..] == c[1..][..n-1];
    }
  }

  lemma DistinctSuffix<T>(c: seq<T>, n: nat)
    requires Distinct(c) && n <= |c|
    ensures Distinct(c[n..])
  {
    if n > 0 {
      DistinctSuffix(c[1..], n - 1);
      assert c[1..][n-1..] == c[n..];
    }
  }

  lemma DistinctSplit<T>(c: seq<T>, n: nat, x: T)
    requires Distinct(c) && n <= |c| && x in c[..n]
    ensures x !in c[n..]
  {
    if c[0] == x {
      assert c[n..] == c[1..][n-1..];
    } else {
      assert c[..n] == [c[0]] + c[1..][..n-1];
      DistinctSplit(c[1..], n - 1, x);
      assert c[1..][n-1..] == c[n..];
    }
  }
}
