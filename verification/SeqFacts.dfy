/** Equalities between sequences, proved away from everything else, and a count of one. */
module SeqFacts {
  /** For counting. */
  function One(b: bool): nat {
    if b then 1 else 0
  }

  lemma Assoc<T>(a: seq<T>, b: seq<T>, c: seq<T>)
    ensures (a + b) + c == a + (b + c)
  {
  }

  lemma AppendNil<T>(a: seq<T>)
    ensures a + [] == a && [] + a == a
  {
  }

  lemma DropFirst<T>(a: seq<T>, b: seq<T>)
    ensures a != [] ==> (a + b)[1..] == a[1..] + b
    ensures a == [] ==> a + b == b
  {
  }

  lemma HeadTail<T>(a: seq<T>)
    ensures a != [] ==> a == [a[0]] + a[1..]
  {
  }

  /** Updating the last element of the left part. */
  lemma UpdateLast<T>(a: seq<T>, t: T, u: T, g: seq<T>)
    ensures (a + [t])[|a| := u] + g == a + ([u] + g)
  {
  }

  lemma TakeAll<T>(a: seq<T>)
    ensures a[..0] == [] && a[0..] == a && a[..|a|] == a
  {
  }

  /** Taking and dropping `n` elements, one of which is the first. */
  lemma TakeTail<T>(a: seq<T>, n: nat)
    requires 0 < n <= |a|
    ensures a[..n][1..] == a[1..][..n - 1] && a[n..] == a[1..][n - 1..] && a[..n][0] == a[0]
  {
  }

  lemma DropDrop<T>(a: seq<T>, i: nat, j: nat)
    requires i + j <= |a|
    ensures a[i..][j..] == a[i + j..]
  {
  }

  lemma PrefixKept<T>(a: seq<T>, b: seq<T>, n: nat)
    requires n <= |a| <= |b| && b[..|a|] == a
    ensures a[..n] == b[..n]
  {
  }
}
