/** Facts about sequences, maps over them and their multisets, used by the canonicalisation proofs. */
module SeqFacts {

  function MapSeq<A, B>(f: A -> B, xs: seq<A>): (r: seq<B>)
    ensures |r| == |xs|
    ensures forall i :: 0 <= i < |xs| ==> r[i] == f(xs[i])
  {
    if |xs| == 0 then [] else [f(xs[0])] + MapSeq(f, xs[1..])
  }

  lemma MapSeqAppend<A, B>(f: A -> B, xs: seq<A>, ys: seq<A>)
    ensures MapSeq(f, xs + ys) == MapSeq(f, xs) + MapSeq(f, ys)
  {
    assert forall i :: 0 <= i < |xs + ys| ==> MapSeq(f, xs + ys)[i] == (MapSeq(f, xs) + MapSeq(f, ys))[i];
  }

  /** Taking out the element at position `k` takes one occurrence out of the multiset. */
  lemma RemoveAt<T>(ys: seq<T>, k: nat)
    requires k < |ys|
    ensures multiset(ys) == multiset{ys[k]} + multiset(ys[..k] + ys[k + 1..])
  {
    assert ys == ys[..k] + [ys[k]] + ys[k + 1..];
  }

  /** The same, after mapping: the removed element's image leaves the multiset of images. */
  lemma MapSeqRemoveAt<A, B>(f: A -> B, ys: seq<A>, k: nat)
    requires k < |ys|
    ensures multiset(MapSeq(f, ys)) == multiset{f(ys[k])} + multiset(MapSeq(f, ys[..k] + ys[k + 1..]))
  {
    var x := ys[k];
    assert ys == ys[..k] + [x] + ys[k + 1..];
    MapSeqAppend(f, ys[..k] + [x], ys[k + 1..]);
    MapSeqAppend(f, ys[..k], [x]);
    MapSeqAppend(f, ys[..k], ys[k + 1..]);
  }

  lemma Cancel<T>(x: T, a: multiset<T>, b: multiset<T>)
    requires multiset{x} + a == multiset{x} + b
    ensures a == b
  {
    forall z ensures a[z] == b[z] {
      assert (multiset{x} + a)[z] == (multiset{x} + b)[z];
    }
  }

  /** Mapping a function over two sequences with the same multiset gives sequences with the same multiset. */
  lemma {:induction false} MapSeqMultiset<A, B>(f: A -> B, xs: seq<A>, ys: seq<A>)
    requires multiset(xs) == multiset(ys)
    ensures multiset(MapSeq(f, xs)) == multiset(MapSeq(f, ys))
  {
    if |xs| == 0 {
      assert |multiset(ys)| == 0;
    } else {
      var x := xs[0];
      assert x in multiset(ys);
      var k :| 0 <= k < |ys| && ys[k] == x;
      var rest := ys[..k] + ys[k + 1..];
      RemoveAt(ys, k);
      RemoveAt(xs, 0);
      assert xs[..0] + xs[1..] == xs[1..];
      Cancel(x, multiset(xs[1..]), multiset(rest));
      MapSeqMultiset(f, xs[1..], rest);
      MapSeqRemoveAt(f, ys, k);
      MapSeqRemoveAt(f, xs, 0);
    }
  }

  /** An element that occurs twice in a multiset occurs at two different positions. */
  lemma TwoPositions<T>(s: seq<T>, x: T) returns (i: nat, j: nat)
    requires multiset(s)[x] >= 2
    ensures i < |s| && j < |s| && i != j && s[i] == x && s[j] == x
  {
    assert x in multiset(s);
    i :| 0 <= i < |s| && s[i] == x;
    assert s == s[..i] + [x] + s[i + 1..];
    assert multiset(s) == multiset(s[..i]) + multiset{x} + multiset(s[i + 1..]);
    if x in multiset(s[..i]) {
      var k :| 0 <= k < i && s[..i][k] == x;
      j := k;
    } else {
      assert x in multiset(s[i + 1..]);
      var k :| 0 <= k < |s| - i - 1 && s[i + 1..][k] == x;
      j := i + 1 + k;
    }
  }

  /** Two different positions holding the same value make its multiplicity at least two. */
  lemma TwiceCounted<T>(s: seq<T>, i: nat, j: nat)
    requires i < j < |s| && s[i] == s[j]
    ensures multiset(s)[s[i]] >= 2
  {
    assert s == s[..j] + [s[j]] + s[j + 1..];
    assert s[..j][i] == s[i];
    assert s[i] in multiset(s[..j]);
    assert multiset(s) == multiset(s[..j]) + multiset{s[j]} + multiset(s[j + 1..]);
  }

  function Range(n: nat): (r: seq<nat>)
    ensures |r| == n && forall i :: 0 <= i < n ==> r[i] == i
  {
    seq(n, i requires 0 <= i < n => i)
  }

  /** `perm` lists 0 .. n-1, each once, in some order. */
  predicate IsPermutation(perm: seq<nat>, n: nat)
  {
    multiset(perm) == multiset(Range(n))
  }

  lemma PermutationBounds(perm: seq<nat>, n: nat)
    requires IsPermutation(perm, n)
    ensures |perm| == n
    ensures forall i :: 0 <= i < |perm| ==> perm[i] < n
  {
    assert |multiset(perm)| == |multiset(Range(n))|;
    forall i | 0 <= i < |perm| ensures perm[i] < n {
      assert perm[i] in multiset(perm);
      assert perm[i] in multiset(Range(n));
    }
  }

  /** The sequence whose i-th element is s[perm[i]]. */
  function Permute<T>(s: seq<T>, perm: seq<nat>): (r: seq<T>)
    requires forall i :: 0 <= i < |perm| ==> perm[i] < |s|
    ensures |r| == |perm| && forall i :: 0 <= i < |perm| ==> r[i] == s[perm[i]]
  {
    seq(|perm|, i requires 0 <= i < |perm| => s[perm[i]])
  }

  /** Rearranging by a permutation keeps the multiset. */
  lemma PermuteMultiset<T>(s: seq<T>, perm: seq<nat>)
    requires IsPermutation(perm, |s|)
    ensures forall i :: 0 <= i < |perm| ==> perm[i] < |s|
    ensures multiset(Permute(s, perm)) == multiset(s)
  {
    PermutationBounds(perm, |s|);
    if |s| > 0 {
      var f := (k: nat) => if k < |s| then s[k] else s[0];
      MapSeqMultiset(f, perm, Range(|s|));
      assert MapSeq(f, perm) == Permute(s, perm);
      assert MapSeq(f, Range(|s|)) == s;
    }
  }
}
