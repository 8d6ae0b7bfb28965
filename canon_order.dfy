/** The values `json_ordered` produces, the way Python 3 orders them with `<`, and `sorted`. */
module CanonOrder {
  import opened Wrappers
  import opened SeqFacts

  /** A canonical JSON value: the scalars of a parsed file unchanged, CPair for the `(key, value)`
      tuples built from object members, CList for the Python lists built from arrays and objects. */
  datatype Canon =
    | CNull
    | CBool(b: bool)
    | CNum(n: int)
    | CStr(s: string)
    | CPair(key: string, val: Canon)
    | CList(items: seq<Canon>)

  /** Python's `s < t` on strings: lexicographic by code point, a proper prefix first. */
  function StrLess(s: string, t: string): bool
  {
    if |s| == 0 then |t| > 0
    else if |t| == 0 then false
    else if s[0] != t[0] then s[0] < t[0]
    else StrLess(s[1..], t[1..])
  }

  /** Python's `a < b` on canonical values: Some(answer), or None where Python raises TypeError
      (None against anything, values of different kinds, bool against int is left out). Tuples and
      lists compare at the first position where the items differ, by length when none does. */
  function LessThan(a: Canon, b: Canon): Option<bool>
  {
    match (a, b)
    case (CBool(x), CBool(y)) => Some(!x && y)
    case (CNum(x), CNum(y)) => Some(x < y)
    case (CStr(x), CStr(y)) => Some(StrLess(x, y))
    case (CPair(k1, v1), CPair(k2, v2)) =>
      if k1 != k2 then Some(StrLess(k1, k2))
      else if v1 != v2 then LessThan(v1, v2)
      else Some(false)
    case (CList(xs), CList(ys)) => ListLessThan(xs, ys)
    case _ => None
  }

  function ListLessThan(xs: seq<Canon>, ys: seq<Canon>): Option<bool>
  {
    if |xs| == 0 || |ys| == 0 then Some(|xs| < |ys|)
    else if xs[0] != ys[0] then LessThan(xs[0], ys[0])
    else ListLessThan(xs[1..], ys[1..])
  }

  /** Python can answer `a < b` without raising. */
  predicate Comparable(a: Canon, b: Canon)
  {
    LessThan(a, b).Some?
  }

  function Rank(c: Canon): nat
  {
    match c
    case CNull => 0
    case CBool(_) => 1
    case CNum(_) => 2
    case CStr(_) => 3
    case CPair(_, _) => 4
    case CList(_) => 5
  }

  /** A strict total order on all canonical values that agrees with Python's `<` wherever
      Python answers (lemma LessThanAgrees); values of different kinds are ordered by Rank. */
  function Precedes(a: Canon, b: Canon): bool
  {
    if Rank(a) != Rank(b) then Rank(a) < Rank(b)
    else match (a, b)
      case (CBool(x), CBool(y)) => !x && y
      case (CNum(x), CNum(y)) => x < y
      case (CStr(x), CStr(y)) => StrLess(x, y)
      case (CPair(k1, v1), CPair(k2, v2)) => StrLess(k1, k2) || (k1 == k2 && Precedes(v1, v2))
      case (CList(xs), CList(ys)) => SeqPrecedes(xs, ys)
      case _ => false
  }

  function SeqPrecedes(xs: seq<Canon>, ys: seq<Canon>): bool
  {
    if |xs| == 0 then |ys| > 0
    else if |ys| == 0 then false
    else if xs[0] != ys[0] then Precedes(xs[0], ys[0])
    else SeqPrecedes(xs[1..], ys[1..])
  }

  /** The number a bool stands for: Python's `bool` is a subclass of `int`. */
  function BoolNumber(b: bool): int
  {
    if b then 1 else 0
  }

  /** Python's `a == b` on canonical values: structural, except that a bool equals the number it
      stands for (`True == 1`, `False == 0`), at any depth of tuples and lists. */
  predicate PyEq(a: Canon, b: Canon)
  {
    match (a, b)
    case (CBool(x), CNum(n)) => BoolNumber(x) == n
    case (CNum(n), CBool(x)) => BoolNumber(x) == n
    case (CPair(k1, v1), CPair(k2, v2)) => k1 == k2 && PyEq(v1, v2)
    case (CList(xs), CList(ys)) => SeqPyEq(xs, ys)
    case _ => a == b
  }

  predicate SeqPyEq(xs: seq<Canon>, ys: seq<Canon>)
  {
    |xs| == |ys| && (|xs| == 0 || (PyEq(xs[0], ys[0]) && SeqPyEq(xs[1..], ys[1..])))
  }

  /** The value with every bool replaced by the number it stands for. */
  function AsNumbers(c: Canon): Canon
  {
    match c
    case CBool(b) => CNum(BoolNumber(b))
    case CPair(k, v) => CPair(k, AsNumbers(v))
    case CList(xs) => CList(SeqAsNumbers(xs))
    case _ => c
  }

  function SeqAsNumbers(xs: seq<Canon>): (r: seq<Canon>)
    ensures |r| == |xs|
  {
    if |xs| == 0 then [] else [AsNumbers(xs[0])] + SeqAsNumbers(xs[1..])
  }

  // ---------------------------------------------------------------- strings

  lemma {:induction false} StrLessIrreflexive(s: string)
    ensures !StrLess(s, s)
  {
    if |s| > 0 { StrLessIrreflexive(s[1..]); }
  }

  lemma {:induction false} StrLessTransitive(s: string, t: string, u: string)
    requires StrLess(s, t) && StrLess(t, u)
    ensures StrLess(s, u)
  {
    if |s| > 0 && |t| > 0 && |u| > 0 && s[0] == t[0] && t[0] == u[0] {
      StrLessTransitive(s[1..], t[1..], u[1..]);
    }
  }

  lemma {:induction false} StrLessTotal(s: string, t: string)
    requires s != t
    ensures StrLess(s, t) || StrLess(t, s)
  {
    if |s| > 0 && |t| > 0 && s[0] == t[0] {
      assert s == [s[0]] + s[1..] && t == [t[0]] + t[1..];
      StrLessTotal(s[1..], t[1..]);
    }
  }

  // ---------------------------------------------------------------- the total order

  lemma {:induction false} PrecedesIrreflexive(a: Canon)
    ensures !Precedes(a, a)
  {
    match a
    case CStr(x) => StrLessIrreflexive(x);
    case CPair(k, v) => StrLessIrreflexive(k); PrecedesIrreflexive(v);
    case CList(xs) => SeqPrecedesIrreflexive(xs);
    case _ =>
  }

  lemma {:induction false} SeqPrecedesIrreflexive(xs: seq<Canon>)
    ensures !SeqPrecedes(xs, xs)
  {
    if |xs| > 0 { SeqPrecedesIrreflexive(xs[1..]); }
  }

  lemma {:induction false} PrecedesTransitive(a: Canon, b: Canon, c: Canon)
    requires Precedes(a, b) && Precedes(b, c)
    ensures Precedes(a, c)
  {
    if Rank(a) == Rank(b) == Rank(c) {
      match (a, b, c)
      case (CStr(x), CStr(y), CStr(z)) => StrLessTransitive(x, y, z);
      case (CPair(k1, v1), CPair(k2, v2), CPair(k3, v3)) =>
        if StrLess(k1, k2) && StrLess(k2, k3) {
          StrLessTransitive(k1, k2, k3);
        } else if k1 == k2 && k2 == k3 {
          PrecedesTransitive(v1, v2, v3);
        }
      case (CList(xs), CList(ys), CList(zs)) => SeqPrecedesTransitive(xs, ys, zs);
      case _ =>
    }
  }

  lemma {:induction false} SeqPrecedesTransitive(xs: seq<Canon>, ys: seq<Canon>, zs: seq<Canon>)
    requires SeqPrecedes(xs, ys) && SeqPrecedes(ys, zs)
    ensures SeqPrecedes(xs, zs)
  {
    if |xs| > 0 && |ys| > 0 && |zs| > 0 {
      var x, y, z := xs[0], ys[0], zs[0];
      if x != y && y != z {
        PrecedesTransitive(x, y, z);
        if x == z {
          PrecedesIrreflexive(x);
        }
      } else if x == y && y == z {
        SeqPrecedesTransitive(xs[1..], ys[1..], zs[1..]);
      } else if x != y {
        assert y == z;
      } else {
        assert x == y && y != z;
      }
    }
  }

  lemma {:induction false} PrecedesTotal(a: Canon, b: Canon)
    requires a != b
    ensures Precedes(a, b) || Precedes(b, a)
  {
    if Rank(a) == Rank(b) {
      match (a, b)
      case (CStr(x), CStr(y)) => StrLessTotal(x, y);
      case (CPair(k1, v1), CPair(k2, v2)) =>
        if k1 != k2 { StrLessTotal(k1, k2); } else { PrecedesTotal(v1, v2); }
      case (CList(xs), CList(ys)) => SeqPrecedesTotal(xs, ys);
      case _ =>
    }
  }

  lemma {:induction false} SeqPrecedesTotal(xs: seq<Canon>, ys: seq<Canon>)
    requires xs != ys
    ensures SeqPrecedes(xs, ys) || SeqPrecedes(ys, xs)
  {
    if |xs| > 0 && |ys| > 0 {
      if xs[0] != ys[0] {
        PrecedesTotal(xs[0], ys[0]);
      } else {
        assert xs == [xs[0]] + xs[1..] && ys == [ys[0]] + ys[1..];
        SeqPrecedesTotal(xs[1..], ys[1..]);
      }
    }
  }

  lemma PrecedesAsymmetric(a: Canon, b: Canon)
    requires Precedes(a, b)
    ensures !Precedes(b, a)
  {
    if Precedes(b, a) {
      PrecedesTransitive(a, b, a);
      PrecedesIrreflexive(a);
    }
  }

  // ---------------------------------------------------------------- agreement with Python

  /** Wherever Python answers `a < b`, its answer is Precedes(a, b). */
  lemma {:induction false} LessThanAgrees(a: Canon, b: Canon)
    requires Comparable(a, b)
    ensures LessThan(a, b) == Some(Precedes(a, b))
  {
    match (a, b)
    case (CPair(k1, v1), CPair(k2, v2)) =>
      if k1 == k2 {
        StrLessIrreflexive(k1);
        if v1 != v2 { LessThanAgrees(v1, v2); } else { PrecedesIrreflexive(v1); }
      }
    case (CList(xs), CList(ys)) => ListLessThanAgrees(xs, ys);
    case _ =>
  }

  lemma {:induction false} ListLessThanAgrees(xs: seq<Canon>, ys: seq<Canon>)
    requires ListLessThan(xs, ys).Some?
    ensures ListLessThan(xs, ys) == Some(SeqPrecedes(xs, ys))
  {
    if |xs| > 0 && |ys| > 0 {
      if xs[0] != ys[0] { LessThanAgrees(xs[0], ys[0]); } else { ListLessThanAgrees(xs[1..], ys[1..]); }
    }
  }

  /** `a < b` raises exactly when `b < a` raises. */
  lemma {:induction false} ComparableSymmetric(a: Canon, b: Canon)
    ensures Comparable(a, b) <==> Comparable(b, a)
  {
    match (a, b)
    case (CPair(k1, v1), CPair(k2, v2)) =>
      if k1 == k2 && v1 != v2 { ComparableSymmetric(v1, v2); }
    case (CList(xs), CList(ys)) => ListComparableSymmetric(xs, ys);
    case _ =>
  }

  lemma {:induction false} ListComparableSymmetric(xs: seq<Canon>, ys: seq<Canon>)
    ensures ListLessThan(xs, ys).Some? <==> ListLessThan(ys, xs).Some?
  {
    if |xs| > 0 && |ys| > 0 {
      if xs[0] != ys[0] { ComparableSymmetric(xs[0], ys[0]); } else { ListComparableSymmetric(xs[1..], ys[1..]); }
    }
  }

  /** Only None fails to compare with itself: `[None] < [None]` is False but `None < None` raises. */
  lemma {:induction false} SelfComparable(a: Canon)
    ensures Comparable(a, a) <==> !a.CNull?
  {
    if a.CList? { ListSelfComparable(a.items); }
  }

  lemma {:induction false} ListSelfComparable(xs: seq<Canon>)
    ensures ListLessThan(xs, xs) == Some(false)
  {
    if |xs| > 0 { ListSelfComparable(xs[1..]); }
  }

  // ---------------------------------------------------------------- sorting

  predicate Le(a: Canon, b: Canon)
  {
    a == b || Precedes(a, b)
  }

  predicate Sorted(s: seq<Canon>)
  {
    forall i, j :: 0 <= i < j < |s| ==> Le(s[i], s[j])
  }

  function Insert(x: Canon, s: seq<Canon>): (r: seq<Canon>)
    ensures multiset(r) == multiset(s) + multiset{x}
  {
    if |s| == 0 then [x]
    else if Precedes(s[0], x) then
      assert s == [s[0]] + s[1..];
      [s[0]] + Insert(x, s[1..])
    else [x] + s
  }

  lemma {:induction false} InsertSorted(x: Canon, s: seq<Canon>)
    requires Sorted(s)
    ensures Sorted(Insert(x, s))
  {
    var r := Insert(x, s);
    if |s| == 0 {
    } else if Precedes(s[0], x) {
      InsertSorted(x, s[1..]);
      var tail := Insert(x, s[1..]);
      forall j | 0 <= j < |tail| ensures Le(s[0], tail[j]) {
        assert tail[j] in multiset(tail);
        if tail[j] != x {
          assert tail[j] in multiset(s[1..]);
          var k :| 0 <= k < |s[1..]| && s[1..][k] == tail[j];
          assert Le(s[0], s[k + 1]);
        }
      }
    } else {
      if x != s[0] { PrecedesTotal(x, s[0]); }
      forall j | 0 < j < |r| ensures Le(x, r[j]) {
        if j > 1 && x != s[0] && s[0] != s[j - 1] {
          assert Le(s[0], s[j - 1]);
          PrecedesTransitive(x, s[0], s[j - 1]);
        }
      }
    }
  }

  function InsertionSort(s: seq<Canon>): (r: seq<Canon>)
    ensures multiset(r) == multiset(s)
    ensures Sorted(r)
  {
    if |s| == 0 then []
    else
      assert s == [s[0]] + s[1..];
      InsertSorted(s[0], InsertionSort(s[1..]));
      Insert(s[0], InsertionSort(s[1..]))
  }

  lemma LeAntisymmetric(a: Canon, b: Canon)
    requires Le(a, b) && Le(b, a)
    ensures a == b
  {
    if a != b { PrecedesAsymmetric(a, b); }
  }

  lemma SortedHeadIsLeast(a: seq<Canon>, x: Canon)
    requires Sorted(a) && x in multiset(a)
    ensures |a| > 0 && Le(a[0], x)
  {
    var i :| 0 <= i < |a| && a[i] == x;
    if i > 0 { assert Le(a[0], a[i]); }
  }

  lemma TailMultiset(a: seq<Canon>, b: seq<Canon>)
    requires |a| > 0 && |b| > 0 && a[0] == b[0] && multiset(a) == multiset(b)
    ensures multiset(a[1..]) == multiset(b[1..])
  {
    assert a == [a[0]] + a[1..] && b == [b[0]] + b[1..];
    forall z ensures multiset(a[1..])[z] == multiset(b[1..])[z] {
      assert multiset(a)[z] == multiset{a[0]}[z] + multiset(a[1..])[z];
      assert multiset(b)[z] == multiset{b[0]}[z] + multiset(b[1..])[z];
    }
  }

  /** A multiset has exactly one sorted arrangement. */
  lemma {:induction false} SortedUnique(a: seq<Canon>, b: seq<Canon>)
    requires Sorted(a) && Sorted(b) && multiset(a) == multiset(b)
    ensures a == b
  {
    if |a| == 0 {
      assert |multiset(b)| == 0;
    } else {
      assert a[0] in multiset(b);
      SortedHeadIsLeast(b, a[0]);
      assert b[0] in multiset(a);
      SortedHeadIsLeast(a, b[0]);
      LeAntisymmetric(a[0], b[0]);
      TailMultiset(a, b);
      assert Sorted(a[1..]) && Sorted(b[1..]);
      SortedUnique(a[1..], b[1..]);
      assert a == [a[0]] + a[1..] && b == [b[0]] + b[1..];
    }
  }

  /** Python's `sorted` can compare each pair of elements at different positions. */
  predicate AllComparable(s: seq<Canon>)
  {
    forall i, j :: 0 <= i < |s| && 0 <= j < |s| && i != j ==> Comparable(s[i], s[j])
  }

  lemma AllComparableTransfer(s: seq<Canon>, t: seq<Canon>)
    requires multiset(s) == multiset(t) && AllComparable(s)
    ensures AllComparable(t)
  {
    forall i, j | 0 <= i < |t| && 0 <= j < |t| && i != j ensures Comparable(t[i], t[j]) {
      assert t[i] in multiset(s) && t[j] in multiset(s);
      if t[i] != t[j] {
        var i' :| 0 <= i' < |s| && s[i'] == t[i];
        var j' :| 0 <= j' < |s| && s[j'] == t[j];
      } else {
        if i < j { TwiceCounted(t, i, j); } else { TwiceCounted(t, j, i); }
        var i', j' := TwoPositions(s, t[i]);
      }
    }
  }

  /** Comparability of all elements depends only on the multiset of the elements. */
  lemma AllComparablePermutation(s: seq<Canon>, t: seq<Canon>)
    requires multiset(s) == multiset(t)
    ensures AllComparable(s) <==> AllComparable(t)
  {
    if AllComparable(s) { AllComparableTransfer(s, t); }
    if AllComparable(t) { AllComparableTransfer(t, s); }
  }

  /** In a sorted sequence of comparable values Python finds no later item `<` an earlier one. */
  lemma NoInversions(s: seq<Canon>)
    requires Sorted(s) && AllComparable(s)
    ensures forall i, j :: 0 <= i < j < |s| ==> LessThan(s[j], s[i]) == Some(false)
  {
    forall i, j | 0 <= i < j < |s| ensures LessThan(s[j], s[i]) == Some(false) {
      LessThanAgrees(s[j], s[i]);
      if s[i] != s[j] { PrecedesAsymmetric(s[i], s[j]); } else { PrecedesIrreflexive(s[i]); }
    }
  }

  /** Python's `sorted(s)` on canonical values: None when it raises TypeError, otherwise the
      arrangement of s in which Python finds no later item `<` an earlier one. */
  function SortCanon(s: seq<Canon>): (r: Option<seq<Canon>>)
    ensures r.Some? <==> AllComparable(s)
    ensures r.Some? ==> multiset(r.value) == multiset(s) && |r.value| == |s|
    ensures r.Some? ==> forall i, j :: 0 <= i < j < |r.value| ==> LessThan(r.value[j], r.value[i]) == Some(false)
  {
    if AllComparable(s) then
      var sorted := InsertionSort(s);
      assert |sorted| == |multiset(sorted)| == |multiset(s)| == |s|;
      AllComparableTransfer(s, sorted);
      NoInversions(sorted);
      Some(sorted)
    else None
  }

  /** Sorting forgets the input order: arrangements of one multiset sort identically. */
  lemma SortCanonPermutation(s: seq<Canon>, t: seq<Canon>)
    requires multiset(s) == multiset(t)
    ensures SortCanon(s) == SortCanon(t)
  {
    AllComparablePermutation(s, t);
    if AllComparable(s) {
      SortedUnique(InsertionSort(s), InsertionSort(t));
    }
  }

  /** A one-element list sorts to itself whatever the element: `[None]` sorts without error. */
  lemma SortSingleton(c: Canon)
    ensures SortCanon([c]) == Some([c])
  {
    assert AllComparable([c]);
    var r := SortCanon([c]).value;
    assert r[0] in multiset(r);
  }

  // ---------------------------------------------------------------- Python's ==

  /** Python's `==` is equality once every bool is read as its number. */
  lemma {:induction false} PyEqIff(a: Canon, b: Canon)
    ensures PyEq(a, b) <==> AsNumbers(a) == AsNumbers(b)
  {
    match (a, b)
    case (CPair(k1, v1), CPair(k2, v2)) => PyEqIff(v1, v2);
    case (CList(xs), CList(ys)) => SeqPyEqIff(xs, ys);
    case _ =>
  }

  lemma {:induction false} SeqPyEqIff(xs: seq<Canon>, ys: seq<Canon>)
    ensures SeqPyEq(xs, ys) <==> SeqAsNumbers(xs) == SeqAsNumbers(ys)
  {
    if |xs| == |ys| && |xs| > 0 {
      PyEqIff(xs[0], ys[0]);
      SeqPyEqIff(xs[1..], ys[1..]);
      var s, t := SeqAsNumbers(xs), SeqAsNumbers(ys);
      assert s == [AsNumbers(xs[0])] + SeqAsNumbers(xs[1..]);
      assert t == [AsNumbers(ys[0])] + SeqAsNumbers(ys[1..]);
      if s == t {
        assert s[0] == t[0] && s[1..] == t[1..];
      }
    }
  }

  /** Python's `==` is an equivalence that holds between structurally equal values. */
  lemma PyEqEquivalence(a: Canon, b: Canon, c: Canon)
    ensures PyEq(a, a)
    ensures PyEq(a, b) ==> PyEq(b, a)
    ensures PyEq(a, b) && PyEq(b, c) ==> PyEq(a, c)
  {
    PyEqIff(a, a);
    PyEqIff(a, b);
    PyEqIff(b, a);
    PyEqIff(b, c);
    PyEqIff(a, c);
  }

  /** A bool is `==` to its number, wherever it sits; without bools `==` is structural. */
  lemma PyEqBoolNumber(b: bool, k: string)
    ensures PyEq(CBool(b), CNum(BoolNumber(b)))
    ensures PyEq(CList([CPair(k, CBool(b))]), CList([CPair(k, CNum(BoolNumber(b)))]))
    ensures CBool(b) != CNum(BoolNumber(b))
  {
    var xs, ys := [CPair(k, CBool(b))], [CPair(k, CNum(BoolNumber(b)))];
    assert xs[1..] == [] && ys[1..] == [];
    assert PyEq(CBool(b), CNum(BoolNumber(b)));
    assert PyEq(xs[0], ys[0]);
    assert SeqPyEq(xs[1..], ys[1..]);
    assert SeqPyEq(xs, ys);
  }
}
