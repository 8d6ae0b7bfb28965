/** `TestcaseWrapper.json_ordered`: the canonical form used to compare JSON files regardless of
    the order of array elements and object members. */
module JsonOrdered {
  import opened Wrappers
  import opened SeqFacts
  import opened CanonOrder

  /** A value as `json.load` returns it (numbers are integers). An object's members are in the
      dictionary's iteration order. */
  datatype Json =
    | JNull
    | JBool(b: bool)
    | JNum(n: int)
    | JStr(s: string)
    | JArr(elems: seq<Json>)
    | JObj(members: seq<Member>)

  datatype Member = Member(key: string, value: Json)

  predicate IsScalar(j: Json)
  {
    !j.JArr? && !j.JObj?
  }

  /** The canonical value a scalar stands for. */
  function ScalarCanon(j: Json): Canon
    requires IsScalar(j)
  {
    match j
    case JNull => CNull
    case JBool(b) => CBool(b)
    case JNum(n) => CNum(n)
    case JStr(s) => CStr(s)
  }

  /** `json_ordered(obj)`: None when Python raises TypeError while sorting some list; a list
      it returns is sorted, no later item `<` an earlier one. */
  function Ordered(j: Json): (r: Option<Canon>)
    ensures IsScalar(j) ==> r == Some(ScalarCanon(j))
    ensures r.Some? && j.JArr? ==> r.value.CList? && |r.value.items| == |j.elems|
    ensures r.Some? && j.JObj? ==> r.value.CList? && |r.value.items| == |j.members|
    ensures r.Some? && !IsScalar(j) ==>
      forall i, k :: 0 <= i < k < |r.value.items| ==> LessThan(r.value.items[k], r.value.items[i]) == Some(false)
  {
    match j
    case JNull => Some(CNull)
    case JBool(b) => Some(CBool(b))
    case JNum(n) => Some(CNum(n))
    case JStr(s) => Some(CStr(s))
    case JArr(es) => SortedList(OrderedElems(es))
    case JObj(ms) => SortedList(OrderedMembers(ms))
  }

  /** The canonical form of each array element, in array order. */
  function OrderedElems(es: seq<Json>): (os: seq<Option<Canon>>)
    ensures |os| == |es| && forall i :: 0 <= i < |es| ==> os[i] == Ordered(es[i])
  {
    if |es| == 0 then [] else [Ordered(es[0])] + OrderedElems(es[1..])
  }

  /** The `(k, json_ordered(v))` tuple of each object member, in iteration order. */
  function OrderedMembers(ms: seq<Member>): (os: seq<Option<Canon>>)
    ensures |os| == |ms| && forall i :: 0 <= i < |ms| ==> os[i] == OrderedMember(ms[i])
  {
    if |ms| == 0 then [] else [OrderedMember(ms[0])] + OrderedMembers(ms[1..])
  }

  function OrderedMember(m: Member): (r: Option<Canon>)
    ensures r.Some? ==> r.value.CPair? && r.value.key == m.key
  {
    match Ordered(m.value)
    case None => None
    case Some(c) => Some(CPair(m.key, c))
  }

  /** The list of the values, or None if any of them raised. */
  function AllSome(os: seq<Option<Canon>>): (r: Option<seq<Canon>>)
    ensures r.Some? <==> None !in os
    ensures r.Some? ==> |r.value| == |os| && forall i :: 0 <= i < |os| ==> os[i] == Some(r.value[i])
  {
    if None in os then None
    else
      var vs := seq(|os|, i requires 0 <= i < |os| => os[i].value);
      assert forall i :: 0 <= i < |os| ==> os[i].Some? && os[i] == Some(vs[i]);
      Some(vs)
  }

  /** `sorted(...)` of the canonical items, as a Python list. */
  function SortedList(os: seq<Option<Canon>>): (r: Option<Canon>)
    ensures r.Some? <==> None !in os && AllComparable(AllSome(os).value)
    ensures r.Some? ==> (r.value.CList? && |r.value.items| == |os|
                         && multiset(r.value.items) == multiset(AllSome(os).value))
    ensures r.Some? ==> forall i, k :: 0 <= i < k < |r.value.items| ==> LessThan(r.value.items[k], r.value.items[i]) == Some(false)
  {
    match AllSome(os)
    case None => None
    case Some(cs) =>
      match SortCanon(cs)
      case None => None
      case Some(sorted) => Some(CList(sorted))
  }

  // ---------------------------------------------------------------- permutation invariance

  function Unwrap(o: Option<Canon>): Canon
  {
    if o.Some? then o.value else CNull
  }

  lemma SortedListPermutation(os: seq<Option<Canon>>, ps: seq<Option<Canon>>)
    requires multiset(os) == multiset(ps)
    ensures SortedList(os) == SortedList(ps)
  {
    assert None in os <==> None in multiset(ps);
    if None !in os {
      MapSeqMultiset(Unwrap, os, ps);
      assert MapSeq(Unwrap, os) == AllSome(os).value;
      assert MapSeq(Unwrap, ps) == AllSome(ps).value;
      SortCanonPermutation(AllSome(os).value, AllSome(ps).value);
    }
  }

  /** Reordering an array's elements does not change its canonical form. */
  lemma ArrayPermutation(xs: seq<Json>, ys: seq<Json>)
    requires multiset(xs) == multiset(ys)
    ensures Ordered(JArr(xs)) == Ordered(JArr(ys))
  {
    MapSeqMultiset(Ordered, xs, ys);
    assert MapSeq(Ordered, xs) == OrderedElems(xs);
    assert MapSeq(Ordered, ys) == OrderedElems(ys);
    SortedListPermutation(OrderedElems(xs), OrderedElems(ys));
  }

  /** Reordering an object's members does not change its canonical form. */
  lemma ObjectPermutation(ms: seq<Member>, ns: seq<Member>)
    requires multiset(ms) == multiset(ns)
    ensures Ordered(JObj(ms)) == Ordered(JObj(ns))
  {
    MapSeqMultiset(OrderedMember, ms, ns);
    assert MapSeq(OrderedMember, ms) == OrderedMembers(ms);
    assert MapSeq(OrderedMember, ns) == OrderedMembers(ns);
    SortedListPermutation(OrderedMembers(ms), OrderedMembers(ns));
  }

  /** Replacing each element by one with the same canonical form keeps the array's canonical form. */
  lemma ArrayCongruence(xs: seq<Json>, ys: seq<Json>)
    requires |xs| == |ys| && forall i :: 0 <= i < |xs| ==> Ordered(xs[i]) == Ordered(ys[i])
    ensures Ordered(JArr(xs)) == Ordered(JArr(ys))
  {
    assert OrderedElems(xs) == OrderedElems(ys);
  }

  /** Replacing each member's value by one with the same canonical form keeps the object's. */
  lemma ObjectCongruence(ms: seq<Member>, ns: seq<Member>)
    requires |ms| == |ns|
    requires forall i :: 0 <= i < |ms| ==> ms[i].key == ns[i].key && Ordered(ms[i].value) == Ordered(ns[i].value)
    ensures Ordered(JObj(ms)) == Ordered(JObj(ns))
  {
    assert OrderedMembers(ms) == OrderedMembers(ns);
  }

  /** A reordering of a JSON value at every nesting depth: at an array or object, first each
      child is reordered by its own entry of `inner`, then the children are rearranged by `perm`
      (child i of the result is child perm[i] of the value). A witness that does not fit the
      value's shape leaves that level as it is. */
  datatype Reorder = Keep | Nest(perm: seq<nat>, inner: seq<Reorder>)

  function Apply(r: Reorder, j: Json): Json
  {
    match r
    case Keep => j
    case Nest(perm, inner) =>
      match j
      case JArr(es) =>
        if |inner| == |es| && IsPermutation(perm, |es|) then
          PermutationBounds(perm, |es|);
          JArr(Permute(ApplyElems(inner, es), perm))
        else j
      case JObj(ms) =>
        if |inner| == |ms| && IsPermutation(perm, |ms|) then
          PermutationBounds(perm, |ms|);
          JObj(Permute(ApplyMembers(inner, ms), perm))
        else j
      case _ => j
  }

  function ApplyElems(inner: seq<Reorder>, es: seq<Json>): (r: seq<Json>)
    requires |inner| == |es|
    ensures |r| == |es| && forall i :: 0 <= i < |es| ==> r[i] == Apply(inner[i], es[i])
  {
    if |es| == 0 then [] else [Apply(inner[0], es[0])] + ApplyElems(inner[1..], es[1..])
  }

  function ApplyMembers(inner: seq<Reorder>, ms: seq<Member>): (r: seq<Member>)
    requires |inner| == |ms|
    ensures |r| == |ms| && forall i :: 0 <= i < |ms| ==> r[i] == Member(ms[i].key, Apply(inner[i], ms[i].value))
  {
    if |ms| == 0 then [] else [Member(ms[0].key, Apply(inner[0], ms[0].value))] + ApplyMembers(inner[1..], ms[1..])
  }

  /** Permuting array elements and object members at any depth leaves `json_ordered` unchanged. */
  lemma {:induction false} ReorderInvariant(r: Reorder, j: Json)
    ensures Ordered(Apply(r, j)) == Ordered(j)
    decreases j
  {
    match r
    case Keep =>
    case Nest(perm, inner) =>
      match j
      case JArr(es) =>
        if |inner| == |es| && IsPermutation(perm, |es|) {
          var es' := ApplyElems(inner, es);
          forall i | 0 <= i < |es| ensures Ordered(es'[i]) == Ordered(es[i]) {
            ReorderInvariant(inner[i], es[i]);
          }
          ArrayCongruence(es', es);
          PermuteMultiset(es', perm);
          ArrayPermutation(Permute(es', perm), es');
        }
      case JObj(ms) =>
        if |inner| == |ms| && IsPermutation(perm, |ms|) {
          var ms' := ApplyMembers(inner, ms);
          forall i | 0 <= i < |ms| ensures Ordered(ms'[i].value) == Ordered(ms[i].value) {
            ReorderInvariant(inner[i], ms[i].value);
          }
          ObjectCongruence(ms', ms);
          PermuteMultiset(ms', perm);
          ObjectPermutation(Permute(ms', perm), ms');
        }
      case _ =>
  }

  // ---------------------------------------------------------------- quirks

  /** `{}` and `[]` both become the empty list, so they compare equal. */
  lemma EmptyContainersCollide()
    ensures Ordered(JObj([])) == Ordered(JArr([])) == Some(CList([]))
  {
  }

  predicate DistinctKeys(ms: seq<Member>)
  {
    forall i, j :: 0 <= i < j < |ms| ==> ms[i].key != ms[j].key
  }

  /** Tuples whose keys differ always compare. */
  lemma PairsByKey(cs: seq<Canon>)
    requires forall i :: 0 <= i < |cs| ==> cs[i].CPair?
    requires forall i, j :: 0 <= i < j < |cs| ==> cs[i].key != cs[j].key
    ensures AllComparable(cs)
  {
    forall i, j | 0 <= i < |cs| && 0 <= j < |cs| && i != j ensures Comparable(cs[i], cs[j]) {
      if i < j { assert cs[i].key != cs[j].key; } else { assert cs[j].key != cs[i].key; }
    }
  }

  /** Sorting the member tuples of a dictionary never raises: the keys differ, so tuples compare
      by key alone. Only a member value's own canonicalisation can fail. */
  lemma DistinctKeysNeverClash(ms: seq<Member>)
    requires DistinctKeys(ms)
    ensures Ordered(JObj(ms)).Some? <==> forall i :: 0 <= i < |ms| ==> Ordered(ms[i].value).Some?
  {
    var os := OrderedMembers(ms);
    if forall i :: 0 <= i < |ms| ==> Ordered(ms[i].value).Some? {
      assert forall i :: 0 <= i < |ms| ==> os[i].Some?;
      assert None !in os;
      var cs := AllSome(os).value;
      assert forall i :: 0 <= i < |cs| ==> os[i] == Some(cs[i]) && cs[i].CPair? && cs[i].key == ms[i].key;
      PairsByKey(cs);
    } else {
      var i :| 0 <= i < |ms| && Ordered(ms[i].value).None?;
      assert os[i] == None;
    }
  }

  /** Every item of an object's canonical form is a `(key, value)` tuple for one of its keys. */
  lemma ObjectItemsAreMembers(ms: seq<Member>)
    requires Ordered(JObj(ms)).Some?
    ensures forall c :: c in Ordered(JObj(ms)).value.items ==> c.CPair? && exists m :: m in ms && m.key == c.key
  {
    var os := OrderedMembers(ms);
    var cs := AllSome(os).value;
    forall c | c in Ordered(JObj(ms)).value.items ensures c.CPair? && exists m :: m in ms && m.key == c.key {
      assert c in multiset(cs);
      var i :| 0 <= i < |cs| && cs[i] == c;
      assert os[i] == Some(c) && os[i] == OrderedMember(ms[i]);
      assert ms[i] in ms;
    }
  }

  /** `[null]` canonicalises, but two nulls cannot be sorted (`None < None` raises). */
  lemma NullsInArrays()
    ensures Ordered(JArr([JNull])) == Some(CList([CNull]))
    ensures Ordered(JArr([JNull, JNull])).None?
  {
    var cs := [CNull, CNull];
    assert !Comparable(cs[0], cs[1]);
    assert !AllComparable(cs);
    assert AllSome(OrderedElems([JNull, JNull])).value == [CNull, CNull];
  }

  /** An array mixing numbers and strings cannot be sorted in Python 3. */
  lemma MixedArrayRaises(n: int, s: string)
    ensures Ordered(JArr([JNum(n), JStr(s)])).None?
  {
    var cs := [CNum(n), CStr(s)];
    assert AllSome(OrderedElems([JNum(n), JStr(s)])).value == cs;
    assert !Comparable(cs[0], cs[1]);
  }
}
