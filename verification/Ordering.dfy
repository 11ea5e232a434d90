/** The orders used to make plans canonical, and sorting up to those orders. */
module Ordering {

  type NodeId = string

  /** Lexicographic order on strings. */
  predicate StrLess(a: string, b: string)
    decreases |a|
  {
    b != [] && (a == [] || a[0] < b[0] || (a[0] == b[0] && StrLess(a[1..], b[1..])))
  }

  /** Asymmetric with a transitive complement: what a comparison passed to a sort must satisfy. */
  ghost predicate StrictWeakOrder<T(!new)>(less: (T, T) -> bool) {
    && (forall x, y :: less(x, y) ==> !less(y, x))
    && (forall x, y, z :: !less(y, x) && !less(z, y) ==> !less(z, x))
  }

  /** Among the elements of s, those that compare equal are the same element. */
  ghost predicate TiesAreEqual<T(!new)>(less: (T, T) -> bool, s: seq<T>) {
    forall x, y :: x in s && y in s && !less(x, y) && !less(y, x) ==> x == y
  }

  ghost predicate Sorted<T(!new)>(less: (T, T) -> bool, s: seq<T>) {
    forall i, j :: 0 <= i < j < |s| ==> !less(s[j], s[i])
  }

  ghost predicate NoDuplicates<T>(s: seq<T>) {
    forall i, j :: 0 <= i < j < |s| ==> s[i] != s[j]
  }

  /** Both strings go the same way up to position i, and there a ends first or has the smaller character. */
  ghost predicate DiffersAt(a: string, b: string, i: nat) {
    && i <= |a| && i < |b| && a[..i] == b[..i]
    && (i == |a| || a[i] < b[i])
  }

  /** The order is decided at the first difference. */
  lemma {:induction false} StrLessDiffers(a: string, b: string)
    ensures StrLess(a, b) <==> exists i: nat :: DiffersAt(a, b, i)
    decreases |a|
  {
    if StrLess(a, b) {
      if a == [] || a[0] < b[0] {
        assert DiffersAt(a, b, 0);
      } else {
        StrLessDiffers(a[1..], b[1..]);
        var i: nat :| DiffersAt(a[1..], b[1..], i);
        assert a[..i + 1] == [a[0]] + a[1..][..i] && b[..i + 1] == [b[0]] + b[1..][..i];
        assert DiffersAt(a, b, i + 1);
      }
    }
    forall i: nat | DiffersAt(a, b, i) ensures StrLess(a, b) {
      if i > 0 {
        assert a[0] == a[..i][0] == b[..i][0] == b[0];
        assert a[1..][..i - 1] == a[..i][1..] && b[1..][..i - 1] == b[..i][1..];
        assert DiffersAt(a[1..], b[1..], i - 1);
        StrLessDiffers(a[1..], b[1..]);
      }
    }
  }

  lemma {:induction false} StrLessTotal(a: string, b: string)
    ensures StrLess(a, b) ==> !StrLess(b, a)
    ensures !StrLess(a, b) && !StrLess(b, a) ==> a == b
    decreases |a|
  {
    if a != [] && b != [] && a[0] == b[0] {
      StrLessTotal(a[1..], b[1..]);
      assert a == [a[0]] + a[1..] && b == [b[0]] + b[1..];
    }
  }

  lemma {:induction false} StrLessTrans(a: string, b: string, c: string)
    requires !StrLess(b, a) && !StrLess(c, b)
    ensures !StrLess(c, a)
    decreases |a|
  {
    if a != [] && b != [] && c != [] && a[0] == b[0] == c[0] {
      StrLessTrans(a[1..], b[1..], c[1..]);
    }
  }

  lemma StrLessIsTotalOrder()
    ensures StrictWeakOrder(StrLess)
    ensures forall s :: TiesAreEqual(StrLess, s)
  {
    forall x, y ensures StrLess(x, y) ==> !StrLess(y, x)
                ensures !StrLess(x, y) && !StrLess(y, x) ==> x == y
    {
      StrLessTotal(x, y);
    }
    forall x, y, z | !StrLess(y, x) && !StrLess(z, y) ensures !StrLess(z, x) {
      StrLessTrans(x, y, z);
    }
  }

  lemma MultisetMember<T>(s: seq<T>, x: T)
    ensures x in multiset(s) <==> x in s
  {
  }

  lemma SortedTail<T(!new)>(less: (T, T) -> bool, s: seq<T>)
    requires s != []
    ensures Sorted(less, s) ==> Sorted(less, s[1..])
    ensures TiesAreEqual(less, s) ==> TiesAreEqual(less, s[1..])
  {
  }

  lemma SameTails<T>(s: seq<T>, t: seq<T>)
    requires multiset(s) == multiset(t) && s != [] && t != [] && s[0] == t[0]
    ensures multiset(s[1..]) == multiset(t[1..])
    ensures s[1..] == t[1..] ==> s == t
  {
    assert s == [s[0]] + s[1..] && t == [t[0]] + t[1..];
    assert multiset(s[1..]) == multiset(s) - multiset{s[0]} && multiset(t[1..]) == multiset(t) - multiset{t[0]};
  }

  lemma SameMembers<T>(s: seq<T>, t: seq<T>)
    requires multiset(s) == multiset(t)
    ensures |s| == |t| && (s != [] ==> s[0] in t && t[0] in s)
  {
    assert |multiset(s)| == |s| && |multiset(t)| == |t|;
    if s != [] {
      MultisetMember(t, s[0]);
      MultisetMember(s, t[0]);
    }
  }

  /** The least element comes first in every sorted arrangement. */
  lemma SortedFirst<T(!new)>(less: (T, T) -> bool, s: seq<T>, t: seq<T>)
    requires TiesAreEqual(less, s) && Sorted(less, s) && Sorted(less, t)
    requires s != [] && t != [] && s[0] in t && t[0] in s
    ensures s[0] == t[0]
  {
  }

  /** Two sorted arrangements of the same elements are the same sequence. */
  lemma {:induction false} SortedUnique<T(!new)>(less: (T, T) -> bool, s: seq<T>, t: seq<T>)
    requires StrictWeakOrder(less) && TiesAreEqual(less, s)
    requires Sorted(less, s) && Sorted(less, t) && multiset(s) == multiset(t)
    ensures s == t
    decreases |s|
  {
    hide Sorted, TiesAreEqual, StrictWeakOrder;
    SameMembers(s, t);
    if |s| > 0 {
      SortedFirst(less, s, t);
      SortedTail(less, s);
      SortedTail(less, t);
      SameTails(s, t);
      SortedUnique(less, s[1..], t[1..]);
    }
  }

  method Insert<T(!new)>(less: (T, T) -> bool, s: seq<T>, x: T) returns (r: seq<T>)
    requires StrictWeakOrder(less) && Sorted(less, s)
    ensures multiset(r) == multiset(s) + multiset{x} && |r| == |s| + 1
    ensures Sorted(less, r)
  {
    var k := 0;
    while k < |s| && !less(x, s[k])
      invariant 0 <= k <= |s|
      invariant forall j :: 0 <= j < k ==> !less(x, s[j])
    {
      k := k + 1;
    }
    InsertRight(less, s, x, k);
    r := s[..k] + [x] + s[k..];
    assert s == s[..k] + s[k..];
    InsertSorted(less, s, x, k);
  }

  lemma InsertRight<T(!new)>(less: (T, T) -> bool, s: seq<T>, x: T, k: nat)
    requires StrictWeakOrder(less) && Sorted(less, s) && k <= |s|
    requires k < |s| ==> less(x, s[k])
    ensures forall j :: k <= j < |s| ==> !less(s[j], x)
  {
    forall j | k <= j < |s| ensures !less(s[j], x) {
      assert !less(s[k], x);
      assert j > k ==> !less(s[j], s[k]);
    }
  }

  lemma InsertSorted<T(!new)>(less: (T, T) -> bool, s: seq<T>, x: T, k: nat)
    requires Sorted(less, s) && k <= |s|
    requires forall j :: 0 <= j < k ==> !less(x, s[j])
    requires forall j :: k <= j < |s| ==> !less(s[j], x)
    ensures Sorted(less, s[..k] + [x] + s[k..])
  {
    var r := s[..k] + [x] + s[k..];
    forall i, j | 0 <= i < j < |r| ensures !less(r[j], r[i]) {
      assert r[i] == if i < k then s[i] else if i == k then x else s[i - 1];
      assert r[j] == if j < k then s[j] else if j == k then x else s[j - 1];
    }
  }

  /** The library sort: any comparison sort meets this contract; ties may come out in any order. */
  method Sort<T(!new)>(less: (T, T) -> bool, s: seq<T>) returns (r: seq<T>)
    requires StrictWeakOrder(less)
    ensures multiset(r) == multiset(s) && |r| == |s|
    ensures Sorted(less, r)
  {
    r := [];
    for i := 0 to |s|
      invariant multiset(r) == multiset(s[..i]) && |r| == i
      invariant Sorted(less, r)
    {
      assert s[..i + 1] == s[..i] + [s[i]];
      r := Insert(less, r, s[i]);
    }
    assert s[..|s|] == s;
  }

  /** A permutation of a duplicate-free sequence is duplicate-free and has the same members. */
  lemma PermutationFacts<T>(s: seq<T>, t: seq<T>)
    requires multiset(s) == multiset(t)
    ensures |s| == |t|
    ensures forall x :: x in s <==> x in t
    ensures NoDuplicates(s) ==> NoDuplicates(t)
  {
    assert |multiset(s)| == |s| && |multiset(t)| == |t|;
    forall x ensures x in s <==> x in t {
      MultisetMember(s, x); MultisetMember(t, x);
    }
    if NoDuplicates(s) {
      NoDuplicatesMultiset(s);
      MultisetNoDuplicates(t);
    }
  }

  lemma {:induction false} NoDuplicatesMultiset<T>(s: seq<T>)
    requires NoDuplicates(s)
    ensures forall x :: multiset(s)[x] <= 1
  {
    if |s| > 0 {
      NoDuplicatesMultiset(s[1..]);
      assert s == [s[0]] + s[1..];
      assert s[0] !in s[1..];
      MultisetMember(s[1..], s[0]);
    }
  }

  lemma MultisetNoDuplicates<T>(t: seq<T>)
    requires forall x :: multiset(t)[x] <= 1
    ensures NoDuplicates(t)
  {
    forall i, j | 0 <= i < j < |t| ensures t[i] != t[j] {
      assert t == t[..i] + [t[i]] + t[i + 1..j] + [t[j]] + t[j + 1..];
      assert multiset(t) ==
             multiset(t[..i]) + multiset{t[i]} + multiset(t[i + 1..j]) + multiset{t[j]} + multiset(t[j + 1..]);
      assert multiset(t)[t[j]] >= 1 + multiset{t[i]}[t[j]];
    }
  }

  /** Duplicate-free sequences over the same members are permutations of each other. */
  lemma SameMembersSameMultiset<T>(s: seq<T>, t: seq<T>)
    requires NoDuplicates(s) && NoDuplicates(t)
    requires forall x :: x in s <==> x in t
    ensures multiset(s) == multiset(t)
  {
    NoDuplicatesMultiset(s);
    NoDuplicatesMultiset(t);
    forall x ensures multiset(s)[x] == multiset(t)[x] {
      MultisetMember(s, x); MultisetMember(t, x);
    }
  }
}
