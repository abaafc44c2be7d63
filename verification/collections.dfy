/** Small facts about sequences used as ordered sets. */
module Collections {

  /** No element occurs twice. */
  predicate NoDup<T(==)>(s: seq<T>)
  {
    forall i, j :: 0 <= i < j < |s| ==> s[i] != s[j]
  }

  /** The elements of a sequence, as a set. */
  function Elems<T>(s: seq<T>): set<T>
  {
    set x | x in s
  }

  /** A duplicate-free sequence has exactly as many elements as its element set. */
  lemma {:induction false} NoDupCard<T>(s: seq<T>)
    requires NoDup(s)
    ensures |Elems(s)| == |s|
  {
    if |s| > 0 {
      var init := s[..|s| - 1];
      var last := s[|s| - 1];
      assert NoDup(init);
      NoDupCard(init);
      assert last !in init;
      assert Elems(s) == Elems(init) + {last};
    }
  }

  /**
    For a sub-set of the elements of a duplicate-free sequence, comparing sizes
    is the same as comparing the sets themselves.
  */
  lemma SubsetCountIsSetEquality<T>(done: set<T>, s: seq<T>)
    requires NoDup(s)
    requires done <= Elems(s)
    ensures |done| >= |s| <==> done == Elems(s)
  {
    NoDupCard(s);
    if |done| >= |s| && done != Elems(s) {
      var x :| x in Elems(s) && x !in done;
      assert done <= Elems(s) - {x};
      assert |Elems(s) - {x}| == |s| - 1;
      SubsetCard(done, Elems(s) - {x});
    }
  }

  /** A subset is no larger than its superset. */
  lemma {:induction false} SubsetCard<T>(a: set<T>, b: set<T>)
    requires a <= b
    ensures |a| <= |b|
    decreases a
  {
    if a != {} {
      var x :| x in a;
      SubsetCard(a - {x}, b - {x});
    }
  }

  /** Putting a new element in front keeps a sequence duplicate-free. */
  lemma NoDupCons<T>(x: T, s: seq<T>)
    requires NoDup(s) && x !in s
    ensures NoDup([x] + s)
    ensures Elems([x] + s) == {x} + Elems(s)
  {
    var c := [x] + s;
    forall i, j | 0 <= i < j < |c|
      ensures c[i] != c[j]
    {
      assert c[j] == s[j - 1];
      if i > 0 {
        assert c[i] == s[i - 1];
      }
    }
  }

  /** Removing one position from a duplicate-free sequence removes exactly that element. */
  lemma NoDupRemoveAt<T>(s: seq<T>, k: nat)
    requires NoDup(s) && k < |s|
    ensures NoDup(s[..k] + s[k + 1..])
    ensures Elems(s[..k] + s[k + 1..]) == Elems(s) - {s[k]}
  {
    var r := s[..k] + s[k + 1..];
    assert |r| == |s| - 1;
    assert forall m :: 0 <= m < k ==> r[m] == s[m];
    assert forall m :: k <= m < |r| ==> r[m] == s[m + 1];
    forall y | y in Elems(s) - {s[k]}
      ensures y in Elems(r)
    {
      var m :| 0 <= m < |s| && s[m] == y;
      if m < k {
        assert r[m] == y;
      } else {
        assert r[m - 1] == y;
      }
    }
  }
}
