/** Sequence operations that the scheduler's linked lists implement. */
module Lists {
  ghost predicate Distinct<T>(s: seq<T>) {
    forall i, j :: 0 <= i < j < |s| ==> s[i] != s[j]
  }

  function IndexOf<T(==)>(s: seq<T>, x: T): (i: nat)
    requires x in s
    ensures i < |s| && s[i] == x
  {
    if s[0] == x then 0 else 1 + IndexOf(s[1..], x)
  }

  /** Deletion. */
  function Without<T(==)>(s: seq<T>, x: T): seq<T> {
    if x in s then s[..IndexOf(s, x)] + s[IndexOf(s, x) + 1..] else s
  }

  /** Insertion right after `c`. */
  function InsertAfter<T(==)>(s: seq<T>, c: T, x: T): seq<T>
    requires c in s
  {
    s[..IndexOf(s, c) + 1] + [x] + s[IndexOf(s, c) + 1..]
  }

  lemma DistinctTail<T>(s: seq<T>)
    requires Distinct(s) && s != []
    ensures Distinct(s[1..]) && s[0] !in s[1..]
  {}

  lemma IndexUnique<T>(s: seq<T>, i: nat)
    requires Distinct(s) && i < |s|
    ensures s[i] in s && IndexOf(s, s[i]) == i
  {}

  lemma WithoutAt<T>(s: seq<T>, i: nat)
    requires Distinct(s) && i < |s|
    ensures Without(s, s[i]) == s[..i] + s[i + 1..]
  {
    IndexUnique(s, i);
  }

  lemma WithoutDistinct<T>(s: seq<T>, x: T)
    requires Distinct(s)
    ensures Distinct(Without(s, x)) && x !in Without(s, x)
    ensures |Without(s, x)| == if x in s then |s| - 1 else |s|
  {
    if x in s {
      var k := IndexOf(s, x);
      var r := Without(s, x);
      assert |r| == |s| - 1;
      forall i | 0 <= i < |r|
        ensures r[i] == s[if i < k then i else i + 1] && r[i] != x
      {}
      forall i, j | 0 <= i < j < |r|
        ensures r[i] != r[j]
      {
        assert r[i] == s[if i < k then i else i + 1] && r[j] == s[if j < k then j else j + 1];
      }
    }
  }

  lemma WithoutMembers(s: seq<nat>, x: nat)
    requires Distinct(s)
    ensures forall y :: y in Without(s, x) <==> y in s && y != x
    ensures Distinct(Without(s, x))
    ensures |Without(s, x)| == if x in s then |s| - 1 else |s|
  {
    WithoutDistinct(s, x);
    if x in s {
      var k := IndexOf(s, x);
      assert s == s[..k] + [x] + s[k + 1..];
    }
  }

  lemma InsertAfterMembers(s: seq<nat>, c: nat, x: nat)
    requires Distinct(s) && c in s && x !in s
    ensures forall y :: y in InsertAfter(s, c, x) <==> y in s || y == x
    ensures Distinct(InsertAfter(s, c, x)) && |InsertAfter(s, c, x)| == |s| + 1
  {
    var k := IndexOf(s, c);
    var r := InsertAfter(s, c, x);
    assert s == s[..k + 1] + s[k + 1..];
    InsertedAt(s, k, x);
    forall i, j | 0 <= i < j < |r|
      ensures r[i] != r[j]
    {}
  }

  lemma InsertedAt(s: seq<nat>, k: nat, x: nat)
    requires k < |s|
    ensures var r := s[..k + 1] + [x] + s[k + 1..];
            && |r| == |s| + 1
            && forall i :: 0 <= i < |r| ==> r[i] == if i <= k then s[i] else if i == k + 1 then x else s[i - 1]
  {}

  lemma AppendMembers(s: seq<nat>, x: nat)
    requires Distinct(s) && x !in s
    ensures forall y :: y in s + [x] <==> y in s || y == x
    ensures Distinct(s + [x])
  {}

  /** The first element survives deletions of, and insertions after, other elements. */
  lemma HeadStays(s: seq<nat>, x: nat)
    requires s != [] && Distinct(s) && s[0] != x
    ensures Without(s, x) != [] && Without(s, x)[0] == s[0]
  {
    if x in s {
      assert IndexOf(s, x) > 0;
    }
  }
}
