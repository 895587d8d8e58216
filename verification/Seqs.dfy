/** Sequences without duplicates: removal of one element. */
module Seqs {

  ghost predicate NoDup<T>(s: seq<T>) {
    forall i, j :: 0 <= i < j < |s| ==> s[i] != s[j]
  }

  /** s without the first occurrence of x. */
  function Remove<T(==)>(s: seq<T>, x: T): (r: seq<T>)
  {
    if s == [] then []
    else if s[0] == x then s[1..]
    else [s[0]] + Remove(s[1..], x)
  }

  lemma {:induction false} RemoveAt<T>(s: seq<T>, k: nat)
    requires NoDup(s) && k < |s|
    ensures Remove(s, s[k]) == s[..k] + s[k + 1..]
  {
    if k == 0 {
      assert s[..0] + s[1..] == s[1..];
    } else {
      assert s[0] != s[k];
      RemoveAt(s[1..], k - 1);
      calc {
        Remove(s, s[k]);
        [s[0]] + Remove(s[1..], s[1..][k - 1]);
        [s[0]] + (s[1..][..k - 1] + s[1..][k..]);
        { assert s[1..][..k - 1] == s[1..k] && s[1..][k..] == s[k + 1..]; }
        [s[0]] + (s[1..k] + s[k + 1..]);
        s[..k] + s[k + 1..];
      }
    }
  }

  lemma {:induction false} RemoveAbsent<T>(s: seq<T>, x: T)
    requires x !in s
    ensures Remove(s, x) == s
  {
    if s != [] {
      RemoveAbsent(s[1..], x);
    }
  }

  lemma RemoveMembers<T>(s: seq<T>, x: T)
    requires NoDup(s)
    ensures NoDup(Remove(s, x))
    ensures forall y :: y in Remove(s, x) <==> y in s && y != x
  {
    if x in s {
      var k :| 0 <= k < |s| && s[k] == x;
      RemoveAt(s, k);
      var r := s[..k] + s[k + 1..];
      forall y | y in s && y != x ensures y in r {
        var j :| 0 <= j < |s| && s[j] == y;
        assert if j < k then r[j] == y else r[j - 1] == y;
      }
    } else {
      RemoveAbsent(s, x);
    }
  }

  lemma RemoveKeepsHead<T>(s: seq<T>, x: T)
    requires s != [] && s[0] != x
    ensures Remove(s, x) != [] && Remove(s, x)[0] == s[0]
  {
  }

  lemma InsertMembers<T>(s: seq<T>, k: nat, x: T)
    requires NoDup(s) && x !in s && k <= |s|
    ensures NoDup(s[..k] + [x] + s[k..])
    ensures forall y :: y in s[..k] + [x] + s[k..] <==> y in s || y == x
  {
    var r := s[..k] + [x] + s[k..];
    forall y | y in s ensures y in r {
      var j :| 0 <= j < |s| && s[j] == y;
      assert if j < k then r[j] == y else r[j + 1] == y;
    }
    assert r[k] == x;
  }

  /** Distinct numbers below n are at most n. */
  lemma {:induction false} DistinctBelow(s: seq<nat>, n: nat)
    requires NoDup(s) && forall k :: 0 <= k < |s| ==> s[k] < n
    ensures |s| <= n
    decreases n
  {
    assert |s| > 0 ==> s[0] < n;
    if n > 0 {
      var x: nat := n - 1;
      RemoveMembers(s, x);
      var r: seq<nat> := Remove(s, x);
      RemoveLength(s, x);
      forall k | 0 <= k < |r| ensures r[k] < n - 1 {
        assert r[k] in r;
        var j :| 0 <= j < |s| && s[j] == r[k];
      }
      DistinctBelow(r, n - 1);
    }
  }

  lemma {:induction false} RemoveLength(s: seq<nat>, x: nat)
    ensures |Remove(s, x)| >= |s| - 1
  {
    if s != [] { RemoveLength(s[1..], x); }
  }
}
