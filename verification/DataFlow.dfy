/** Data that come into a queue and go out of it: what balances, and what keeps its order. */
module DataFlow {

  // ----- subsequences -----

  /** a is b without some of its elements. */
  predicate Sub(a: seq<int>, b: seq<int>) {
    if a == [] then true
    else b != [] && ((a[0] == b[0] && Sub(a[1..], b[1..])) || Sub(a, b[1..]))
  }

  lemma SubRefl(a: seq<int>)
    ensures Sub(a, a)
  {
    SubBoth(a, [], []);
    assert a + [] == a;
  }

  lemma {:induction false} SubLonger(a: seq<int>, x: seq<int>, b: seq<int>)
    requires Sub(a, b)
    ensures Sub(a, x + b)
  {
    if x == [] {
      assert x + b == b;
    } else {
      SubLonger(a, x[1..], b);
      assert (x + b)[1..] == x[1..] + b;
    }
  }

  lemma {:induction false} SubBoth(x: seq<int>, a: seq<int>, b: seq<int>)
    requires Sub(a, b)
    ensures Sub(x + a, x + b)
  {
    if x == [] {
      assert x + a == a && x + b == b;
    } else {
      SubBoth(x[1..], a, b);
      assert (x + a)[1..] == x[1..] + a && (x + b)[1..] == x[1..] + b;
    }
  }

  lemma {:induction false} SubAppend(a: seq<int>, b: seq<int>, z: seq<int>)
    requires Sub(a, b)
    ensures Sub(a + z, b + z)
  {
    if a == [] {
      SubBoth(z, [], []);
      assert a + z == z == z + [];
      SubLonger(z, b, z);
    } else {
      assert (a + z)[1..] == a[1..] + z && (b + z)[1..] == b[1..] + z;
      if a[0] == b[0] && Sub(a[1..], b[1..]) { SubAppend(a[1..], b[1..], z); } else { SubAppend(a, b[1..], z); }
    }
  }

  lemma {:induction false} SubTrans(a: seq<int>, b: seq<int>, c: seq<int>)
    requires Sub(a, b) && Sub(b, c)
    ensures Sub(a, c)
    decreases |c|
  {
    if a != [] {
      if b[0] == c[0] && Sub(b[1..], c[1..]) {
        if a[0] == b[0] && Sub(a[1..], b[1..]) {
          SubTrans(a[1..], b[1..], c[1..]);
        } else {
          SubTrans(a, b[1..], c[1..]);
        }
      } else {
        SubTrans(a, b, c[1..]);
      }
    }
  }

  /** A part in the middle is left out. */
  lemma SubWithout(a: seq<int>, x: seq<int>, b: seq<int>)
    ensures Sub(a + b, a + x + b)
  {
    SubRefl(b);
    SubLonger(b, x, b);
    SubBoth(a, b, x + b);
    assert a + (x + b) == a + x + b;
  }

  lemma {:induction false} SubSameLength(a: seq<int>, b: seq<int>)
    requires Sub(a, b)
    ensures |a| <= |b| && (|a| == |b| ==> a == b)
  {
    if a != [] {
      if a[0] == b[0] && Sub(a[1..], b[1..]) { SubSameLength(a[1..], b[1..]); } else { SubSameLength(a, b[1..]); }
    }
  }

  // ----- flows -----

  /** What is sent; what leaves because it is received, because it is dropped, because its sender gives up. */
  datatype Flow = Flow(sent: seq<int>, delivered: seq<int>, dropped: seq<int>, withdrawn: seq<int>)

  const NoFlow := Flow([], [], [], [])

  function Plus(a: Flow, b: Flow): Flow {
    Flow(a.sent + b.sent, a.delivered + b.delivered, a.dropped + b.dropped, a.withdrawn + b.withdrawn)
  }

  /** The data that entered and left are those of the flow. */
  ghost predicate Balances(l: seq<int>, f: Flow, l': seq<int>) {
    multiset(l) + multiset(f.sent)
    == multiset(l') + multiset(f.delivered) + multiset(f.dropped) + multiset(f.withdrawn)
  }

  lemma NothingFlows(l: seq<int>)
    ensures Balances(l, NoFlow, l)
  {
  }

  lemma SumsOn(l0: multiset<int>, ts: multiset<int>, l: multiset<int>, td: multiset<int>, tp: multiset<int>,
      tw: multiset<int>, fs: multiset<int>, l': multiset<int>, fd: multiset<int>, fp: multiset<int>, fw: multiset<int>)
    requires l0 + ts == l + td + tp + tw && l + fs == l' + fd + fp + fw
    ensures l0 + (ts + fs) == l' + (td + fd) + (tp + fp) + (tw + fw)
  {
    forall x: int ensures (l0 + (ts + fs))[x] == (l' + (td + fd) + (tp + fp) + (tw + fw))[x] {
      assert (l0 + ts)[x] == (l + td + tp + tw)[x] && (l + fs)[x] == (l' + fd + fp + fw)[x];
    }
  }

  lemma BalancesOn(l0: seq<int>, t: Flow, l: seq<int>, f: Flow, l': seq<int>)
    requires Balances(l0, t, l) && Balances(l, f, l')
    ensures Balances(l0, Plus(t, f), l')
  {
    var td, tp, tw := multiset(t.delivered), multiset(t.dropped), multiset(t.withdrawn);
    var fd, fp, fw := multiset(f.delivered), multiset(f.dropped), multiset(f.withdrawn);
    SumsOn(multiset(l0), multiset(t.sent), multiset(l), td, tp, tw, multiset(f.sent), multiset(l'), fd, fp, fw);
  }

  lemma Regrouped(a: seq<int>, b: seq<int>, c: seq<int>)
    ensures a + (b + c) == a + b + c
  {
  }

  lemma InOrderOn(l0: seq<int>, d: seq<int>, l: seq<int>, s: seq<int>, d1: seq<int>, l': seq<int>, s1: seq<int>)
    requires Sub(d + l, l0 + s) && Sub(d1 + l', l + s1)
    ensures Sub(d + d1 + l', l0 + (s + s1))
  {
    hide Sub;
    SubBoth(d, d1 + l', l + s1);
    SubAppend(d + l, l0 + s, s1);
    Regrouped(d, d1, l');
    Regrouped(d, l, s1);
    Regrouped(l0, s, s1);
    SubTrans(d + d1 + l', d + l + s1, l0 + s + s1);
  }

  lemma SizesAgree(l: seq<int>, f: Flow, l': seq<int>)
    requires Balances(l, f, l')
    ensures |l| + |f.sent| == |l'| + |f.delivered| + |f.dropped| + |f.withdrawn|
  {
    assert |multiset(l) + multiset(f.sent)| == |l| + |f.sent|;
    assert |multiset(l') + multiset(f.delivered) + multiset(f.dropped) + multiset(f.withdrawn)|
        == |l'| + |f.delivered| + |f.dropped| + |f.withdrawn|;
  }

  // ----- what one step can do -----

  /** Nothing but x comes in, at the end. */
  lemma Passing(l: seq<int>, x: seq<int>)
    ensures Balances(l, Flow(x, [], [], []), l + x) && Sub([] + (l + x), l + x)
    ensures x == [] ==> l + x == l
    ensures l == [] ==> Balances(l, Flow(x, x, [], []), []) && Sub(x + [], l + x)
  {
    SubRefl(l + x);
    assert [] + (l + x) == l + x && x + [] == x && [] + x == x;
  }

  lemma InsertBalances(a: seq<int>, x: seq<int>, b: seq<int>)
    ensures Balances(a + b, Flow(x, [], [], []), a + x + b)
  {
  }

  /** x comes in somewhere. */
  lemma ComingIn(a: seq<int>, x: seq<int>, b: seq<int>)
    ensures Balances(a + b, Flow(x, [], [], []), a + x + b)
    ensures b == [] ==> Sub([] + (a + x + b), (a + b) + x)
  {
    hide Balances, Sub;
    InsertBalances(a, x, b);
    if b == [] {
      SubRefl(a + x);
      assert [] + (a + x + b) == a + x && (a + b) + x == a + x;
    }
  }

  lemma TakenFirst(x: seq<int>, l: seq<int>)
    ensures Balances(x + l, Flow([], x, [], []), l) && Sub(x + l, x + l + [])
  {
    SubRefl(x + l);
    assert x + l + [] == x + l;
  }

  lemma Cleared(l: seq<int>)
    ensures Balances(l, Flow([], [], l, []), []) && Sub([] + [], l + [])
  {
  }

  /** x is taken out of the middle. */
  lemma Leaving(a: seq<int>, x: seq<int>, b: seq<int>)
    ensures Balances(a + x + b, Flow([], [], [], x), a + b) && Sub([] + (a + b), a + x + b + [])
  {
    SubWithout(a, x, b);
    assert [] + (a + b) == a + b && a + x + b + [] == a + x + b;
  }

  lemma Reordered(buf: seq<int>, m: seq<int>, m': seq<int>)
    requires multiset(m') == multiset(m)
    ensures Balances(buf + m, NoFlow, buf + m')
  {
  }
}
