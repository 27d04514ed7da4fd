/** The order in which an ordered set of session ids is iterated: strings compared code point
    by code point, which for UTF-8 is the same as byte by byte. */
module SessionOrder {
  type SessionId = string

  predicate Before(a: SessionId, b: SessionId) {
    |b| > 0 && (|a| == 0 || a[0] < b[0] || (a[0] == b[0] && Before(a[1..], b[1..])))
  }

  /** One string comes before another exactly if it is a proper beginning of it, or is smaller at the first
      place where they differ. */
  lemma {:induction false} BeforeAtDifference(a: SessionId, b: SessionId)
    ensures Before(a, b) <==>
              exists k :: 0 <= k <= |a| && k < |b| && a[..k] == b[..k] && (k == |a| || a[k] < b[k])
  {
    if |a| > 0 && |b| > 0 && a[0] == b[0] {
      BeforeAtDifference(a[1..], b[1..]);
      if Before(a, b) {
        var k :| 0 <= k <= |a[1..]| && k < |b[1..]| && a[1..][..k] == b[1..][..k] && (k == |a[1..]| || a[1..][k] < b[1..][k]);
        assert a[..k + 1] == [a[0]] + a[1..][..k] && b[..k + 1] == [b[0]] + b[1..][..k];
      }
      if k :| 0 <= k <= |a| && k < |b| && a[..k] == b[..k] && (k == |a| || a[k] < b[k]) {
        assert k > 0;
        assert a[1..][..k - 1] == a[..k][1..] && b[1..][..k - 1] == b[..k][1..];
      }
    } else if |b| > 0 && Before(a, b) {
      assert a[..0] == b[..0];
    } else if k :| 0 <= k <= |a| && k < |b| && a[..k] == b[..k] && (k == |a| || a[k] < b[k]) {
      assert k > 0 ==> a[..k][0] == b[..k][0];
    }
  }

  lemma {:induction false} BeforeIrreflexive(a: SessionId)
    ensures !Before(a, a)
  {
    if |a| > 0 { BeforeIrreflexive(a[1..]); }
  }

  lemma {:induction false} BeforeTrichotomy(a: SessionId, b: SessionId)
    ensures a == b || Before(a, b) || Before(b, a)
    ensures !(Before(a, b) && Before(b, a))
    ensures !Before(a, a)
  {
    BeforeIrreflexive(a);
    if |a| > 0 && |b| > 0 && a[0] == b[0] {
      BeforeTrichotomy(a[1..], b[1..]);
      if a[1..] == b[1..] {
        assert a == [a[0]] + a[1..] && b == [b[0]] + b[1..];
      }
    }
  }

  lemma {:induction false} BeforeTransitive(a: SessionId, b: SessionId, c: SessionId)
    requires Before(a, b) && Before(b, c)
    ensures Before(a, c)
  {
    if |a| > 0 && a[0] == b[0] && b[0] == c[0] {
      BeforeTransitive(a[1..], b[1..], c[1..]);
    }
  }

  predicate IsFirst(a: SessionId, ss: set<SessionId>) {
    a in ss && forall b :: b in ss && b != a ==> Before(a, b)
  }

  lemma {:induction false} FirstExists(ss: set<SessionId>)
    requires ss != {}
    ensures exists a :: IsFirst(a, ss)
    decreases |ss|
  {
    var x :| x in ss;
    if ss == {x} {
      assert IsFirst(x, ss);
    } else {
      var rest := ss - {x};
      FirstExists(rest);
      var y :| IsFirst(y, rest);
      BeforeTrichotomy(x, y);
      if Before(x, y) {
        forall b | b in ss && b != x ensures Before(x, b) {
          if b != y { BeforeTransitive(x, y, b); }
        }
        assert IsFirst(x, ss);
      } else {
        assert IsFirst(y, ss);
      }
    }
  }

  lemma FirstUnique(a: SessionId, b: SessionId, ss: set<SessionId>)
    requires IsFirst(a, ss) && IsFirst(b, ss)
    ensures a == b
  {
    BeforeTrichotomy(a, b);
  }

  ghost predicate Ascending(order: seq<SessionId>) {
    forall i, j :: 0 <= i < j < |order| ==> Before(order[i], order[j])
  }

  function First(ss: set<SessionId>): (a: SessionId)
    requires ss != {}
    ensures IsFirst(a, ss)
  {
    FirstExists(ss);
    assert forall a, b | IsFirst(a, ss) && IsFirst(b, ss) :: a == b by {
      forall a, b | IsFirst(a, ss) && IsFirst(b, ss) ensures a == b { FirstUnique(a, b, ss); }
    }
    var a :| IsFirst(a, ss);
    a
  }

  /** The sessions of a set in ascending order. */
  function Ordered(ss: set<SessionId>): (order: seq<SessionId>)
    ensures forall s :: s in order <==> s in ss
    ensures |order| == |ss|
    ensures Ascending(order)
    decreases |ss|
  {
    if ss == {} then [] else
      var a := First(ss);
      var rest := Ordered(ss - {a});
      assert forall i :: 0 <= i < |rest| ==> rest[i] in ss - {a};
      [a] + rest
  }

  lemma AscendingDistinct(order: seq<SessionId>, i: nat, j: nat)
    requires Ascending(order) && i < |order| && j < |order| && order[i] == order[j]
    ensures i == j
  {
    BeforeTrichotomy(order[i], order[j]);
  }
}
