/** `ORDER BY` over a finite set of rows: keys are compared lexicographically and end in the row's identifier. */
module Ordering {

  datatype Key = Key(rank: int, created: int, id: nat)

  predicate Before(a: Key, b: Key) {
    || a.rank < b.rank
    || (a.rank == b.rank && a.created < b.created)
    || (a.rank == b.rank && a.created == b.created && a.id < b.id)
  }

  ghost predicate Ascending(q: seq<Key>) {
    forall i, j | 0 <= i < j < |q| :: Before(q[i], q[j])
  }

  predicate IsLeast(m: Key, s: set<Key>) {
    m in s && forall k | k in s :: k == m || Before(m, k)
  }

  lemma HasLeast(s: set<Key>) returns (m: Key)
    requires s != {}
    ensures IsLeast(m, s)
  {
    var x :| x in s;
    assert s == (s - {x}) + {x};
    if s - {x} == {} {
      m := x;
    } else {
      var y := HasLeast(s - {x});
      m := if Before(x, y) then x else y;
    }
  }

  function Least(s: set<Key>): (m: Key)
    requires s != {}
    ensures IsLeast(m, s)
  {
    assert exists m :: m in s && IsLeast(m, s) by { var m := HasLeast(s); }
    var m :| m in s && IsLeast(m, s);
    m
  }

  /** The rows in order. */
  function Sorted(s: set<Key>): (q: seq<Key>)
    ensures forall k :: k in q <==> k in s
    ensures Ascending(q)
  {
    if s == {} then []
    else
      var m := Least(s);
      [m] + Sorted(s - {m})
  }

  lemma FirstIsMember(q: seq<Key>)
    ensures q == [] || q[0] in q
  {
  }

  /** Two ascending lists of the same keys are equal. */
  lemma {:induction false} AscendingUnique(a: seq<Key>, b: seq<Key>)
    requires Ascending(a) && Ascending(b)
    requires forall k :: k in a <==> k in b
    ensures a == b
  {
    if a == [] {
      FirstIsMember(b);
    } else {
      assert a[0] in b && (b == [] || b[0] in a);
      assert a[0] == b[0];
      forall k ensures k in a[1..] <==> k in b[1..] {
        assert k in a <==> k == a[0] || k in a[1..];
        assert k in b <==> k == b[0] || k in b[1..];
        assert a[0] !in a[1..] && b[0] !in b[1..];
      }
      AscendingUnique(a[1..], b[1..]);
    }
  }
}
