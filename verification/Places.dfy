/** Places in a list, in order. */
module Places {
  predicate Ascending(ps: seq<nat>) { forall a, b :: 0 <= a < b < |ps| ==> ps[a] < ps[b] }

  /** Two ascending lists of the same places are equal. */
  lemma {:induction false} AscendingUnique(ps: seq<nat>, qs: seq<nat>)
    requires Ascending(ps) && Ascending(qs) && forall i: nat :: i in ps <==> i in qs
    ensures ps == qs
    decreases |ps|
  {
    if qs != [] {
      assert qs[|qs| - 1] in ps;
    }
    if ps != [] {
      assert ps[|ps| - 1] in qs;
      var p, q := ps[|ps| - 1], qs[|qs| - 1];
      assert q in ps;
      assert p == q;
      var ps', qs' := ps[..|ps| - 1], qs[..|qs| - 1];
      forall i: nat
        ensures i in ps' <==> i in qs'
      {
        assert i in ps' <==> i in ps && i != p;
        assert i in qs' <==> i in qs && i != q;
      }
      AscendingUnique(ps', qs');
      assert ps == ps' + [p] && qs == qs' + [q];
    }
  }

  /** The places of the elements that satisfy a condition, in order, and those elements. */
  ghost predicate Picks<T(!new)>(xs: seq<T>, keep: T -> bool, ps: seq<nat>, part: seq<T>) {
    && Ascending(ps) && |ps| == |part|
    && (forall a :: 0 <= a < |ps| ==> ps[a] < |xs| && part[a] == xs[ps[a]])
    && forall i: nat :: i in ps <==> i < |xs| && keep(xs[i])
  }

  /** The part of a list that satisfies a condition, in order. */
  ghost predicate Sifted<T(!new)>(xs: seq<T>, keep: T -> bool, part: seq<T>) { exists ps :: Picks(xs, keep, ps, part) }

  lemma SiftedUnique<T(!new)>(xs: seq<T>, keep: T -> bool, part: seq<T>, other: seq<T>)
    requires Sifted(xs, keep, part) && Sifted(xs, keep, other)
    ensures part == other
  {
    var ps :| Picks(xs, keep, ps, part);
    var qs :| Picks(xs, keep, qs, other);
    assert forall i: nat :: i in ps <==> i in qs;
    AscendingUnique(ps, qs);
  }

  lemma NothingSifted<T(!new)>(keep: T -> bool)
    ensures Sifted([], keep, [])
  {
    assert Picks([], keep, [], []);
  }

  lemma AscendingSnoc(ps: seq<nat>, n: nat)
    requires Ascending(ps) && forall a :: 0 <= a < |ps| ==> ps[a] < n
    ensures Ascending(ps + [n])
    ensures forall i :: i in ps + [n] <==> i in ps || i == n
  {
  }

  lemma SiftedSnoc<T(!new)>(xs: seq<T>, x: T, keep: T -> bool, part: seq<T>)
    requires Sifted(xs, keep, part)
    ensures Sifted(xs + [x], keep, if keep(x) then part + [x] else part)
  {
    var ps :| Picks(xs, keep, ps, part);
    var all, n: nat := xs + [x], |xs|;
    if keep(x) {
      AscendingSnoc(ps, n);
      hide Ascending;
      assert Picks(all, keep, ps + [n], part + [x]);
    } else {
      assert Picks(all, keep, ps, part);
    }
  }
}
