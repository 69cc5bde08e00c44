/** How the registry numbers tailnets. */
module Ids {
  ghost function Pick<T>(s: set<T>): (x: T)
    requires s != {}
    ensures x in s
  {
    var x :| x in s;
    x
  }

  /** One more than the largest id, and at least 1. */
  ghost function NextIDAfter(ids: set<int>): (n: int)
    ensures n >= 1 && (forall id :: id in ids ==> id < n) && (n == 1 || n - 1 in ids)
  {
    if ids == {} then 1
    else
      var x := Pick(ids);
      var n := NextIDAfter(ids - {x});
      assert ids == (ids - {x}) + {x};
      if x >= n then x + 1 else n
  }

  // ----- Ascending ids -----------------------------------------------------------------------------

  predicate Ascending(ids: seq<int>) {
    ids != [] ==>
      var before, last := ids[..|ids| - 1], ids[|ids| - 1];
      Ascending(before) && forall id :: id in before ==> id < last
  }

  predicate Distinct(ids: seq<int>) {
    ids != [] ==>
      var before, last := ids[..|ids| - 1], ids[|ids| - 1];
      Distinct(before) && last !in before
  }

  function Insert(ids: seq<int>, id: int): seq<int> {
    if ids == [] || ids[|ids| - 1] <= id then ids + [id]
    else Insert(ids[..|ids| - 1], id) + [ids[|ids| - 1]]
  }

  /** What the library's sort leaves; ids are distinct, so there is only one such order. */
  function Sorted(ids: seq<int>): seq<int> {
    if ids == [] then [] else Insert(Sorted(ids[..|ids| - 1]), ids[|ids| - 1])
  }

  lemma {:induction false} InsertKeepsOrder(ids: seq<int>, id: int)
    requires Ascending(ids) && id !in ids
    ensures Ascending(Insert(ids, id))
    ensures forall x :: x in Insert(ids, id) <==> x in ids || x == id
  {
    if ids != [] && ids[|ids| - 1] > id {
      var before, last := ids[..|ids| - 1], ids[|ids| - 1];
      InsertKeepsOrder(before, id);
      assert ids == before + [last];
      assert (Insert(before, id) + [last])[..|Insert(before, id)|] == Insert(before, id);
    } else {
      assert (ids + [id])[..|ids|] == ids;
      assert ids != [] ==> ids == ids[..|ids| - 1] + [ids[|ids| - 1]];
    }
  }

  /** Sorting distinct ids keeps them and puts them in order. */
  lemma {:induction false} SortedIsAscending(ids: seq<int>)
    requires Distinct(ids)
    ensures Ascending(Sorted(ids))
    ensures forall x :: x in Sorted(ids) <==> x in ids
  {
    if ids != [] {
      var before, last := ids[..|ids| - 1], ids[|ids| - 1];
      SortedIsAscending(before);
      InsertKeepsOrder(Sorted(before), last);
      assert ids == before + [last];
    }
  }

  /** The order is determined by the set: two ascending lists with the same members are equal. */
  lemma {:induction false} AscendingUnique(xs: seq<int>, ys: seq<int>)
    requires Ascending(xs) && Ascending(ys) && forall x :: x in xs <==> x in ys
    ensures xs == ys
  {
    var a, b := if xs == [] then 0 else xs[0], if ys == [] then 0 else ys[0];
    assert xs != [] ==> a in xs && a in ys;
    assert ys != [] ==> b in ys && b in xs;
    if xs != [] && ys != [] {
      var x, y, m, n := xs[..|xs| - 1], ys[..|ys| - 1], xs[|xs| - 1], ys[|ys| - 1];
      assert xs == x + [m] && ys == y + [n];
      assert m in xs && n in ys;
      assert m == n;
      forall z ensures z in x <==> z in y {
        assert z in xs <==> z in x || z == m;
        assert z in ys <==> z in y || z == n;
      }
      AscendingUnique(x, y);
    }
  }

  /** In an ascending list, earlier means smaller. */
  lemma {:induction false} AscendingAt(ids: seq<int>, i: nat, j: nat)
    requires Ascending(ids) && i < j < |ids|
    ensures ids[i] < ids[j]
  {
    var before := ids[..|ids| - 1];
    if j == |ids| - 1 {
      assert before[i] in before;
    } else {
      AscendingAt(before, i, j);
    }
  }

  /** The members of a set in ascending order. */
  ghost function Listing(ids: set<int>): (r: seq<int>)
    ensures Ascending(r) && forall x :: x in r <==> x in ids
  {
    if ids == {} then []
    else
      var x := Pick(ids);
      assert ids == (ids - {x}) + {x};
      InsertKeepsOrder(Listing(ids - {x}), x);
      Insert(Listing(ids - {x}), x)
  }
}
