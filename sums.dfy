/** Sums over a collection: the value of `array.reduce((sum, x) => sum + w(x), 0)`
    over the documents of a collection, whatever order the database returns
    them in. A collection's per-document weights are a `map<Id, int>`; its
    total adds them up in no particular order. */
module Sums {
  import opened Common

  ghost function Total(w: map<Id, int>): int
    decreases w.Keys
  {
    if w == map[] then 0
    else
      var k :| k in w;
      w[k] + Total(w - {k})
  }

  /** Any entry can be taken out first: the order of summation is irrelevant. */
  lemma {:induction false} TotalRemove(w: map<Id, int>, k: Id)
    requires k in w
    ensures Total(w) == w[k] + Total(w - {k})
    decreases w.Keys
  {
    var j :| j in w && Total(w) == w[j] + Total(w - {j});
    if j != k {
      TotalRemove(w - {j}, k);
      TotalRemove(w - {k}, j);
      assert (w - {j}) - {k} == (w - {k}) - {j};
    }
  }

  /** Changing one weight changes the total by the difference. */
  lemma TotalUpdate(w: map<Id, int>, k: Id, v: int)
    requires k in w
    ensures Total(w[k := v]) == Total(w) - w[k] + v
  {
    TotalRemove(w, k);
    TotalRemove(w[k := v], k);
    assert w[k := v] - {k} == w - {k};
  }

  /** Adding a fresh entry adds its weight. */
  lemma TotalInsert(w: map<Id, int>, k: Id, v: int)
    requires k !in w
    ensures Total(w[k := v]) == Total(w) + v
  {
    TotalRemove(w[k := v], k);
    assert w[k := v] - {k} == w;
  }

  /** All weights zero: the total is zero. */
  lemma {:induction false} TotalZero(w: map<Id, int>)
    requires forall k :: k in w ==> w[k] == 0
    ensures Total(w) == 0
    decreases w.Keys
  {
    if w != map[] {
      var k :| k in w;
      TotalRemove(w, k);
      TotalZero(w - {k});
    }
  }

  /** The entries outside `d` together with those inside it make up the total. */
  lemma {:induction false} TotalSplit(w: map<Id, int>, d: set<Id>)
    ensures Total(w) == Total(w - d) + Total(Restrict(w, d))
    decreases w.Keys
  {
    if w == map[] {
      assert w - d == map[];
      assert Restrict(w, d) == map[];
    } else {
      var k :| k in w;
      TotalRemove(w, k);
      TotalSplit(w - {k}, d);
      if k in d {
        assert (w - {k}) - d == w - d;
        assert Restrict(w - {k}, d) == Restrict(w, d) - {k};
        TotalRemove(Restrict(w, d), k);
      } else {
        assert (w - {k}) - d == (w - d) - {k};
        assert Restrict(w - {k}, d) == Restrict(w, d);
        TotalRemove(w - d, k);
      }
    }
  }

  /** Removing entries of weight zero leaves the total unchanged. */
  lemma TotalDropZeros(w: map<Id, int>, d: set<Id>)
    requires forall k :: k in w && k in d ==> w[k] == 0
    ensures Total(w - d) == Total(w)
  {
    TotalSplit(w, d);
    TotalZero(Restrict(w, d));
  }

  /** The entries of `w` whose key is in `d`. */
  function Restrict(w: map<Id, int>, d: set<Id>): (r: map<Id, int>)
    ensures r.Keys == w.Keys * d
    ensures forall k :: k in r ==> r[k] == w[k]
  {
    map k | k in w && k in d :: w[k]
  }

  /** The keys of weight one. */
  function Ones(w: map<Id, int>): set<Id> {
    set k | k in w && w[k] == 1
  }

  /** A total of ones and zeros counts the ones. */
  lemma {:induction false} TotalCounts(w: map<Id, int>)
    requires forall k :: k in w ==> w[k] == 0 || w[k] == 1
    ensures Total(w) == |Ones(w)|
    decreases w.Keys
  {
    if w == map[] {
      assert Ones(w) == {};
    } else {
      var k :| k in w;
      TotalRemove(w, k);
      TotalCounts(w - {k});
      if w[k] == 1 {
        assert Ones(w) == Ones(w - {k}) + {k} && k !in Ones(w - {k});
      } else {
        assert Ones(w) == Ones(w - {k});
      }
    }
  }

  /** Totals are linear: weights that are pointwise differences sum to the
      difference of the sums. */
  lemma {:induction false} TotalDifference(a: map<Id, int>, b: map<Id, int>, c: map<Id, int>)
    requires a.Keys == b.Keys == c.Keys
    requires forall k :: k in a ==> a[k] == b[k] - c[k]
    ensures Total(a) == Total(b) - Total(c)
    decreases a.Keys
  {
    if a != map[] {
      var k :| k in a;
      TotalRemove(a, k);
      TotalRemove(b, k);
      TotalRemove(c, k);
      TotalDifference(a - {k}, b - {k}, c - {k});
    }
  }
}
