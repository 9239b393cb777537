/** Sums over the values of a finite map, for loops whose order of iteration does not matter. */
module MapSums {
  ghost function MapSum(m: map<nat, real>): real
    decreases |m|
  {
    if m == map[] then 0.0
    else
      var k :| k in m;
      m[k] + MapSum(m - {k})
  }

  /** Any key may be taken first. */
  lemma {:induction false} MapSumPick(m: map<nat, real>, k: nat)
    requires k in m
    ensures MapSum(m) == m[k] + MapSum(m - {k})
    decreases |m|
  {
    var j :| j in m && MapSum(m) == m[j] + MapSum(m - {j});
    if j != k {
      MapSumPick(m - {j}, k);
      MapSumPick(m - {k}, j);
      assert m - {j} - {k} == m - {k} - {j};
    }
  }

  lemma MapSumSet(m: map<nat, real>, k: nat, v: real)
    ensures MapSum(m[k := v]) == MapSum(m) - (if k in m then m[k] else 0.0) + v
  {
    MapSumPick(m[k := v], k);
    assert m[k := v] - {k} == m - {k};
    if k in m {
      MapSumPick(m, k);
    } else {
      assert m - {k} == m;
    }
  }

  function Times(x: real, t: real): real {
    x * t
  }

  lemma TimesDistributes(x: real, y: real, t: real)
    ensures Times(x + y, t) == Times(x, t) + Times(y, t)
  {
  }

  lemma TimesZero(t: real)
    ensures Times(0.0, t) == 0.0
  {
  }

  ghost function Scaled(m: map<nat, real>, t: real): map<nat, real> {
    map k | k in m :: Times(m[k], t)
  }

  lemma ScaledRemoval(m: map<nat, real>, k: nat, t: real)
    requires k in m
    ensures k in Scaled(m, t) && Scaled(m, t)[k] == Times(m[k], t)
    ensures Scaled(m, t) - {k} == Scaled(m - {k}, t)
  {
    hide Times;
  }

  lemma {:induction false} MapSumScale(m: map<nat, real>, t: real)
    ensures MapSum(Scaled(m, t)) == Times(MapSum(m), t)
    decreases |m|
  {
    hide Times;
    if m == map[] {
      assert Scaled(m, t) == map[];
      TimesZero(t);
    } else {
      var k :| k in m.Keys;
      ScaledRemoval(m, k, t);
      MapSumPick(m, k);
      MapSumPick(Scaled(m, t), k);
      hide MapSum, Scaled;
      MapSumScale(m - {k}, t);
      TimesDistributes(m[k], MapSum(m - {k}), t);
    }
  }

  lemma {:induction false} MapSumAdd(a: map<nat, real>, d: map<nat, real>, c: map<nat, real>)
    requires a.Keys == d.Keys == c.Keys
    requires forall k :: k in c ==> c[k] == a[k] + d[k]
    ensures MapSum(c) == MapSum(a) + MapSum(d)
    decreases |c|
  {
    if c == map[] {
      assert a == map[] && d == map[];
    } else {
      var k :| k in c.Keys;
      MapSumPick(a, k);
      MapSumPick(d, k);
      MapSumPick(c, k);
      MapSumAdd(a - {k}, d - {k}, c - {k});
    }
  }
}
