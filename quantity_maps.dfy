/**
 * The dictionary operations shared by the restaurant menu, the food-delivery
 * cart and the shopping cart: a map from an item (compared by identity) to an
 * integer quantity, the in-place increment/decrement each class performs, and
 * the sum of price times quantity over the entries.
 */
module QuantityMaps {

  /** The quantity held for `k`, or 0 when `k` has no entry. */
  function Held<K>(m: map<K, int>, k: K): int
  {
    if k in m then m[k] else 0
  }

  /** `m[k] += q` when `k` has an entry, `m[k] = q` otherwise. */
  function Incremented<K>(m: map<K, int>, k: K, q: int): map<K, int>
  {
    m[k := Held(m, k) + q]
  }

  /**
   * The remove shared by `remove_from_menu`, `remove_from_cart` and
   * `remove_product`: an absent key or a negative amount leaves the map as it
   * is (the key test comes first); otherwise the entry is deleted when it holds
   * at most `q` and is decremented by `q` when it holds more.
   */
  function Removed<K>(m: map<K, int>, k: K, q: int): map<K, int>
  {
    if k !in m then m
    else if q < 0 then m
    else if m[k] <= q then m - {k}
    else m[k := m[k] - q]
  }

  ghost predicate NonNegative<K>(m: map<K, int>)
  {
    forall k :: k in m ==> m[k] >= 0
  }

  /** The sum of all values of `m`, in no particular order. */
  ghost function SumValues<K>(m: map<K, int>): int
    decreases |m|
  {
    if m == map[] then 0
    else
      var k :| k in m;
      m[k] + SumValues(m - {k})
  }

  /** The sum of `unit(k) * m[k]` over the entries of `m`. */
  ghost function Total<K>(m: map<K, int>, unit: K -> int): int
  {
    SumValues(Lines(m, unit))
  }

  ghost function Lines<K>(m: map<K, int>, unit: K -> int): (r: map<K, int>)
    ensures r.Keys == m.Keys
  {
    map k | k in m :: unit(k) * m[k]
  }

  function Min(a: int, b: int): int
  {
    if a <= b then a else b
  }

  lemma Distribute(t: int, a: int, b: int)
    ensures t * (a + b) == t * a + t * b
  {
  }

  /** Any entry can be taken out first: the sum does not depend on the order. */
  lemma {:induction false} SumValuesRemove<K>(m: map<K, int>, k: K)
    requires k in m
    ensures SumValues(m) == m[k] + SumValues(m - {k})
    decreases |m|
  {
    var j :| j in m && SumValues(m) == m[j] + SumValues(m - {j});
    if j != k {
      SumValuesRemove(m - {j}, k);
      SumValuesRemove(m - {k}, j);
      assert m - {j} - {k} == m - {k} - {j};
    }
  }

  lemma SumValuesUpdate<K>(m: map<K, int>, k: K, v: int)
    ensures SumValues(m[k := v]) == SumValues(m) - Held(m, k) + v
  {
    SumValuesRemove(m[k := v], k);
    assert m[k := v] - {k} == m - {k};
    if k in m {
      SumValuesRemove(m, k);
    } else {
      assert m - {k} == m;
    }
  }

  lemma SumValuesNonNegative<K>(m: map<K, int>)
    requires NonNegative(m)
    ensures SumValues(m) >= 0
    decreases |m|
  {
    if m != map[] {
      var k :| k in m;
      SumValuesRemove(m, k);
      SumValuesNonNegative(m - {k});
    }
  }

  lemma TotalUpdate<K>(m: map<K, int>, k: K, q: int, unit: K -> int)
    ensures Total(m[k := q], unit) == Total(m, unit) + unit(k) * (q - Held(m, k))
  {
    var lines := Lines(m, unit);
    assert Lines(m[k := q], unit) == lines[k := unit(k) * q];
    SumValuesUpdate(lines, k, unit(k) * q);
    assert Held(lines, k) == unit(k) * Held(m, k);
  }

  lemma TotalDelete<K>(m: map<K, int>, k: K, unit: K -> int)
    requires k in m
    ensures Total(m - {k}, unit) == Total(m, unit) - unit(k) * m[k]
  {
    assert Lines(m - {k}, unit) == Lines(m, unit) - {k};
    SumValuesRemove(Lines(m, unit), k);
  }

  /** Incrementing an entry by `q` raises the total by exactly `unit(k) * q`. */
  lemma TotalIncremented<K>(m: map<K, int>, k: K, q: int, unit: K -> int)
    ensures Total(Incremented(m, k, q), unit) == Total(m, unit) + unit(k) * q
  {
    TotalUpdate(m, k, Held(m, k) + q, unit);
  }

  /**
   * A remove that goes ahead lowers the total by the unit value times what was
   * actually taken: the whole entry when it held at most `q`, else `q`.
   */
  lemma TotalRemoved<K>(m: map<K, int>, k: K, q: int, unit: K -> int)
    ensures Total(Removed(m, k, q), unit)
         == Total(m, unit) - (if k in m && q >= 0 then unit(k) * Min(m[k], q) else 0)
  {
    if k in m && q >= 0 {
      if m[k] <= q {
        assert Removed(m, k, q) == m - {k};
        TotalDelete(m, k, unit);
        assert Min(m[k], q) == m[k];
      } else {
        assert Removed(m, k, q) == m[k := m[k] - q];
        TotalUpdate(m, k, m[k] - q, unit);
        var u := unit(k);
        assert u * (m[k] - q - m[k]) == -(u * q);
        assert Min(m[k], q) == q;
      }
    } else {
      assert Removed(m, k, q) == m;
    }
  }

  /** With no entries the total is 0; with non-negative entries and units it is never negative. */
  lemma TotalNonNegative<K>(m: map<K, int>, unit: K -> int)
    requires NonNegative(m)
    requires forall k :: k in m ==> unit(k) >= 0
    ensures Total(m, unit) >= 0
    ensures m == map[] ==> Total(m, unit) == 0
  {
    SumValuesNonNegative(Lines(m, unit));
  }

  /** A successful increment keeps every quantity non-negative. */
  lemma IncrementedNonNegative<K>(m: map<K, int>, k: K, q: int)
    requires NonNegative(m) && q >= 0
    ensures NonNegative(Incremented(m, k, q))
    ensures Incremented(m, k, q)[k] == Held(m, k) + q
    ensures forall j :: j in m && j != k ==> Incremented(m, k, q)[j] == m[j]
  {
  }

  /**
   * Remove never drives a quantity negative: the key is either gone or holds
   * exactly `q` less than before, and every other entry is untouched.
   */
  lemma RemovedNonNegative<K>(m: map<K, int>, k: K, q: int)
    requires NonNegative(m)
    ensures NonNegative(Removed(m, k, q))
    ensures Removed(m, k, q).Keys <= m.Keys
    ensures k in Removed(m, k, q) ==> Removed(m, k, q)[k] > 0 || Removed(m, k, q) == m
    ensures k in Removed(m, k, q) && Removed(m, k, q) != m ==> Removed(m, k, q)[k] == m[k] - q
    ensures forall j :: j in m && j != k ==> j in Removed(m, k, q) && Removed(m, k, q)[j] == m[j]
  {
  }

  /**
   * Adding `q` and removing `q` again gives back the map itself unless the key
   * held 0 before (the remove then deletes the zero entry), and always gives
   * back the total.
   */
  lemma AddThenRemove<K>(m: map<K, int>, k: K, q: int, unit: K -> int)
    requires NonNegative(m) && q >= 0
    ensures k !in m || m[k] > 0 ==> Removed(Incremented(m, k, q), k, q) == m
    ensures k in m && m[k] == 0 ==> Removed(Incremented(m, k, q), k, q) == m - {k}
    ensures Total(Removed(Incremented(m, k, q), k, q), unit) == Total(m, unit)
  {
    var added := Incremented(m, k, q);
    TotalIncremented(m, k, q, unit);
    TotalRemoved(added, k, q, unit);
    if k !in m {
      assert added - {k} == m;
    } else if m[k] == 0 {
      assert added - {k} == m - {k};
    } else {
      assert added[k := added[k] - q] == m;
    }
  }
}
