/** The row that SELECT ... ORDER BY ... LIMIT 1 picks from a finite set of rows. */
module OrderedSelection {
  datatype QueueKey = QueueKey(first: int, second: int, third: int)

  predicate Precedes(a: QueueKey, b: QueueKey) {
    || a.first < b.first
    || (a.first == b.first && a.second < b.second)
    || (a.first == b.first && a.second == b.second && a.third < b.third)
  }

  predicate FirstBy<T(!new)>(ids: set<T>, key: T -> QueueKey, id: T) {
    id in ids && forall o | o in ids && o != id :: Precedes(key(id), key(o))
  }

  /** SELECT ... ORDER BY ... LIMIT 1 finds a row whenever one, say x, qualifies. */
  lemma {:induction false} FirstExists<T(!new)>(ids: set<T>, key: T -> QueueKey, x: T)
    requires x in ids
    requires forall a, b | a in ids && b in ids && key(a) == key(b) :: a == b
    ensures exists id :: FirstBy(ids, key, id)
  {
    if y :| y in ids && y != x {
      var rest := ids - {x};
      FirstExists(rest, key, y);
      var z :| FirstBy(rest, key, z);
      assert key(x) != key(z);
      assert FirstBy(ids, key, if Precedes(key(z), key(x)) then z else x);
    } else {
      assert FirstBy(ids, key, x);
    }
  }

  lemma FirstIsUnique<T(!new)>(ids: set<T>, key: T -> QueueKey, a: T, b: T)
    requires FirstBy(ids, key, a) && FirstBy(ids, key, b)
    ensures a == b
  {
  }

  lemma SmallerSet<T>(a: set<T>, b: set<T>)
    requires a < b
    ensures |a| < |b|
  {
    assert b == a + (b - a);
  }

  lemma NoBigger<T>(a: set<T>, b: set<T>)
    requires a <= b
    ensures |a| <= |b|
  {
    assert b == a + (b - a);
  }
}
