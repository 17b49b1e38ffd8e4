/** Counting the rows of a table that satisfy a condition. */
module Counting {

  ghost function Matching<K, V>(table: map<K, V>, p: V -> bool): set<K> {
    set k | k in table && p(table[k])
  }

  ghost function Count<K, V>(table: map<K, V>, p: V -> bool): nat {
    |Matching(table, p)|
  }

  function One(b: bool): nat {
    if b then 1 else 0
  }

  /** Writing one row changes a count by what that row was and is. */
  lemma CountUpdate<K(!new), V>(table: map<K, V>, p: V -> bool, k: K, v: V)
    ensures Count(table[k := v], p) == Count(table, p) - One(k in table && p(table[k])) + One(p(v))
  {
    var rest := Matching(table, p) - {k};
    assert |rest| == Count(table, p) - One(k in Matching(table, p));
    MatchingUpdate(table, p, k, v);
  }

  lemma MatchingUpdate<K(!new), V>(table: map<K, V>, p: V -> bool, k: K, v: V)
    ensures Matching(table[k := v], p) == (Matching(table, p) - {k}) + (if p(v) then {k} else {})
  {
    var after := Matching(table[k := v], p);
    forall x
      ensures x in after <==> x in (Matching(table, p) - {k}) + (if p(v) then {k} else {})
    {
      if x != k && x in table {
        assert table[k := v][x] == table[x];
      }
    }
  }

  /** A count is positive when some row is counted. */
  lemma CountHas<K, V>(table: map<K, V>, p: V -> bool, k: K)
    requires k in table && p(table[k])
    ensures Count(table, p) >= 1
  {
    assert k in Matching(table, p);
  }

  lemma CountNone<K, V>(table: map<K, V>, p: V -> bool)
    requires forall k :: k in table ==> !p(table[k])
    ensures Count(table, p) == 0
  {
    assert Matching(table, p) == {};
  }

  lemma CountMono<K, V(!new)>(table: map<K, V>, p: V -> bool, q: V -> bool)
    requires forall v :: p(v) ==> q(v)
    ensures Count(table, p) <= Count(table, q)
  {
    SubsetSize(Matching(table, p), Matching(table, q));
  }

  lemma {:induction false} SubsetSize<T>(a: set<T>, b: set<T>)
    requires a <= b
    ensures |a| <= |b|
  {
    assert b == a + (b - a);
  }
}
