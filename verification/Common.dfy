/** Small tools every component uses: optional values, counting over traces, and sizes of filtered key sets. */
module Common {

  datatype Option<+T> = None | Some(value: T) {
    function GetOr(default: T): T {
      if Some? then value else default
    }
  }

  /** How often `e` occurs in `trace`; recursion from the end, so that appending one event is one unfolding. */
  function Count<T(==)>(trace: seq<T>, e: T): (n: nat)
  {
    if trace == [] then 0
    else Count(trace[..|trace| - 1], e) + if trace[|trace| - 1] == e then 1 else 0
  }

  lemma CountSnoc<T>(trace: seq<T>, x: T, e: T)
    ensures Count(trace + [x], e) == Count(trace, e) + if x == e then 1 else 0
  {
    assert (trace + [x])[..|trace|] == trace;
  }

  lemma Overwrite<K, V>(m: map<K, V>, k: K, a: V, b: V)
    ensures m[k := a][k := b] == m[k := b]
  {
  }

  /** The keys whose value satisfies `p`. */
  ghost function Where<K(!new), V(!new)>(m: map<K, V>, p: V -> bool): set<K>
  {
    set k | k in m && p(m[k])
  }

  /** One update moves the size of `Where` by exactly the change at the updated key. */
  lemma WhereUpdate<K(!new), V(!new)>(m: map<K, V>, p: V -> bool, k: K, v: V)
    ensures |Where(m[k := v], p)|
         == |Where(m, p)| + (if p(v) then 1 else 0) - (if k in m && p(m[k]) then 1 else 0)
  {
    var before, after := Where(m, p), Where(m[k := v], p);
    if p(v) {
      assert after == before + {k};
    } else {
      assert after == before - {k};
    }
  }

  /** The element that `ORDER BY id` with a limit of one row picks. */
  predicate IsLeast(m: int, s: set<int>)
  {
    m in s && forall x :: x in s ==> m <= x
  }

  lemma {:induction false} LeastExists(s: set<int>, y: int)
    requires y in s
    ensures exists m :: IsLeast(m, s)
    decreases s
  {
    if z :| z in s && z < y {
      var below := set x | x in s && x < y;
      assert z in below && y !in below;
      LeastExists(below, z);
      var m :| IsLeast(m, below);
      forall x | x in s ensures m <= x {
        if x < y { assert x in below; }
      }
      assert IsLeast(m, s);
    } else {
      forall x | x in s ensures y <= x { }
      assert IsLeast(y, s);
    }
  }

  lemma Assoc<T>(a: seq<T>, b: seq<T>, c: seq<T>)
    ensures a + b + c == a + (b + c)
  {
  }
}
