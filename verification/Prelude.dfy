/** Small shared definitions: optional values and facts about sizes of sets. */
module Prelude {

  datatype Option<+T> = None | Some(value: T)

  const SECOND: int := 1_000_000_000  // durations and clock readings are in nanoseconds
  const MILLISECOND: int := 1_000_000

  /** A subset is no larger than the set around it. */
  lemma {:induction false} SubsetSize<T>(a: set<T>, b: set<T>)
    requires a <= b
    ensures |a| <= |b|
    decreases |a|
  {
    if a != {} {
      var x :| x in a;
      SubsetSize(a - {x}, b - {x});
    }
  }

  /** Setting a key adds at most one to a map. */
  lemma MapGrowsByOne<K, V>(m: map<K, V>, k: K, v: V)
    ensures |m[k := v]| <= |m| + 1
  {
    assert m[k := v].Keys == m.Keys + {k};
    assert |m| == |m.Keys| && |m[k := v]| == |m[k := v].Keys|;
  }

  /** Pairs of an element of `a` and a number below `n`: there are at most `n` of them per element. */
  lemma {:induction false} PairsSize<T>(pairs: set<(T, nat)>, a: set<T>, n: nat)
    requires forall p <- pairs :: p.0 in a && p.1 < n
    ensures |pairs| <= n * |a|
    decreases |a|
  {
    if a == {} {
      assert pairs == {};
    } else {
      var x :| x in a;
      var mine := set p <- pairs | p.0 == x;
      var rest := pairs - mine;
      PairsSize(rest, a - {x}, n);
      ColumnSize(mine, x, n);
      assert pairs == mine + rest;
      assert |a - {x}| == |a| - 1;
      assert n * (|a| - 1) + n == n * |a|;
    }
  }

  lemma {:induction false} ColumnSize<T>(column: set<(T, nat)>, x: T, n: nat)
    requires forall p <- column :: p.0 == x && p.1 < n
    ensures |column| <= n
    decreases n
  {
    if n == 0 {
      assert column == {};
    } else {
      var smaller := column - {(x, n - 1)};
      ColumnSize(smaller, x, n - 1);
      assert column <= smaller + {(x, n - 1)};
      SubsetSize(column, smaller + {(x, n - 1)});
    }
  }
}
