/** Shared vocabulary: optional values, filtered lists and the clock. */
module Basics {
  datatype Option<+T> = None | Some(value: T)

  datatype Result<+T, +E> = Ok(value: T) | Err(error: E)

  // ---------------------------------------------------------------- the clock
  // Instants and durations are whole microseconds, the resolution of the database column.
  // The time claims of a token are whole seconds.

  const SECOND: int := 1_000_000

  /** The NumericDate of an instant: fractions of a second are dropped. */
  function Epoch(t: int): int {
    t / SECOND
  }

  function FromEpoch(e: int): int {
    e * SECOND
  }

  function Min(a: int, b: int): int {
    if a <= b then a else b
  }

  function Max(a: int, b: int): int {
    if a >= b then a else b
  }

  lemma EpochMonotone(s: int, t: int)
    requires s <= t
    ensures Epoch(s) <= Epoch(t)
  {
  }

  // ------------------------------------------------------------ filtered rows

  /** The rows a query selects, in table order. Deleting is keeping the others. */
  function Keep<T>(s: seq<T>, keep: T -> bool): (r: seq<T>)
    ensures |r| <= |s|
    ensures forall x {:trigger x in r} :: x in r ==> x in s && keep(x)
    ensures forall x {:trigger x in s} :: x in s && keep(x) ==> x in r
  {
    if s == [] then []
    else
      assert s == [s[0]] + s[1..];
      if keep(s[0]) then [s[0]] + Keep(s[1..], keep) else Keep(s[1..], keep)
  }

  function Count<T>(s: seq<T>, p: T -> bool): nat {
    |Keep(s, p)|
  }

  lemma {:induction false} KeepAppend<T>(s: seq<T>, t: seq<T>, p: T -> bool)
    ensures Keep(s + t, p) == Keep(s, p) + Keep(t, p)
  {
    if s == [] {
      assert s + t == t;
    } else {
      assert (s + t)[1..] == s[1..] + t;
      KeepAppend(s[1..], t, p);
    }
  }

  lemma KeepOne<T>(x: T, p: T -> bool)
    ensures Keep([x], p) == if p(x) then [x] else []
  {
    assert [x][1..] == [];
  }

  /** An entry that does not match leaves the selection as it was. */
  lemma KeepPast<T>(s: seq<T>, x: T, p: T -> bool)
    requires !p(x)
    ensures Keep(s + [x], p) == Keep(s, p)
  {
    KeepAppend(s, [x], p);
    KeepOne(x, p);
  }

  lemma {:induction false} KeepAll<T>(s: seq<T>, p: T -> bool)
    requires forall x :: x in s ==> p(x)
    ensures Keep(s, p) == s
  {
    if s != [] {
      KeepAll(s[1..], p);
    }
  }

  lemma {:induction false} KeepNone<T>(s: seq<T>, p: T -> bool)
    requires forall x :: x in s ==> !p(x)
    ensures Keep(s, p) == []
  {
    if s != [] {
      KeepNone(s[1..], p);
    }
  }

  /** Two successive filters are one filter by both conditions. */
  lemma {:induction false} KeepKeep<T>(s: seq<T>, p: T -> bool, q: T -> bool, both: T -> bool)
    requires forall x :: x in s ==> both(x) == (p(x) && q(x))
    ensures Keep(Keep(s, p), q) == Keep(s, both)
  {
    if s != [] {
      KeepKeep(s[1..], p, q, both);
    }
  }

  lemma KeepCommute<T>(s: seq<T>, p: T -> bool, q: T -> bool)
    ensures Keep(Keep(s, p), q) == Keep(Keep(s, q), p)
  {
    var both := x => p(x) && q(x);
    KeepKeep(s, p, q, both);
    KeepKeep(s, q, p, both);
  }

  /** Filtering cannot lose more by a stronger condition than by a weaker one. */
  lemma {:induction false} CountMonotone<T>(s: seq<T>, p: T -> bool, q: T -> bool)
    requires forall x :: x in s && p(x) ==> q(x)
    ensures Count(s, p) <= Count(s, q)
  {
    if s != [] {
      CountMonotone(s[1..], p, q);
    }
  }

  /** `y` is `x` with some entries deleted and none moved. */
  predicate Pruned<T(==)>(x: seq<T>, y: seq<T>) {
    y == [] || (x != [] && ((x[0] == y[0] && Pruned(x[1..], y[1..])) || Pruned(x[1..], y)))
  }

  lemma {:induction false} PrunedSelf<T>(x: seq<T>)
    ensures Pruned(x, x)
  {
    if x != [] {
      PrunedSelf(x[1..]);
    }
  }

  lemma {:induction false} PrunedKeep<T>(x: seq<T>, p: T -> bool)
    ensures Pruned(x, Keep(x, p))
  {
    if x != [] {
      PrunedKeep(x[1..], p);
    }
  }

  lemma {:induction false} PrunedTwice<T>(x: seq<T>, y: seq<T>, z: seq<T>)
    requires Pruned(x, y) && Pruned(y, z)
    ensures Pruned(x, z)
    decreases |x| + |y|
  {
    if z == [] || y == [] {
    } else if x[0] == y[0] && Pruned(x[1..], y[1..]) {
      if y[0] == z[0] && Pruned(y[1..], z[1..]) {
        PrunedTwice(x[1..], y[1..], z[1..]);
      } else {
        PrunedTwice(x[1..], y[1..], z);
      }
    } else {
      PrunedTwice(x[1..], y, z);
    }
  }

  lemma {:induction false} PrunedMore<T>(x: seq<T>, y: seq<T>, z: seq<T>)
    requires Pruned(x, y)
    ensures Pruned(x + z, y + z)
  {
    if x == [] {
      PrunedSelf(z);
      assert x + z == z && y + z == z;
    } else {
      assert (x + z)[1..] == x[1..] + z;
      if y == [] {
        PrunedMore(x[1..], y, z);
      } else if x[0] == y[0] && Pruned(x[1..], y[1..]) {
        assert (y + z)[1..] == y[1..] + z;
        PrunedMore(x[1..], y[1..], z);
      } else {
        PrunedMore(x[1..], y, z);
      }
    }
  }

  /** Deleting entries cannot make more of them match. */
  lemma {:induction false} PrunedCount<T>(x: seq<T>, y: seq<T>, p: T -> bool)
    requires Pruned(x, y)
    ensures Count(y, p) <= Count(x, p)
  {
    if y == [] {
    } else if x[0] == y[0] && Pruned(x[1..], y[1..]) {
      PrunedCount(x[1..], y[1..], p);
    } else {
      PrunedCount(x[1..], y, p);
    }
  }

  lemma {:induction false} PrunedMember<T>(x: seq<T>, y: seq<T>, e: T)
    requires Pruned(x, y) && e in y
    ensures e in x
  {
    if x[0] == y[0] && Pruned(x[1..], y[1..]) {
      if e != y[0] {
        PrunedMember(x[1..], y[1..], e);
      }
    } else {
      PrunedMember(x[1..], y, e);
    }
  }
}
