/** Small value-level helpers shared by the Super Mario 64 world model:
    an Option type, Python's `max` and `range` lengths, repeated lists,
    and the effect of a sequence of dictionary assignments. */
module Basics {

  datatype Option<+T> = None | Some(value: T)

  function Max(a: int, b: int): (m: int)
    ensures m >= a && m >= b
    ensures m == a || m == b
  {
    if a >= b then a else b
  }

  /** Number of elements of Python's `range(lo, hi)`. */
  function RangeLen(lo: int, hi: int): (n: nat)
    ensures lo <= hi ==> n == hi - lo
    ensures hi <= lo ==> n == 0
  {
    if lo < hi then hi - lo else 0
  }

  /** The list `[x for i in range(0, n)]`. */
  function Repeat<T>(x: T, n: nat): (r: seq<T>)
    ensures |r| == n
    ensures forall i :: 0 <= i < n ==> r[i] == x
  {
    seq(n, _ => x)
  }

  /** The keys written by a sequence of assignments `d[k] = v`. */
  function KeysOf<K, V>(ps: seq<(K, V)>): set<K>
  {
    set i | 0 <= i < |ps| :: ps[i].0
  }

  /** The dictionary `m` after the assignments `m[k] = v` for each `(k, v)`
      of `ps`, in order: a later assignment to a key overwrites an earlier one. */
  function Placed<K, V>(m: map<K, V>, ps: seq<(K, V)>): (r: map<K, V>)
    ensures r.Keys == m.Keys + KeysOf(ps)
    decreases |ps|
  {
    if ps == [] then m
    else
      var last := ps[|ps| - 1];
      var before := Placed(m, ps[..|ps| - 1]);
      assert KeysOf(ps) == KeysOf(ps[..|ps| - 1]) + {last.0} by {
        forall k | k in KeysOf(ps) ensures k in KeysOf(ps[..|ps| - 1]) + {last.0} {
          var i :| 0 <= i < |ps| && ps[i].0 == k;
          if i < |ps| - 1 { assert ps[..|ps| - 1][i] == ps[i]; }
        }
      }
      before[last.0 := last.1]
  }

  /** Assigning in two batches is assigning the concatenation. */
  lemma {:induction false} PlacedAppend<K, V>(m: map<K, V>, a: seq<(K, V)>, b: seq<(K, V)>)
    ensures Placed(m, a + b) == Placed(Placed(m, a), b)
    decreases |b|
  {
    if b == [] {
      assert a + b == a;
    } else {
      var b' := b[..|b| - 1];
      assert (a + b)[..|a + b| - 1] == a + b';
      assert (a + b)[|a + b| - 1] == b[|b| - 1];
      PlacedAppend(m, a, b');
    }
  }

  /** A key takes the value of its last assignment. */
  lemma {:induction false} PlacedLastWins<K, V>(m: map<K, V>, ps: seq<(K, V)>, i: nat)
    requires i < |ps|
    requires forall j :: i < j < |ps| ==> ps[j].0 != ps[i].0
    ensures ps[i].0 in Placed(m, ps) && Placed(m, ps)[ps[i].0] == ps[i].1
    decreases |ps|
  {
    if i < |ps| - 1 {
      var ps' := ps[..|ps| - 1];
      assert ps'[i] == ps[i];
      PlacedLastWins(m, ps', i);
    }
  }

  /** A key that is never assigned keeps its old value. */
  lemma {:induction false} PlacedElsewhere<K, V>(m: map<K, V>, ps: seq<(K, V)>, k: K)
    requires k !in KeysOf(ps)
    ensures k in Placed(m, ps) <==> k in m
    ensures k in m ==> Placed(m, ps)[k] == m[k]
    decreases |ps|
  {
    if ps != [] {
      var ps' := ps[..|ps| - 1];
      assert KeysOf(ps') <= KeysOf(ps) by {
        forall x | x in KeysOf(ps') ensures x in KeysOf(ps) {
          var j :| 0 <= j < |ps'| && ps'[j].0 == x;
          assert ps[j] == ps'[j];
        }
      }
      assert ps[|ps| - 1].0 in KeysOf(ps);
      PlacedElsewhere(m, ps', k);
    }
  }

  /** Assigning one value to every key: each assigned key ends up with it. */
  lemma {:induction false} PlacedUniform<K, V>(m: map<K, V>, ps: seq<(K, V)>, v: V, a: K)
    requires forall k :: 0 <= k < |ps| ==> ps[k].1 == v
    requires a in KeysOf(ps)
    ensures a in Placed(m, ps) && Placed(m, ps)[a] == v
    decreases |ps|
  {
    var last := ps[|ps| - 1];
    if last.0 != a {
      var init := ps[..|ps| - 1];
      var k :| 0 <= k < |ps| && ps[k].0 == a;
      assert init[k] == ps[k];
      PlacedUniform(m, init, v, a);
    }
  }
}
