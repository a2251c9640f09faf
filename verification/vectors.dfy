/** Three-component real vectors and their sums.

    Field vectors, positions, displacements and rotation axes are all
    `Vec3` values. Arithmetic is exact, so sums are associative and
    commutative, which is what makes superposition independent of order. */
module Vectors {

  datatype Vec3 = Vec3(x: real, y: real, z: real)

  const Zero := Vec3(0.0, 0.0, 0.0)

  function Add(a: Vec3, b: Vec3): Vec3 {
    Vec3(a.x + b.x, a.y + b.y, a.z + b.z)
  }

  function Sub(a: Vec3, b: Vec3): Vec3 {
    Vec3(a.x - b.x, a.y - b.y, a.z - b.z)
  }

  function Neg(a: Vec3): Vec3 {
    Vec3(-a.x, -a.y, -a.z)
  }

  function Scale(k: real, a: Vec3): Vec3 {
    Vec3(k * a.x, k * a.y, k * a.z)
  }

  /** Left fold of `Add` over `vs`, starting from `acc`. */
  function SumFrom(acc: Vec3, vs: seq<Vec3>): Vec3
    decreases |vs|
  {
    if vs == [] then acc else SumFrom(Add(acc, vs[0]), vs[1..])
  }

  /** The built-in `sum` of a list of vectors: ((0 + v0) + v1) + ...
      An empty list sums to the zero vector. */
  function Sum(vs: seq<Vec3>): Vec3 {
    SumFrom(Zero, vs)
  }

  /** Folding over `vs + [v]` adds `v` after folding over `vs`. */
  lemma {:induction false} SumFromAppend(acc: Vec3, vs: seq<Vec3>, v: Vec3)
    ensures SumFrom(acc, vs + [v]) == Add(SumFrom(acc, vs), v)
    decreases |vs|
  {
    if vs == [] {
      assert [v][1..] == [];
    } else {
      assert (vs + [v])[1..] == vs[1..] + [v];
      SumFromAppend(Add(acc, vs[0]), vs[1..], v);
    }
  }

  /** Appending one vector adds it to the running total. */
  lemma SumAppend(vs: seq<Vec3>, v: Vec3)
    ensures Sum(vs + [v]) == Add(Sum(vs), v)
  {
    SumFromAppend(Zero, vs, v);
  }

  /** The sum of a concatenation is the sum of the two sums. */
  lemma {:induction false} SumConcat(a: seq<Vec3>, b: seq<Vec3>)
    ensures Sum(a + b) == Add(Sum(a), Sum(b))
    decreases |b|
  {
    if b == [] {
      assert a + b == a;
    } else {
      var last := b[|b| - 1];
      var init := b[..|b| - 1];
      assert b == init + [last];
      assert a + b == (a + init) + [last];
      SumConcat(a, init);
      SumAppend(a + init, last);
      SumAppend(init, last);
    }
  }

  /** `k` copies of `v` sum to `k` times `v`. */
  lemma {:induction false} SumOfCopies(v: Vec3, k: nat)
    ensures Sum(seq(k, _ => v)) == Scale(k as real, v)
  {
    if k == 0 {
      assert seq(k, _ => v) == [];
    } else {
      assert seq(k, _ => v) == seq(k - 1, _ => v) + [v];
      SumOfCopies(v, k - 1);
      SumAppend(seq(k - 1, _ => v), v);
    }
  }
}
