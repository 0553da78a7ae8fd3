/**
 * The triangle fan shared by every circle builder: a centre vertex followed by a ring of
 * vertices, and the index loop `for i in 0..n - 1 { push(0); push(i); push(i + 1) }`
 * closed by the triple `(0, n - 1, 1)`.
 */
module Fan {

  /** Number of ring vertices of every circle (`n_vertices`). */
  const RING: nat := 1024

  /** The indices the loop pushes for `i in 0..k`: the triples `(0, i, i + 1)` in order. */
  function Triples(k: nat): (s: seq<nat>)
    ensures |s| == 3 * k
  {
    if k == 0 then [] else Triples(k - 1) + [0, k - 1, k]
  }

  /** The index list of a circle with `n` ring vertices: the loop's triples, then the closing triple. */
  function CircleIndices(n: nat): seq<nat>
    requires n >= 1
  {
    Triples(n - 1) + [0, n - 1, 1]
  }

  /** The `t`-th triangle (three consecutive indices) of an index list. */
  function Triangle(s: seq<nat>, t: nat): seq<nat>
    requires 3 * t + 3 <= |s|
  {
    s[3 * t .. 3 * t + 3]
  }

  /** The ring: `k` vertices, the `i`-th being `vertexAt(i)`. */
  function Ring<V>(k: nat, vertexAt: nat -> V): (s: seq<V>)
    ensures |s| == k
    ensures forall i :: 0 <= i < k ==> s[i] == vertexAt(i)
  {
    if k == 0 then [] else Ring(k - 1, vertexAt) + [vertexAt(k - 1)]
  }

  /** The `j`-th triple pushed by the loop is `(0, j, j + 1)`. */
  lemma {:induction false} TriplesAt(k: nat, j: nat)
    requires j < k
    ensures Triangle(Triples(k), j) == [0, j, j + 1]
  {
    if j < k - 1 {
      TriplesAt(k - 1, j);
      assert Triangle(Triples(k), j) == Triangle(Triples(k - 1), j);
    }
  }

  /**
   * The fan of a circle with `n` ring vertices has `3n` indices; every triangle starts at the
   * centre 0; the `t`-th loop triangle is `(0, t, t + 1)` and the last is `(0, n - 1, 1)`;
   * every index is below `n`, so it lies inside the `n + 1` vertices, and the last ring vertex `n`
   * is never drawn. The first triangle `(0, 0, 1)` names the centre twice.
   */
  lemma CircleIndicesShape(n: nat)
    requires n >= 2
    ensures |CircleIndices(n)| == 3 * n
    ensures forall t :: 0 <= t < n ==> Triangle(CircleIndices(n), t)[0] == 0
    ensures forall t :: 0 <= t < n - 1 ==> Triangle(CircleIndices(n), t) == [0, t, t + 1]
    ensures Triangle(CircleIndices(n), n - 1) == [0, n - 1, 1]
    ensures Triangle(CircleIndices(n), 0) == [0, 0, 1]
    ensures forall j :: 0 <= j < |CircleIndices(n)| ==> CircleIndices(n)[j] < n
  {
    var s := CircleIndices(n);
    forall t | 0 <= t < n - 1
      ensures Triangle(s, t) == [0, t, t + 1]
    {
      TriplesAt(n - 1, t);
      assert Triangle(s, t) == Triangle(Triples(n - 1), t);
    }
    assert Triangle(s, n - 1) == [0, n - 1, 1];
    forall j | 0 <= j < |s|
      ensures s[j] < n
    {
      var t := j / 3;
      assert s[j] == Triangle(s, t)[j - 3 * t];
    }
  }

  /** The index loop of the circle builders; `n` is `n_vertices`. */
  method PushFanIndices(n: nat) returns (indices: seq<nat>)
    requires n >= 1
    ensures indices == CircleIndices(n)
  {
    indices := [];
    for i := 0 to n - 1
      invariant indices == Triples(i)
    {
      indices := indices + [0];
      indices := indices + [i];
      indices := indices + [i + 1];
    }
    indices := indices + [0];
    indices := indices + [n - 1];
    indices := indices + [1];
  }

  /** The vertex loop of the circle builders: the centre first, then `n` ring vertices. */
  method PushRing<V>(center: V, n: nat, vertexAt: nat -> V) returns (vertices: seq<V>)
    ensures vertices == [center] + Ring(n, vertexAt)
  {
    vertices := [center];
    for i := 0 to n
      invariant vertices == [center] + Ring(i, vertexAt)
    {
      vertices := vertices + [vertexAt(i)];
    }
  }
}
