/** The wireframe network behind the projects section: 30 nodes placed by a
    seeded random function, joined by a line wherever two nodes are closer
    than 2 units, at most 50 lines, found by a double loop over the pairs
    in order; the lines become a flat buffer of 6 coordinates per line.

    `seededRandom` (a sine hash of the seed) is a parameter `rnd`; only its
    range, [0, 1), is assumed. */
module WireframeMesh {

  const NodeCount: nat := 30
  const MaxConnections: nat := 50

  datatype Vec3 = Vec3(x: real, y: real, z: real)

  // ---------------------------------------------------------------------
  // Nodes

  /** Node `i` from the three random numbers at `seed + 3i`, `seed + 3i + 1`
      and `seed + 3i + 2`. */
  function NodeAt(rnd: int -> real, seed: int, i: nat): Vec3
  {
    Vec3((rnd(seed + i * 3) - 0.5) * 8.0,
         (rnd(seed + i * 3 + 1) - 0.5) * 4.0,
         (rnd(seed + i * 3 + 2) - 0.5) * 4.0 - 5.0)
  }

  ghost predicate UnitRange(rnd: int -> real)
  {
    forall k :: 0.0 <= rnd(k) < 1.0
  }

  /** With random numbers in [0, 1) every node lies in the box
      [-4, 4) x [-2, 2) x [-7, -3). */
  lemma NodeInBox(rnd: int -> real, seed: int, i: nat)
    requires UnitRange(rnd)
    ensures var n := NodeAt(rnd, seed, i);
      -4.0 <= n.x < 4.0 && -2.0 <= n.y < 2.0 && -7.0 <= n.z < -3.0
  {
    assert 0.0 <= rnd(seed + i * 3) < 1.0;
    assert 0.0 <= rnd(seed + i * 3 + 1) < 1.0;
    assert 0.0 <= rnd(seed + i * 3 + 2) < 1.0;
  }

  /** The first loop of the memo: one node per index, in order. */
  method GenerateNodes(rnd: int -> real, seed: int) returns (nodes: seq<Vec3>)
    ensures |nodes| == NodeCount
    ensures forall i :: 0 <= i < NodeCount ==> nodes[i] == NodeAt(rnd, seed, i)
  {
    nodes := [];
    var i := 0;
    while i < NodeCount
      invariant 0 <= i <= NodeCount && |nodes| == i
      invariant forall k :: 0 <= k < i ==> nodes[k] == NodeAt(rnd, seed, k)
    {
      nodes := nodes + [NodeAt(rnd, seed, i)];
      i := i + 1;
    }
  }

  // ---------------------------------------------------------------------
  // Connections

  /** `a.distanceTo(b) < 2`, as the squared distance below 4 (the distance
      is never negative, so the two agree). */
  predicate Close(a: Vec3, b: Vec3)
  {
    var dx, dy, dz := a.x - b.x, a.y - b.y, a.z - b.z;
    dx * dx + dy * dy + dz * dz < 4.0
  }

  /** The close pairs `(i, j)` with `i < j < k`, in order of `j`. */
  function RowUpTo(nodes: seq<Vec3>, i: nat, k: nat): seq<(nat, nat)>
    requires i < k <= |nodes|
    decreases k
  {
    if k == i + 1 then []
    else RowUpTo(nodes, i, k - 1) + (if Close(nodes[i], nodes[k - 1]) then [(i, k - 1)] else [])
  }

  /** All close pairs whose first node comes before `i`, in lexicographic
      order: the rows of the outer loop one after the other. */
  function RowsBefore(nodes: seq<Vec3>, i: nat): seq<(nat, nat)>
    requires i <= |nodes|
    decreases i
  {
    if i == 0 then [] else RowsBefore(nodes, i - 1) + RowUpTo(nodes, i - 1, |nodes|)
  }

  /** Every close pair, in the order the loops meet them. */
  function ClosePairs(nodes: seq<Vec3>): seq<(nat, nat)>
  {
    RowsBefore(nodes, |nodes|)
  }

  /** The first 50 of a list. */
  function Capped<T>(s: seq<T>): (r: seq<T>)
    ensures |r| <= MaxConnections && r <= s
    ensures |s| <= MaxConnections ==> r == s
  {
    if |s| <= MaxConnections then s else s[..MaxConnections]
  }

  /** Appending one more pair to a capped list keeps the cap: the pair is
      kept exactly when the list is still short. */
  lemma CappedAppend<T>(s: seq<T>, x: T)
    ensures Capped(s + [x]) == if |s| < MaxConnections then Capped(s) + [x] else Capped(s)
  {
    if |s| >= MaxConnections {
      assert (s + [x])[..MaxConnections] == s[..MaxConnections];
    }
  }

  /** Visiting pair `(i, j)` extends the pairs met so far by that pair
      exactly when it is close. */
  lemma PairStep(nodes: seq<Vec3>, i: nat, j: nat)
    requires i < j < |nodes|
    ensures RowsBefore(nodes, i) + RowUpTo(nodes, i, j + 1)
      == RowsBefore(nodes, i) + RowUpTo(nodes, i, j) + (if Close(nodes[i], nodes[j]) then [(i, j)] else [])
  {
  }

  /** The double loop of the memo: `connections` gets each close pair in
      turn while it holds fewer than 50; `met` is every close pair visited
      so far. */
  method BuildConnections(nodes: seq<Vec3>) returns (connections: seq<(nat, nat)>)
    ensures connections == Capped(ClosePairs(nodes))
  {
    connections := [];
    ghost var met: seq<(nat, nat)> := [];
    var i := 0;
    while i < |nodes|
      invariant 0 <= i <= |nodes|
      invariant met == RowsBefore(nodes, i) && connections == Capped(met)
    {
      var j := i + 1;
      assert RowsBefore(nodes, i) + RowUpTo(nodes, i, j) == met;
      while j < |nodes|
        invariant i + 1 <= j <= |nodes|
        invariant met == RowsBefore(nodes, i) + RowUpTo(nodes, i, j) && connections == Capped(met)
      {
        PairStep(nodes, i, j);
        if Close(nodes[i], nodes[j]) {
          CappedAppend(met, (i, j));
          met := met + [(i, j)];
        }
        if Close(nodes[i], nodes[j]) && |connections| < MaxConnections {
          connections := connections + [(i, j)];
        }
        j := j + 1;
      }
      assert met == RowsBefore(nodes, i + 1);
      i := i + 1;
    }
  }

  /** A pair in row `i` up to `k` is a close pair `(i, j)` with `j < k`, and
      every such pair is there. */
  lemma {:induction false} RowUpToExactly(nodes: seq<Vec3>, i: nat, k: nat, p: (nat, nat))
    requires i < k <= |nodes|
    ensures p in RowUpTo(nodes, i, k) <==> p.0 == i && i < p.1 < k && Close(nodes[i], nodes[p.1])
    decreases k
  {
    if k > i + 1 {
      RowUpToExactly(nodes, i, k - 1, p);
    }
  }

  /** The rows before `i` hold only close pairs `(a, b)` with `a < i` and
      `a < b`... */
  lemma {:induction false} RowsBeforeSound(nodes: seq<Vec3>, i: nat, p: (nat, nat))
    requires i <= |nodes|
    ensures p in RowsBefore(nodes, i) ==> p.0 < i && p.0 < p.1 < |nodes| && Close(nodes[p.0], nodes[p.1])
    decreases i
  {
    if i > 0 {
      assert RowsBefore(nodes, i) == RowsBefore(nodes, i - 1) + RowUpTo(nodes, i - 1, |nodes|);
      RowsBeforeSound(nodes, i - 1, p);
      RowUpToExactly(nodes, i - 1, |nodes|, p);
    }
  }

  /** ... and every one of them. */
  lemma InAppend<T>(x: T, a: seq<T>, b: seq<T>)
    ensures x in a + b <==> x in a || x in b
  {
  }

  lemma {:induction false} RowsBeforeComplete(nodes: seq<Vec3>, i: nat, p: (nat, nat))
    requires i <= |nodes| && p.0 < i && p.0 < p.1 < |nodes| && Close(nodes[p.0], nodes[p.1])
    ensures p in RowsBefore(nodes, i)
    decreases i
  {
    var before, row := RowsBefore(nodes, i - 1), RowUpTo(nodes, i - 1, |nodes|);
    if p.0 < i - 1 {
      RowsBeforeComplete(nodes, i - 1, p);
      InAppend(p, before, row);
    } else {
      RowUpToExactly(nodes, i - 1, |nodes|, p);
      InAppend(p, before, row);
    }
  }

  /** A connection list holds every close pair exactly once, in order. */
  predicate LexLess(p: (nat, nat), q: (nat, nat))
  {
    p.0 < q.0 || (p.0 == q.0 && p.1 < q.1)
  }

  predicate Ascending(s: seq<(nat, nat)>)
  {
    forall a, b :: 0 <= a < b < |s| ==> LexLess(s[a], s[b])
  }

  lemma {:induction false} RowUpToAscending(nodes: seq<Vec3>, i: nat, k: nat)
    requires i < k <= |nodes|
    ensures Ascending(RowUpTo(nodes, i, k))
    ensures forall a :: 0 <= a < |RowUpTo(nodes, i, k)| ==> RowUpTo(nodes, i, k)[a].0 == i && RowUpTo(nodes, i, k)[a].1 < k
    decreases k
  {
    if k > i + 1 {
      RowUpToAscending(nodes, i, k - 1);
    }
  }

  lemma {:induction false} RowsBeforeAscending(nodes: seq<Vec3>, i: nat)
    requires i <= |nodes|
    ensures Ascending(RowsBefore(nodes, i))
    ensures forall a :: 0 <= a < |RowsBefore(nodes, i)| ==> RowsBefore(nodes, i)[a].0 < i
    decreases i
  {
    if i > 0 {
      RowsBeforeAscending(nodes, i - 1);
      RowUpToAscending(nodes, i - 1, |nodes|);
    }
  }

  /** What the memo's connections are, for any node positions: at most 50
      pairs, each `(i, j)` with `i < j` among the nodes and closer than 2,
      in strictly increasing lexicographic order (so none twice), and the
      first ones of the full list of close pairs, which they equal when
      there are at most 50. */
  lemma ConnectionsSpec(nodes: seq<Vec3>)
    ensures var c := Capped(ClosePairs(nodes));
      |c| <= MaxConnections && c <= ClosePairs(nodes)
      && Ascending(c)
      && (forall p :: p in c ==> p.0 < p.1 < |nodes| && Close(nodes[p.0], nodes[p.1]))
      && (|ClosePairs(nodes)| <= MaxConnections ==>
            forall p: (nat, nat) :: p.0 < p.1 < |nodes| && Close(nodes[p.0], nodes[p.1]) ==> p in c)
  {
    var all := ClosePairs(nodes);
    var c := Capped(all);
    RowsBeforeAscending(nodes, |nodes|);
    forall p | p in c ensures p.0 < p.1 < |nodes| && Close(nodes[p.0], nodes[p.1]) {
      assert p in all;
      RowsBeforeSound(nodes, |nodes|, p);
    }
    if |all| <= MaxConnections {
      forall p: (nat, nat) | p.0 < p.1 < |nodes| && Close(nodes[p.0], nodes[p.1]) ensures p in c {
        RowsBeforeComplete(nodes, |nodes|, p);
      }
    }
  }

  /** The whole memo: 30 nodes, then their connections, each a pair of
      node indices `i < j < 30`. */
  method BuildMesh(rnd: int -> real, seed: int) returns (nodes: seq<Vec3>, connections: seq<(nat, nat)>)
    ensures |nodes| == NodeCount
    ensures forall i :: 0 <= i < NodeCount ==> nodes[i] == NodeAt(rnd, seed, i)
    ensures connections == Capped(ClosePairs(nodes))
    ensures forall k :: 0 <= k < |connections| ==> connections[k].0 < connections[k].1 < NodeCount
  {
    nodes := GenerateNodes(rnd, seed);
    connections := BuildConnections(nodes);
    forall k | 0 <= k < |connections| ensures connections[k].0 < connections[k].1 < NodeCount {
      assert connections[k] in ClosePairs(nodes);
      RowsBeforeSound(nodes, |nodes|, connections[k]);
    }
  }

  // ---------------------------------------------------------------------
  // Geometry

  /** The six coordinates of one line: both end nodes, in pair order. */
  function Segment(nodes: seq<Vec3>, c: (nat, nat)): (s: seq<real>)
    requires c.0 < |nodes| && c.1 < |nodes|
  {
    var a, b := nodes[c.0], nodes[c.1];
    [a.x, a.y, a.z, b.x, b.y, b.z]
  }

  predicate InRange(nodes: seq<Vec3>, conns: seq<(nat, nat)>)
  {
    forall k :: 0 <= k < |conns| ==> conns[k].0 < |nodes| && conns[k].1 < |nodes|
  }

  /** The segments of the lines, one after another. */
  function Geometry(nodes: seq<Vec3>, conns: seq<(nat, nat)>): seq<real>
    requires InRange(nodes, conns)
  {
    if conns == [] then []
    else Geometry(nodes, conns[..|conns| - 1]) + Segment(nodes, conns[|conns| - 1])
  }

  /** The buffer holds six numbers per line, line `k` at `6k`. */
  lemma {:induction false} GeometryLayout(nodes: seq<Vec3>, conns: seq<(nat, nat)>)
    requires InRange(nodes, conns)
    ensures |Geometry(nodes, conns)| == 6 * |conns|
    ensures forall k :: 0 <= k < |conns| ==> Geometry(nodes, conns)[6 * k..6 * k + 6] == Segment(nodes, conns[k])
    decreases |conns|
  {
    if conns != [] {
      var init := conns[..|conns| - 1];
      GeometryLayout(nodes, init);
      var g := Geometry(nodes, conns);
      var gi := Geometry(nodes, init);
      assert g == gi + Segment(nodes, conns[|conns| - 1]);
      forall k | 0 <= k < |conns| ensures g[6 * k..6 * k + 6] == Segment(nodes, conns[k]) {
        if k < |init| {
          assert g[6 * k..6 * k + 6] == gi[6 * k..6 * k + 6];
          assert conns[k] == init[k];
        }
      }
    }
  }

  /** The `forEach` that fills the line buffer. */
  method BuildGeometry(nodes: seq<Vec3>, conns: seq<(nat, nat)>) returns (positions: seq<real>)
    requires InRange(nodes, conns)
    ensures positions == Geometry(nodes, conns)
  {
    positions := [];
    var k := 0;
    while k < |conns|
      invariant 0 <= k <= |conns|
      invariant positions == Geometry(nodes, conns[..k])
    {
      assert conns[..k + 1][..k] == conns[..k];
      positions := positions + Segment(nodes, conns[k]);
      k := k + 1;
    }
    assert conns[..k] == conns;
  }
}
