/** The Halton-offset r-disk roadmap: a graph grown in batches whose vertices
    are an offset point perturbed by Halton values, wrapped into the space's
    bounds, and joined to every neighbour within the batch's radius. */
module Roadmap {
  import opened RealPower

  /** The largest value of a 32-bit unsigned integer. */
  const UintMax: nat := 0xFFFF_FFFF

  // ---------------------------------------------------------------------
  // Configuration

  /** The state space the roadmap samples: only real-vector spaces, with
      per-dimension bounds, are supported. */
  datatype StateSpace =
    | RealVectorSpace(dimension: nat, low: seq<real>, high: seq<real>)
    | OtherSpace
  {
    /** A real-vector space carries one lower and one upper bound per dimension. */
    ghost predicate WellFormed()
    {
      RealVectorSpace? ==> |low| == dimension && |high| == dimension
    }
  }

  datatype ConstructionError = NotRealVectorSpace | NotEnoughPrimes

  datatype Result<T> = Ok(value: T) | Err(error: ConstructionError)

  /** The index `dim - 1` computed in 32-bit unsigned arithmetic: a zero
      dimension wraps around to the largest index. */
  function PrimeIndex(dim: nat): (i: nat)
    ensures dim <= UintMax ==> i == (dim - 1) % (UintMax + 1)
  {
    if dim == 0 then UintMax else dim - 1
  }

  // ---------------------------------------------------------------------
  // Connection radius

  /** The dim-th root oracle standing for `pow(x, 1/dim)`: on a positive
      argument it returns the unique positive root. */
  ghost predicate IsNthRoot(root: (real, nat) -> real)
  {
    forall x: real, d: nat :: 0.0 < x && 1 <= d ==> 0.0 < root(x, d) && Pow(root(x, d), d) == x
  }

  /** The connection radius of batch `iBatch`: radiusFirstBatch times the
      dim-th root of 1/(iBatch+1). With a zero dimension the exponent 1/dim
      is +infinity, so the factor is 1 for the first batch and 0 afterwards. */
  function RootRadius(radiusFirstBatch: real, dim: nat, iBatch: nat, root: (real, nat) -> real): real
  {
    if dim == 0 then
      (if iBatch == 0 then radiusFirstBatch else 0.0)
    else
      radiusFirstBatch * root(1.0 / ((iBatch + 1) as real), dim)
  }

  /** The first batch connects within exactly the configured radius. */
  lemma RootRadiusFirstBatch(radiusFirstBatch: real, dim: nat, root: (real, nat) -> real)
    requires IsNthRoot(root)
    ensures RootRadius(radiusFirstBatch, dim, 0, root) == radiusFirstBatch
  {
    if dim > 0 {
      assert 1.0 / ((0 + 1) as real) == 1.0;
      PowOne(dim);
      RootUnique(root(1.0, dim), 1.0, dim);
    }
  }

  /** The r-disk power law: radius^dim * (iBatch+1) == radiusFirstBatch^dim,
      so the expected number of neighbours stays constant as density grows. */
  lemma RootRadiusPowerLaw(radiusFirstBatch: real, dim: nat, iBatch: nat, root: (real, nat) -> real)
    requires IsNthRoot(root)
    requires 1 <= dim
    ensures Pow(RootRadius(radiusFirstBatch, dim, iBatch, root), dim) * ((iBatch + 1) as real)
            == Pow(radiusFirstBatch, dim)
  {
    var n := (iBatch + 1) as real;
    var s := root(1.0 / n, dim);
    PowMul(radiusFirstBatch, s, dim);
    var pr, ps := Pow(radiusFirstBatch, dim), Pow(s, dim);
    assert RootRadius(radiusFirstBatch, dim, iBatch, root) == radiusFirstBatch * s;
    assert ps == 1.0 / n;
    assert ps * n == 1.0;
    assert (pr * ps) * n == pr * (ps * n);
  }

  /** With a positive first radius and dimension the radius is positive and
      strictly decreasing in the batch index. */
  lemma RootRadiusDecreasing(radiusFirstBatch: real, dim: nat, iBatch: nat, root: (real, nat) -> real)
    requires IsNthRoot(root)
    requires 0.0 < radiusFirstBatch && 1 <= dim
    ensures 0.0 < RootRadius(radiusFirstBatch, dim, iBatch + 1, root)
    ensures RootRadius(radiusFirstBatch, dim, iBatch + 1, root) < RootRadius(radiusFirstBatch, dim, iBatch, root)
  {
    var a := 1.0 / ((iBatch + 2) as real);
    var b := 1.0 / ((iBatch + 1) as real);
    assert 0.0 < a < b;
    var sa, sb := root(a, dim), root(b, dim);
    if sb <= sa {
      if sb < sa {
        PowStrictlyIncreasing(sb, sa, dim);
      }
      assert false;
    }
    assert radiusFirstBatch * sa < radiusFirstBatch * sb;
  }

  /** On a one-dimensional space with first radius 5, the second batch
      connects within radius 2.5. */
  lemma RootRadiusOneDimensionExample(root: (real, nat) -> real)
    requires IsNthRoot(root)
    ensures RootRadius(5.0, 1, 0, root) == 5.0
    ensures RootRadius(5.0, 1, 1, root) == 2.5
  {
    RootRadiusFirstBatch(5.0, 1, root);
    assert 1.0 / ((1 + 1) as real) == 0.5;
    assert Pow(root(0.5, 1), 1) == root(0.5, 1) * Pow(root(0.5, 1), 0);
  }

  // ---------------------------------------------------------------------
  // Vertex coordinates

  /** One coordinate: the offset plus the Halton value scaled to the extent,
      shifted back by one extent when it overshoots the upper bound. */
  function Coordinate(offset: real, low: real, high: real, h: real): real
  {
    var value := offset + (high - low) * h;
    if high < value then value - (high - low) else value
  }

  /** With the offset inside the bounds and a Halton value in [0,1), every
      coordinate lands inside the bounds. */
  lemma CoordinateWithinBounds(offset: real, low: real, high: real, h: real)
    requires low <= offset <= high
    requires 0.0 <= h < 1.0
    ensures low <= Coordinate(offset, low, high, h) <= high
  {
    var extent := high - low;
    var step := extent * h;
    MulNonNegative(extent, h);
    MulNonNegative(extent, 1.0 - h);
    assert extent - step == extent * (1.0 - h);
    var value := offset + step;
    assert Coordinate(offset, low, high, h) == if high < value then value - extent else value;
  }

  lemma MulNonNegative(a: real, b: real)
    requires 0.0 <= a && 0.0 <= b
    ensures 0.0 <= a * b
  {
  }

  // ---------------------------------------------------------------------
  // Graph records

  /** Per-vertex properties: the state's coordinates, the batch that created
      the vertex and whether it is a shadow vertex. */
  datatype VertexProps = VertexProps(coords: seq<real>, batch: nat, shadow: bool)

  /** Per-edge properties: the endpoints, the geometric distance and the batch. */
  datatype EdgeProps = EdgeProps(source: nat, target: nat, distance: real, batch: nat)

  /** One answer of the nearest-neighbour query: a vertex and its distance. */
  datatype Neighbor = Neighbor(vertex: nat, distance: real)

  /** The nearest-neighbour oracle only names vertices of the graph it is asked about. */
  ghost predicate NearestSound(nearest: (seq<VertexProps>, nat, real) -> seq<Neighbor>)
  {
    forall vs, v, r, k :: 0 <= k < |nearest(vs, v, r)| ==> nearest(vs, v, r)[k].vertex < |vs|
  }

  /** Every edge joins two vertices of the graph. */
  ghost predicate EdgesWithin(vertices: seq<VertexProps>, edges: seq<EdgeProps>)
  {
    forall j :: 0 <= j < |edges| ==> edges[j].source < |vertices| && edges[j].target < |vertices|
  }

  /** The roadmap graph, grown in place by `Generate`. */
  class Graph {
    var vertices: seq<VertexProps>
    var edges: seq<EdgeProps>

    ghost predicate WellFormed()
      reads this
    {
      EdgesWithin(vertices, edges)
    }

    constructor (vertices: seq<VertexProps>, edges: seq<EdgeProps>)
      requires EdgesWithin(vertices, edges)
      ensures WellFormed() && this.vertices == vertices && this.edges == edges
    {
      this.vertices := vertices;
      this.edges := edges;
    }

    /** Appends a vertex with the given properties and returns its index. */
    method AddVertex(props: VertexProps) returns (v: nat)
      modifies this
      ensures v == old(|vertices|)
      ensures vertices == old(vertices) + [props] && edges == old(edges)
    {
      v := |vertices|;
      vertices := vertices + [props];
    }

    /** Appends an edge with the given properties. */
    method AddEdge(props: EdgeProps)
      modifies this
      ensures edges == old(edges) + [props] && vertices == old(vertices)
    {
      edges := edges + [props];
    }
  }

  // ---------------------------------------------------------------------
  // Specification of one batch of growth

  /** What fixes the coordinates of every generated vertex: the bounds, the
      offset point, the prime bases and the Halton sequence. */
  datatype Sampler = Sampler(
    dim: nat, low: seq<real>, high: seq<real>, offset: seq<real>,
    prime: nat -> nat, halton: (nat, nat) -> real)
  {
    ghost predicate WellFormed()
    {
      |low| == dim && |high| == dim && |offset| == dim
    }
  }

  /** Everything one call of `Generate` works with besides the graph. */
  datatype Batch = Batch(
    sampler: Sampler,
    nearest: (seq<VertexProps>, nat, real) -> seq<Neighbor>,
    radius: real, index: nat)
  {
    ghost predicate WellFormed()
    {
      sampler.WellFormed() && NearestSound(nearest)
    }
  }

  /** The graph and the two progress counters. */
  datatype Growth = Growth(vertices: seq<VertexProps>, edges: seq<EdgeProps>,
                           verticesGenerated: nat, edgesGenerated: nat)

  /** The coordinates of the `n`-th generated vertex. */
  ghost function Coordinates(sp: Sampler, n: nat): (c: seq<real>)
    requires sp.WellFormed()
    ensures |c| == sp.dim
  {
    seq(sp.dim, ui requires 0 <= ui < sp.dim =>
      Coordinate(sp.offset[ui], sp.low[ui], sp.high[ui], sp.halton(sp.prime(ui), n)))
  }

  /** The edges from vertex `v` to each neighbour the oracle returned, in order. */
  ghost function NewEdges(v: nat, near: seq<Neighbor>, batch: nat): (es: seq<EdgeProps>)
    ensures |es| == |near|
  {
    seq(|near|, k requires 0 <= k < |near| => EdgeProps(v, near[k].vertex, near[k].distance, batch))
  }

  /** One iteration of the growth loop: append a vertex, connect it, count. */
  ghost function AddVertex(s: Growth, b: Batch): Growth
    requires b.WellFormed()
  {
    var v := |s.vertices|;
    var vertices := s.vertices + [VertexProps(Coordinates(b.sampler, s.verticesGenerated), b.index, false)];
    var near := b.nearest(vertices, v, b.radius);
    Growth(vertices, s.edges + NewEdges(v, near, b.index),
           s.verticesGenerated + 1, s.edgesGenerated + |near|)
  }

  /** The growth loop: add vertices until the graph holds `target` of them. */
  ghost function Grow(s: Growth, target: nat, b: Batch): Growth
    requires b.WellFormed()
    decreases target - |s.vertices|
  {
    if target <= |s.vertices| then s else Grow(AddVertex(s, b), target, b)
  }

  /** The edges the oracle dictates for vertices lo..hi-1 of `vs`, each
      asked about the graph as it stood when that vertex was added. */
  ghost function OracleEdges(vs: seq<VertexProps>, lo: nat, hi: nat, b: Batch): seq<EdgeProps>
    requires lo <= hi <= |vs|
    decreases hi - lo
  {
    if lo == hi then []
    else NewEdges(lo, b.nearest(vs[..lo + 1], lo, b.radius), b.index) + OracleEdges(vs, lo + 1, hi, b)
  }

  /** The graph ends with exactly `target` vertices if it had fewer, and is
      left with its vertex count otherwise. */
  lemma {:induction false} GrowVertexCount(s: Growth, target: nat, b: Batch)
    requires b.WellFormed()
    ensures |Grow(s, target, b).vertices| == if |s.vertices| < target then target else |s.vertices|
    decreases target - |s.vertices|
  {
    if |s.vertices| < target {
      GrowVertexCount(AddVertex(s, b), target, b);
    }
  }

  /** Growth only appends: existing vertices, their tags and existing edges
      are unchanged. */
  lemma {:induction false} GrowAppendsOnly(s: Growth, target: nat, b: Batch)
    requires b.WellFormed()
    ensures var t := Grow(s, target, b);
      |s.vertices| <= |t.vertices| && t.vertices[..|s.vertices|] == s.vertices &&
      |s.edges| <= |t.edges| && t.edges[..|s.edges|] == s.edges
    decreases target - |s.vertices|
  {
    if |s.vertices| < target {
      var s1 := AddVertex(s, b);
      GrowAppendsOnly(s1, target, b);
      var t := Grow(s, target, b);
      assert t.vertices[..|s.vertices|] == t.vertices[..|s1.vertices|][..|s.vertices|];
      assert t.edges[..|s.edges|] == t.edges[..|s1.edges|][..|s.edges|];
    }
  }

  /** Each new vertex carries the batch index, is not a shadow vertex, and
      has the coordinates of its position in the generation order. */
  lemma {:induction false} GrowTagsNewVertices(s: Growth, target: nat, b: Batch)
    requires b.WellFormed()
    ensures var t := Grow(s, target, b);
      forall i :: |s.vertices| <= i < |t.vertices| ==>
        t.vertices[i] == VertexProps(Coordinates(b.sampler, s.verticesGenerated + (i - |s.vertices|)), b.index, false)
    decreases target - |s.vertices|
  {
    if |s.vertices| < target {
      var s1 := AddVertex(s, b);
      GrowTagsNewVertices(s1, target, b);
      GrowAppendsOnly(s1, target, b);
      var t := Grow(s, target, b);
      assert t.vertices[|s.vertices|] == t.vertices[..|s1.vertices|][|s.vertices|];
    }
  }

  /** The counters grow by exactly the number of vertices and edges added. */
  lemma {:induction false} GrowCounters(s: Growth, target: nat, b: Batch)
    requires b.WellFormed()
    ensures var t := Grow(s, target, b);
      t.verticesGenerated == s.verticesGenerated + (|t.vertices| - |s.vertices|) &&
      t.edgesGenerated == s.edgesGenerated + (|t.edges| - |s.edges|) &&
      |s.vertices| <= |t.vertices| && |s.edges| <= |t.edges|
    decreases target - |s.vertices|
  {
    if |s.vertices| < target {
      GrowCounters(AddVertex(s, b), target, b);
    }
  }

  /** The added edges are exactly those the oracle returned for each new
      vertex, in vertex order and in the oracle's order. */
  lemma {:induction false} GrowEdgesFromOracle(s: Growth, target: nat, b: Batch)
    requires b.WellFormed()
    ensures var t := Grow(s, target, b);
      |s.vertices| <= |t.vertices| &&
      t.edges == s.edges + OracleEdges(t.vertices, |s.vertices|, |t.vertices|, b)
    decreases target - |s.vertices|
  {
    var t := Grow(s, target, b);
    if |s.vertices| < target {
      var s1 := AddVertex(s, b);
      GrowEdgesFromOracle(s1, target, b);
      GrowAppendsOnly(s1, target, b);
      var lo := |s.vertices|;
      assert t.vertices[..lo + 1] == s1.vertices;
      assert OracleEdges(t.vertices, lo, |t.vertices|, b)
          == NewEdges(lo, b.nearest(s1.vertices, lo, b.radius), b.index) + OracleEdges(t.vertices, lo + 1, |t.vertices|, b);
    } else {
      assert t.edges == s.edges + [];
    }
  }

  /** Every edge the oracle dictates starts at a vertex of the range, joins
      a neighbour the oracle returned with its distance, and carries the batch. */
  lemma {:induction false} OracleEdgeOrigin(vs: seq<VertexProps>, lo: nat, hi: nat, b: Batch, j: nat)
    requires lo <= hi <= |vs|
    requires j < |OracleEdges(vs, lo, hi, b)|
    ensures var e := OracleEdges(vs, lo, hi, b)[j];
      lo <= e.source < hi && e.batch == b.index &&
      Neighbor(e.target, e.distance) in b.nearest(vs[..e.source + 1], e.source, b.radius)
    decreases hi - lo
  {
    var near := b.nearest(vs[..lo + 1], lo, b.radius);
    var first := NewEdges(lo, near, b.index);
    var rest := OracleEdges(vs, lo + 1, hi, b);
    assert OracleEdges(vs, lo, hi, b) == first + rest;
    if j < |first| {
      assert near[j] == Neighbor(first[j].target, first[j].distance);
    } else {
      OracleEdgeOrigin(vs, lo + 1, hi, b, j - |first|);
    }
  }

  /** Growth keeps every edge between vertices of the graph. */
  lemma {:induction false} GrowKeepsEdgesWithin(s: Growth, target: nat, b: Batch)
    requires b.WellFormed()
    requires EdgesWithin(s.vertices, s.edges)
    ensures EdgesWithin(Grow(s, target, b).vertices, Grow(s, target, b).edges)
    decreases target - |s.vertices|
  {
    if |s.vertices| < target {
      var s1 := AddVertex(s, b);
      var v := |s.vertices|;
      var near := b.nearest(s1.vertices, v, b.radius);
      forall j | 0 <= j < |s1.edges|
        ensures s1.edges[j].source < |s1.vertices| && s1.edges[j].target < |s1.vertices|
      {
        if j >= |s.edges| {
          assert s1.edges[j] == NewEdges(v, near, b.index)[j - |s.edges|];
        }
      }
      GrowKeepsEdgesWithin(s1, target, b);
    }
  }

  /** The offset point lies inside the bounds, as a uniform sample of the space does. */
  ghost predicate OffsetWithinBounds(sp: Sampler)
    requires sp.WellFormed()
  {
    forall ui :: 0 <= ui < sp.dim ==> sp.low[ui] <= sp.offset[ui] <= sp.high[ui]
  }

  /** The Halton sequence takes its values in [0,1). */
  ghost predicate HaltonInUnitInterval(halton: (nat, nat) -> real)
  {
    forall base, n :: 0.0 <= halton(base, n) < 1.0
  }

  lemma GrowVertexCoordinates(s: Growth, target: nat, b: Batch, i: nat)
    requires b.WellFormed()
    requires |s.vertices| <= i < |Grow(s, target, b).vertices|
    ensures Grow(s, target, b).vertices[i].coords == Coordinates(b.sampler, s.verticesGenerated + (i - |s.vertices|))
  {
    GrowTagsNewVertices(s, target, b);
  }

  /** Every vertex a batch adds lies inside the bounds of the space. */
  lemma GrowVerticesWithinBounds(s: Growth, target: nat, b: Batch)
    requires b.WellFormed() && OffsetWithinBounds(b.sampler) && HaltonInUnitInterval(b.sampler.halton)
    ensures var t := Grow(s, target, b);
      forall i :: |s.vertices| <= i < |t.vertices| ==>
        |t.vertices[i].coords| == b.sampler.dim &&
        forall ui :: 0 <= ui < b.sampler.dim ==>
          b.sampler.low[ui] <= t.vertices[i].coords[ui] <= b.sampler.high[ui]
  {
    var t := Grow(s, target, b);
    var sp := b.sampler;
    forall i | |s.vertices| <= i < |t.vertices|
      ensures |t.vertices[i].coords| == sp.dim
      ensures forall ui :: 0 <= ui < sp.dim ==> sp.low[ui] <= t.vertices[i].coords[ui] <= sp.high[ui]
    {
      var n: nat := s.verticesGenerated + (i - |s.vertices|);
      GrowVertexCoordinates(s, target, b, i);
      forall ui | 0 <= ui < sp.dim
        ensures sp.low[ui] <= t.vertices[i].coords[ui] <= sp.high[ui]
      {
        assert Coordinates(sp, n)[ui] == Coordinate(sp.offset[ui], sp.low[ui], sp.high[ui], sp.halton(sp.prime(ui), n));
        CoordinateWithinBounds(sp.offset[ui], sp.low[ui], sp.high[ui], sp.halton(sp.prime(ui), n));
      }
    }
  }

  /** The facts `Generate` promises about one batch, gathered. */
  lemma GrowFacts(s: Growth, target: nat, b: Batch)
    requires b.WellFormed()
    requires EdgesWithin(s.vertices, s.edges)
    ensures var t := Grow(s, target, b);
      EdgesWithin(t.vertices, t.edges) &&
      |s.vertices| <= |t.vertices| && |s.edges| <= |t.edges| &&
      |t.vertices| == (if |s.vertices| < target then target else |s.vertices|) &&
      t.vertices[..|s.vertices|] == s.vertices && t.edges[..|s.edges|] == s.edges &&
      (forall i :: |s.vertices| <= i < |t.vertices| ==> t.vertices[i].batch == b.index && !t.vertices[i].shadow) &&
      t.verticesGenerated == s.verticesGenerated + (|t.vertices| - |s.vertices|) &&
      t.edgesGenerated == s.edgesGenerated + (|t.edges| - |s.edges|)
  {
    GrowKeepsEdgesWithin(s, target, b);
    GrowVertexCount(s, target, b);
    GrowAppendsOnly(s, target, b);
    GrowTagsNewVertices(s, target, b);
    GrowCounters(s, target, b);
  }

  // ---------------------------------------------------------------------
  // The roadmap generator

  /** The generator's parameters and progress counters. The prime table,
      the Halton sequence and the root stand for fixed library functions, so
      they are fixed when the generator is built. */
  class RoadmapHaltonOffDens {
    const nPerBatch: nat
    const radiusFirstBatch: real
    const seed: nat
    const dim: nat
    const low: seq<real>
    const high: seq<real>
    const offset: seq<real>
    const prime: nat -> nat
    const halton: (nat, nat) -> real
    const root: (real, nat) -> real
    var numBatchesGenerated: nat
    var verticesGenerated: nat
    var edgesGenerated: nat

    ghost predicate Valid()
    {
      |low| == dim && |high| == dim && |offset| == dim
    }

    constructor (nPerBatch: nat, radiusFirstBatch: real, seed: nat, dim: nat,
                 low: seq<real>, high: seq<real>, offset: seq<real>,
                 prime: nat -> nat, halton: (nat, nat) -> real, root: (real, nat) -> real)
      requires |low| == dim && |high| == dim && |offset| == dim
      ensures Valid()
      ensures this.nPerBatch == nPerBatch && this.radiusFirstBatch == radiusFirstBatch && this.seed == seed
      ensures this.dim == dim && this.low == low && this.high == high && this.offset == offset
      ensures this.prime == prime && this.halton == halton && this.root == root
      ensures numBatchesGenerated == 0 && verticesGenerated == 0 && edgesGenerated == 0
    {
      this.nPerBatch := nPerBatch;
      this.radiusFirstBatch := radiusFirstBatch;
      this.seed := seed;
      this.dim := dim;
      this.low := low;
      this.high := high;
      this.offset := offset;
      this.prime := prime;
      this.halton := halton;
      this.root := root;
      numBatchesGenerated := 0;
      verticesGenerated := 0;
      edgesGenerated := 0;
    }

    function NumBatchesGenerated(): nat
      reads this
    {
      numBatchesGenerated
    }

    /** The batch the next call of `Generate` builds. */
    function NextBatch(nearest: (seq<VertexProps>, nat, real) -> seq<Neighbor>): (b: Batch)
      reads this
      requires Valid() && NearestSound(nearest)
      ensures b.WellFormed()
    {
      Batch(SamplerOf(), nearest,
            RootRadius(radiusFirstBatch, dim, numBatchesGenerated, root), numBatchesGenerated)
    }

    function SamplerOf(): (sp: Sampler)
      requires Valid()
      ensures sp.WellFormed()
    {
      Sampler(dim, low, high, offset, prime, halton)
    }

    function Snapshot(g: Graph): Growth
      reads this, g
    {
      Growth(g.vertices, g.edges, verticesGenerated, edgesGenerated)
    }

    /** Grows `g` to (numBatchesGenerated+1)*nPerBatch vertices, then
        advances the batch counter. */
    method Generate(g: Graph, nearest: (seq<VertexProps>, nat, real) -> seq<Neighbor>)
      requires Valid() && g.WellFormed() && NearestSound(nearest)
      modifies this, g
      ensures g.WellFormed()
      ensures numBatchesGenerated == old(numBatchesGenerated) + 1
      ensures Snapshot(g) == Grow(old(Snapshot(g)), (old(numBatchesGenerated) + 1) * nPerBatch,
                                  old(NextBatch(nearest)))
      ensures var target := (old(numBatchesGenerated) + 1) * nPerBatch;
        |g.vertices| == if old(|g.vertices|) < target then target else old(|g.vertices|)
      ensures g.vertices[..old(|g.vertices|)] == old(g.vertices)
      ensures old(|g.edges|) <= |g.edges| && g.edges[..old(|g.edges|)] == old(g.edges)
      ensures forall i :: old(|g.vertices|) <= i < |g.vertices| ==>
        g.vertices[i].batch == old(numBatchesGenerated) && !g.vertices[i].shadow
      ensures verticesGenerated == old(verticesGenerated) + (|g.vertices| - old(|g.vertices|))
      ensures edgesGenerated == old(edgesGenerated) + (|g.edges| - old(|g.edges|))
    {
      var radius := RootRadius(radiusFirstBatch, dim, numBatchesGenerated, root);
      ghost var b := NextBatch(nearest);
      ghost var s0 := Snapshot(g);
      var target := (numBatchesGenerated + 1) * nPerBatch;
      while |g.vertices| < target
        invariant numBatchesGenerated == old(numBatchesGenerated)
        invariant Grow(Snapshot(g), target, b) == Grow(s0, target, b)
        decreases target - |g.vertices|
      {
        ghost var before := Snapshot(g);
        var values := StateValues();
        var vNew := g.AddVertex(VertexProps(values, numBatchesGenerated, false));
        var near := nearest(g.vertices, vNew, radius);
        ConnectNeighbors(g, vNew, near);
        verticesGenerated := verticesGenerated + 1;
        assert Snapshot(g) == AddVertex(before, b);
      }
      numBatchesGenerated := numBatchesGenerated + 1;
      GrowFacts(s0, target, b);
    }

    /** The coordinates of the next generated vertex, written one dimension
        at a time into a fresh state. */
    method StateValues() returns (values: seq<real>)
      requires Valid()
      ensures values == Coordinates(SamplerOf(), verticesGenerated)
    {
      var state := new real[dim];
      for ui := 0 to dim
        invariant forall j :: 0 <= j < ui ==>
          state[j] == Coordinate(offset[j], low[j], high[j], halton(prime(j), verticesGenerated))
      {
        var value := offset[ui];
        value := value + (high[ui] - low[ui]) * halton(prime(ui), verticesGenerated);
        if high[ui] < value {
          value := value - (high[ui] - low[ui]);
        }
        assert value == Coordinate(offset[ui], low[ui], high[ui], halton(prime(ui), verticesGenerated));
        state[ui] := value;
      }
      values := state[..];
    }

    /** Joins vertex `v` to every neighbour the oracle returned, recording
        each distance and the current batch, and counts the edges. */
    method ConnectNeighbors(g: Graph, v: nat, near: seq<Neighbor>)
      modifies g, this`edgesGenerated
      ensures g.vertices == old(g.vertices)
      ensures g.edges == old(g.edges) + NewEdges(v, near, numBatchesGenerated)
      ensures edgesGenerated == old(edgesGenerated) + |near|
    {
      for ui := 0 to |near|
        invariant g.vertices == old(g.vertices)
        invariant g.edges == old(g.edges) + NewEdges(v, near, numBatchesGenerated)[..ui]
        invariant edgesGenerated == old(edgesGenerated) + ui
      {
        g.AddEdge(EdgeProps(v, near[ui].vertex, near[ui].distance, numBatchesGenerated));
        edgesGenerated := edgesGenerated + 1;
      }
      assert NewEdges(v, near, numBatchesGenerated)[..|near|] == NewEdges(v, near, numBatchesGenerated);
    }
  }

  /** Builds a generator, failing when the space is not a real-vector space
      or when no prime is available for the last dimension. */
  method Create(space: StateSpace, nPerBatch: nat, radiusFirstBatch: real, seed: nat,
                offset: seq<real>, prime: nat -> nat, halton: (nat, nat) -> real,
                root: (real, nat) -> real)
    returns (r: Result<RoadmapHaltonOffDens>)
    requires space.WellFormed()
    requires space.RealVectorSpace? ==> |offset| == space.dimension
    ensures !space.RealVectorSpace? ==> r == Err(NotRealVectorSpace)
    ensures space.RealVectorSpace? && prime(PrimeIndex(space.dimension)) == 0 ==> r == Err(NotEnoughPrimes)
    ensures space.RealVectorSpace? && prime(PrimeIndex(space.dimension)) != 0 ==>
      r.Ok? && fresh(r.value) && r.value.Valid() &&
      r.value.dim == space.dimension && r.value.low == space.low && r.value.high == space.high &&
      r.value.offset == offset && r.value.nPerBatch == nPerBatch &&
      r.value.radiusFirstBatch == radiusFirstBatch && r.value.seed == seed &&
      r.value.prime == prime && r.value.halton == halton && r.value.root == root &&
      r.value.numBatchesGenerated == 0 && r.value.verticesGenerated == 0 && r.value.edgesGenerated == 0
  {
    if !space.RealVectorSpace? {
      return Err(NotRealVectorSpace);
    }
    var dim := space.dimension;
    if prime(PrimeIndex(dim)) == 0 {
      return Err(NotEnoughPrimes);
    }
    var roadmap := new RoadmapHaltonOffDens(nPerBatch, radiusFirstBatch, seed, dim, space.low, space.high, offset,
                                           prime, halton, root);
    r := Ok(roadmap);
  }
}
