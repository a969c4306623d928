/** The lazy-shortest-path adapter around Lifelong Planning A*: after the
    incremental search settles, `Solve` reads the goal's distance and walks
    the predecessor map back to the start; `UpdateNotify` forwards an edge
    weight change to the search. The search itself is opaque: what it leaves
    in the distance and predecessor maps is given to the model as input. */
module LazySpLpaStar {

  type Vertex = nat

  /** An edge descriptor as returned by an edge lookup `edge(u, v, g)`. */
  datatype Edge = Edge(source: Vertex, target: Vertex)

  /** The search graph: vertices 0..numVertices-1 and the ordered pairs the
      edge lookup finds (both orientations, for an undirected graph). */
  datatype Graph = Graph(numVertices: nat, adjacent: set<(Vertex, Vertex)>)
  {
    ghost predicate WellFormed()
    {
      forall p | p in adjacent :: p.0 < numVertices && p.1 < numVertices
    }

    predicate HasEdge(u: Vertex, v: Vertex)
    {
      (u, v) in adjacent
    }
  }

  // ---------------------------------------------------------------------
  // Weights

  /** The largest finite double, the `max()` of the weight type; the search
      uses it as infinity. */
  const WeightMax: real := 179769313486231570814527423731704356798070567525844996598917476803157260780028538760589558632766878171540458953514382464234321326889464182768467546703537516986049910576551282076245490090389328944075868508455133942304583236903222948165808559332123348274797826204144723168738177180919299881250404026184124858368.0

  /** The zero weight, a value-initialised weight. */
  const WeightZero: real := 0.0

  /** Addition that saturates at `inf`: either operand at `inf` gives `inf`. */
  function ClosedPlus(inf: real, a: real, b: real): (r: real)
    ensures a == inf || b == inf ==> r == inf
    ensures inf != WeightZero && a == WeightZero ==> r == b
    ensures inf != WeightZero && b == WeightZero ==> r == a
  {
    if a == inf then inf else if b == inf then inf else a + b
  }

  lemma ClosedPlusCommutative(inf: real, a: real, b: real)
    ensures ClosedPlus(inf, a, b) == ClosedPlus(inf, b, a)
  {
  }

  // ---------------------------------------------------------------------
  // Predecessor walks

  /** Walking predecessors from `v` reaches `start` within `k` steps, each
      step following an edge of `g` from the predecessor to the vertex. */
  ghost predicate ChainReaches(g: Graph, pred: seq<Vertex>, v: Vertex, start: Vertex, k: nat)
    decreases k
  {
    v == start ||
    (0 < k && v < |pred| && g.HasEdge(pred[v], v) && ChainReaches(g, pred, pred[v], start, k - 1))
  }

  /** The start-to-`v` path the predecessor walk from `v` traces, in forward order. */
  ghost function WalkPath(g: Graph, pred: seq<Vertex>, start: Vertex, v: Vertex, k: nat): seq<Edge>
    requires ChainReaches(g, pred, v, start, k)
    decreases k
  {
    if v == start then [] else WalkPath(g, pred, start, pred[v], k - 1) + [Edge(pred[v], v)]
  }

  /** `p` is a chain of graph edges from `start` to `v`, each edge entering a
      vertex from that vertex's predecessor, and `start` is entered by none. */
  ghost predicate IsPredecessorChain(g: Graph, pred: seq<Vertex>, start: Vertex, v: Vertex, p: seq<Edge>)
  {
    (p == [] ==> v == start) &&
    (p != [] ==> p[0].source == start && p[|p| - 1].target == v) &&
    (forall i :: 0 <= i < |p| - 1 ==> p[i].target == p[i + 1].source) &&
    (forall i :: 0 <= i < |p| ==>
      p[i].target != start && p[i].target < |pred| &&
      p[i].source == pred[p[i].target] && g.HasEdge(p[i].source, p[i].target))
  }

  /** The walk yields a predecessor chain; it is empty exactly when the walk
      starts at `start`. */
  lemma {:induction false} WalkPathIsChain(g: Graph, pred: seq<Vertex>, start: Vertex, v: Vertex, k: nat)
    requires ChainReaches(g, pred, v, start, k)
    ensures IsPredecessorChain(g, pred, start, v, WalkPath(g, pred, start, v, k))
    ensures WalkPath(g, pred, start, v, k) == [] <==> v == start
    decreases k
  {
    if v != start {
      WalkPathIsChain(g, pred, start, pred[v], k - 1);
    }
  }

  /** A predecessor chain to `v` is unique. */
  lemma {:induction false} PredecessorChainUnique(g: Graph, pred: seq<Vertex>, start: Vertex, v: Vertex,
                                                  p: seq<Edge>, q: seq<Edge>)
    requires IsPredecessorChain(g, pred, start, v, p)
    requires IsPredecessorChain(g, pred, start, v, q)
    ensures p == q
    decreases |p|
  {
    if p != [] && q != [] {
      var p', q' := p[..|p| - 1], q[..|q| - 1];
      var u := pred[v];
      assert p[|p| - 1] == Edge(u, v) == q[|q| - 1];
      assert IsPredecessorChain(g, pred, start, u, p') by {
        if p' != [] {
          assert p'[|p'| - 1].target == p[|p| - 1].source;
        }
      }
      assert IsPredecessorChain(g, pred, start, u, q') by {
        if q' != [] {
          assert q'[|q'| - 1].target == q[|q| - 1].source;
        }
      }
      PredecessorChainUnique(g, pred, start, u, p', q');
      assert p == p' + [Edge(u, v)];
      assert q == q' + [Edge(u, v)];
    }
  }

  /** The forward walk extended by one step at its far end. */
  lemma WalkPathStep(g: Graph, pred: seq<Vertex>, start: Vertex, v: Vertex, k: nat)
    requires ChainReaches(g, pred, v, start, k)
    requires v != start
    ensures 0 < k && v < |pred| && g.HasEdge(pred[v], v) && ChainReaches(g, pred, pred[v], start, k - 1)
    ensures WalkPath(g, pred, start, v, k) == WalkPath(g, pred, start, pred[v], k - 1) + [Edge(pred[v], v)]
  {
  }

  // ---------------------------------------------------------------------
  // Sequence reversal

  function Reversed<T>(s: seq<T>): seq<T>
  {
    if s == [] then [] else [s[|s| - 1]] + Reversed(s[..|s| - 1])
  }

  lemma {:induction false} ReversedAt<T>(s: seq<T>, i: nat)
    requires i < |s|
    ensures |Reversed(s)| == |s| && Reversed(s)[i] == s[|s| - 1 - i]
    decreases |s|
  {
    ReversedLength(s[..|s| - 1]);
    if 0 < i {
      ReversedAt(s[..|s| - 1], i - 1);
    }
  }

  lemma {:induction false} ReversedLength<T>(s: seq<T>)
    ensures |Reversed(s)| == |s|
    decreases |s|
  {
    if s != [] {
      ReversedLength(s[..|s| - 1]);
    }
  }

  /** Appending at the back puts the element at the front of the reversal. */
  lemma ReversedSnoc<T>(s: seq<T>, x: T)
    ensures Reversed(s + [x]) == [x] + Reversed(s)
  {
  }

  /** A growable vector of edges, the path the caller passes in by reference. */
  class EdgeVector {
    var items: seq<Edge>

    constructor (items: seq<Edge>)
      ensures this.items == items
    {
      this.items := items;
    }

    method Clear()
      modifies this
      ensures items == []
    {
      items := [];
    }

    method PushBack(e: Edge)
      modifies this
      ensures items == old(items) + [e]
    {
      items := items + [e];
    }

    /** Reverses the vector in place by swapping mirrored elements. */
    method Reverse()
      modifies this
      ensures items == Reversed(old(items))
    {
      var n, i := |items|, 0;
      while i < n / 2
        invariant 0 <= i <= n / 2 && |items| == n
        invariant forall j :: 0 <= j < i ==> items[j] == old(items)[n - 1 - j] && items[n - 1 - j] == old(items)[j]
        invariant forall j :: i <= j < n - i ==> items[j] == old(items)[j]
      {
        var t := items[i];
        items := items[i := items[n - 1 - i]][n - 1 - i := t];
        i := i + 1;
      }
      ReversedLength(old(items));
      forall j | 0 <= j < n
        ensures items[j] == Reversed(old(items))[j]
      {
        ReversedAt(old(items), j);
      }
    }
  }

  // ---------------------------------------------------------------------
  // The incremental search (opaque)

  /** The distance and predecessor maps cover every vertex of the graph, and
      the start and goal are vertices of it. */
  ghost predicate Covers(g: Graph, start: Vertex, goal: Vertex, distance: seq<real>, pred: seq<Vertex>)
  {
    |distance| == g.numVertices && |pred| == g.numVertices &&
    start < g.numVertices && goal < g.numVertices
  }

  /** What the search guarantees once it has settled: the maps cover every
      vertex, and when the goal's distance is finite the predecessor walk from
      the goal reaches the start along edges of the graph. */
  ghost predicate Settled(g: Graph, start: Vertex, goal: Vertex, distance: seq<real>, pred: seq<Vertex>)
  {
    Covers(g, start, goal, distance, pred) &&
    (distance[goal] != WeightMax ==> exists k :: ChainReaches(g, pred, goal, start, k))
  }

  /** The Lifelong Planning A* instance. Its priority queue and lookahead
      values are not modelled; `updateCalls` records the vertices handed to
      `UpdateVertex`, in order. */
  class LifelongPlanningAStar {
    const g: Graph
    const start: Vertex
    const goal: Vertex
    const infinity: real
    const zero: real
    var distance: seq<real>
    var predecessor: seq<Vertex>
    var updateCalls: seq<Vertex>

    ghost predicate Valid()
      reads this
    {
      Covers(g, start, goal, distance, predecessor)
    }

    constructor (g: Graph, start: Vertex, goal: Vertex, infinity: real, zero: real,
                 distance: seq<real>, predecessor: seq<Vertex>)
      requires Covers(g, start, goal, distance, predecessor)
      ensures Valid()
      ensures this.g == g && this.start == start && this.goal == goal
      ensures this.infinity == infinity && this.zero == zero
      ensures this.distance == distance && this.predecessor == predecessor && updateCalls == []
    {
      this.g := g;
      this.start := start;
      this.goal := goal;
      this.infinity := infinity;
      this.zero := zero;
      this.distance := distance;
      this.predecessor := predecessor;
      updateCalls := [];
    }

    /** How the search combines a distance with an edge weight. */
    function Combine(a: real, b: real): real
    {
      ClosedPlus(infinity, a, b)
    }

    /** Runs the search to the goal; the maps it leaves are the inputs. */
    method ComputeShortestPath(settledDistance: seq<real>, settledPredecessor: seq<Vertex>)
      requires Settled(g, start, goal, settledDistance, settledPredecessor)
      modifies this
      ensures Valid() && Settled(g, start, goal, distance, predecessor)
      ensures distance == settledDistance && predecessor == settledPredecessor
      ensures updateCalls == old(updateCalls)
    {
      distance := settledDistance;
      predecessor := settledPredecessor;
    }

    /** Re-examines one vertex after a weight change; the maps it leaves
        are the inputs. */
    method UpdateVertex(v: Vertex, newDistance: seq<real>, newPredecessor: seq<Vertex>)
      requires v < g.numVertices
      requires Covers(g, start, goal, newDistance, newPredecessor)
      modifies this
      ensures Valid()
      ensures distance == newDistance && predecessor == newPredecessor
      ensures updateCalls == old(updateCalls) + [v]
    {
      distance := newDistance;
      predecessor := newPredecessor;
      updateCalls := updateCalls + [v];
    }
  }

  // ---------------------------------------------------------------------
  // The adapter

  class LazySpIncSpLifelongPlanningAStar {
    const g: Graph
    const vStart: Vertex
    const vGoal: Vertex
    const lpastar: LifelongPlanningAStar

    ghost predicate Valid()
      reads this, lpastar
    {
      g.WellFormed() && lpastar.Valid() &&
      lpastar.g == g && lpastar.start == vStart && lpastar.goal == vGoal
    }

    /** Sets the search up with saturating addition at `WeightMax` as its
        combine, `WeightMax` as infinity and `WeightZero` as zero. */
    constructor (g: Graph, vStart: Vertex, vGoal: Vertex,
                 distance: seq<real>, predecessor: seq<Vertex>)
      requires g.WellFormed()
      requires Covers(g, vStart, vGoal, distance, predecessor)
      ensures Valid() && fresh(lpastar)
      ensures this.g == g && this.vStart == vStart && this.vGoal == vGoal
      ensures lpastar.infinity == WeightMax && lpastar.zero == WeightZero
      ensures lpastar.distance == distance && lpastar.predecessor == predecessor && lpastar.updateCalls == []
    {
      this.g := g;
      this.vStart := vStart;
      this.vGoal := vGoal;
      lpastar := new LifelongPlanningAStar(g, vStart, vGoal, WeightMax, WeightZero, distance, predecessor);
    }

    /** Settles the search and, when the goal is reachable, replaces `path`
        by the start-to-goal edges; returns the goal's distance, `WeightMax`
        meaning no path. */
    method Solve(g: Graph, vStart: Vertex, vGoal: Vertex, path: EdgeVector,
                 settledDistance: seq<real>, settledPredecessor: seq<Vertex>)
      returns (w: real)
      requires Valid()
      requires g == this.g && vStart == this.vStart && vGoal == this.vGoal
      requires Settled(g, vStart, vGoal, settledDistance, settledPredecessor)
      modifies lpastar, path
      ensures Valid()
      ensures lpastar.distance == settledDistance && lpastar.predecessor == settledPredecessor
      ensures lpastar.updateCalls == old(lpastar.updateCalls)
      ensures w == settledDistance[vGoal]
      ensures w == WeightMax ==> path.items == old(path.items)
      ensures w != WeightMax ==> IsPredecessorChain(g, settledPredecessor, vStart, vGoal, path.items)
      ensures w != WeightMax && vGoal == vStart ==> path.items == []
      ensures w != WeightMax ==> forall k :: ChainReaches(g, settledPredecessor, vGoal, vStart, k) ==>
        path.items == WalkPath(g, settledPredecessor, vStart, vGoal, k)
    {
      lpastar.ComputeShortestPath(settledDistance, settledPredecessor);

      if lpastar.distance[vGoal] == WeightMax {
        return WeightMax;
      }

      ghost var pred := lpastar.predecessor;
      ghost var k: nat :| ChainReaches(g, pred, vGoal, vStart, k);
      path.Clear();
      var vWalk := vGoal;
      ghost var left: nat := k;
      while vWalk != vStart
        invariant ChainReaches(g, pred, vWalk, vStart, left)
        invariant WalkPath(g, pred, vStart, vWalk, left) + Reversed(path.items) == WalkPath(g, pred, vStart, vGoal, k)
        invariant lpastar.distance == settledDistance && lpastar.predecessor == pred
        invariant lpastar.updateCalls == old(lpastar.updateCalls)
        decreases left
      {
        WalkPathStep(g, pred, vStart, vWalk, left);
        var vPred := lpastar.predecessor[vWalk];
        var found := g.HasEdge(vPred, vWalk);
        assert found;
        ghost var before := path.items;
        path.PushBack(Edge(vPred, vWalk));
        ReversedSnoc(before, Edge(vPred, vWalk));
        vWalk := vPred;
        left := left - 1;
      }
      path.Reverse();
      assert path.items == WalkPath(g, pred, vStart, vGoal, k);

      WalkPathIsChain(g, pred, vStart, vGoal, k);
      forall k' | ChainReaches(g, pred, vGoal, vStart, k')
        ensures path.items == WalkPath(g, pred, vStart, vGoal, k')
      {
        WalkPathIsChain(g, pred, vStart, vGoal, k');
        PredecessorChainUnique(g, pred, vStart, vGoal, path.items, WalkPath(g, pred, vStart, vGoal, k'));
      }
      return lpastar.distance[vGoal];
    }

    /** Forwards an edge weight change to the search: both endpoints, source
        first. The maps each update leaves are inputs. */
    method UpdateNotify(e: Edge, sourceDistance: seq<real>, sourcePredecessor: seq<Vertex>,
                        targetDistance: seq<real>, targetPredecessor: seq<Vertex>)
      requires Valid()
      requires g.HasEdge(e.source, e.target)
      requires Covers(g, vStart, vGoal, sourceDistance, sourcePredecessor)
      requires Covers(g, vStart, vGoal, targetDistance, targetPredecessor)
      modifies lpastar
      ensures Valid()
      ensures lpastar.distance == targetDistance && lpastar.predecessor == targetPredecessor
      ensures lpastar.updateCalls == old(lpastar.updateCalls) + [e.source, e.target]
    {
      lpastar.UpdateVertex(e.source, sourceDistance, sourcePredecessor);
      lpastar.UpdateVertex(e.target, targetDistance, targetPredecessor);
    }
  }
}
