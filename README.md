# Halton roadmap growth and the lazy-SP adapter around Lifelong Planning A*

This project models two pieces of a sampling-based motion-planning engine.
It proves properties of both models in Dafny.

**Roadmap growth** (`RoadmapHaltonOffDens`, module `Roadmap`, file `roadmap.dfy`).
This is an r-disk roadmap that grows in batches. Each call of `Generate` does three things.
First it appends vertices to the graph until the graph holds
`(numBatchesGenerated + 1) * nPerBatch` vertices. Every new vertex gets:

- the current batch index;
- a non-shadow mark;
- coordinates computed from the offset point plus a Halton value scaled to each dimension's extent, wrapped back once when it overshoots the upper bound.

Second, each new vertex is joined to every neighbour the nearest-neighbour oracle returns for the batch's radius.
Third, the method advances three counters: batches, vertices and edges.
The radius of batch `i` is `radiusFirstBatch * (1/(i+1))^(1/dim)`.
The model states it through its power law `r_i^dim * (i+1) == r_0^dim` rather than through a fractional exponent.
The power function is in module `RealPower` (`realpower.dfy`).

- `Generate` is proved against the ghost function `Grow`. Its postcondition equates the new graph and counters with `Grow` of the old ones.
- The lemmas `Grow*` state what one batch does: the vertex count, append-only growth, the tags, the counters, the edges the oracle dictates, and the bounds.
- `Create` models the constructor's two failure checks. It returns a `Result` instead of throwing.

**Lazy-SP adapter** (`LazySpIncSpLifelongPlanningAStar`, module `LazySpLpaStar`, file `lazysp_lpastar.dfy`).
`Solve` lets the incremental search settle. If the goal's distance is the `max()` sentinel, it returns that sentinel and leaves the caller's path alone.
Otherwise it clears the path and walks the predecessor map from the goal back to the start, pushing one edge per step. It then reverses the path and returns the goal's distance.
`UpdateNotify` hands the two endpoints of a changed edge to the search, source first.
The LPA* engine itself (`LifelongPlanningAStar`) is opaque:

- The search's invariant `Valid` is coverage (`Covers`): the distance and predecessor maps have one entry per vertex, and the start and goal are vertices. The constructors accept any maps that cover the graph.
- `ComputeShortestPath` takes the settled distance and predecessor maps as inputs. Its precondition `Settled` is what the search guarantees once settled: a finite goal distance means the predecessor walk reaches the start along graph edges.
- `UpdateVertex` records the call in `updateCalls` and installs the maps it leaves, which are inputs.

Weights are `real`. `WeightMax` is the largest finite double. The combine is `ClosedPlus`, addition that saturates at that sentinel.

External collaborators are parameters of the model. The prime table, the Halton sequence and the root are fixed when the generator is built and kept as its `const` fields, so every batch uses the ones `Create` checked. The nearest-neighbour query is passed to each `Generate` call, as `nn` is passed to `generate`:

- the Halton sequence (`halton`);
- the prime table (`prime`);
- `pow(x, 1/dim)` (`root`, constrained by `IsNthRoot`);
- the nearest-neighbour query (`nearest`, constrained by `NearestSound`);
- the seeded offset sample (`offset`).

`NumBatchesGenerated` models `get_num_batches_generated` (RoadmapHaltonOffDens.h:65-68). It only returns the counter, so it has no contract and no row.
Several other members compute what the source computes and carry no contract of their own. Their properties are the lemmas named here, which have rows:

- `RootRadius` is `root_radius` (RoadmapHaltonOffDens.h:70-74). The lemmas `RootRadiusFirstBatch`, `RootRadiusPowerLaw`, `RootRadiusDecreasing` and `RootRadiusOneDimensionExample` state its properties.
- `Coordinate` is the single wrap of one coordinate (RoadmapHaltonOffDens.h:100-105). `CoordinateWithinBounds` bounds it, and `StateValues` is proved to compute it.
- The ghost function `AddVertex` is one iteration of the `while` loop and `Grow` is the whole loop (RoadmapHaltonOffDens.h:87-120). The `Grow*` lemmas and `OracleEdgeOrigin` state what they do, and `Generate` is proved equal to `Grow`.
- `NextBatch` packages the batch index and `root_radius(num_batches_generated)` (RoadmapHaltonOffDens.h:86) for `Generate`'s postcondition. Its only contract is well-formedness.
- `LifelongPlanningAStar.Combine` is the `closed_plus` combine given to the search (lazysp_lifelong_planning_astar.h:73). It is `ClosedPlus` at the search's infinity, whose contract and `ClosedPlusCommutative` state its properties.
- `Reversed` is what `std::reverse` computes (lazysp_lifelong_planning_astar.h:99). `ReversedAt` states it element by element, and `EdgeVector.Reverse` is proved to produce it.

Behaviour of the code that the model keeps as written:

- The loop compares the total vertex count `num_vertices(g)`, shadow vertices included, with the batch target. Shadow vertices already in the graph therefore reduce how many vertices a batch adds.
- The Halton index is the `vertices_generated` counter, not the vertex's position in the graph.
- `generate` advances `num_batches_generated` on every call, even when it adds no vertex. A repeated call therefore targets the next batch; it is not a no-op for the same batch.
- `solve` uses its own `g`, `v_start` and `v_goal` parameters for the walk. These shadow the members the search was built with. The header comment says `solve` is always called with the same ones, and `Solve` requires that.
- The header comment says `solve` returns `max` "if a non-infinite path is found". The code returns `max` exactly when no path is found.

## Model

| member | source | states |
|---|---|---|
| Roadmap.Create | ompl_multiset/include/ompl_multiset/RoadmapHaltonOffDens.h:38-62 | Construction fails with NotRealVectorSpace for a non-real-vector space. Otherwise it fails with NotEnoughPrimes when the prime at index dim-1 (32-bit unsigned, so a zero dimension wraps) is 0. Otherwise it yields a fresh generator with the space's bounds, the given offset, the same prime table, Halton sequence and root, and all counters at 0 |
| Roadmap.PrimeIndex | ompl_multiset/include/ompl_multiset/RoadmapHaltonOffDens.h:54 | For every 32-bit unsigned dim, the index is dim-1 modulo 2^32, the unsigned subtraction of the source (so a zero dimension gives 0xFFFFFFFF) |
| Roadmap.RoadmapHaltonOffDens.constructor | ompl_multiset/include/ompl_multiset/RoadmapHaltonOffDens.h:38-49 | Stores the parameters, bounds, offset, prime table, Halton sequence and root, and starts the three counters at 0 |
| Roadmap.RootRadiusFirstBatch | ompl_multiset/include/ompl_multiset/RoadmapHaltonOffDens.h:70-74 | The radius of batch 0 is exactly radius_firstbatch, for every dimension |
| Roadmap.RootRadiusPowerLaw | ompl_multiset/include/ompl_multiset/RoadmapHaltonOffDens.h:70-74 | For dim >= 1: root_radius(i)^dim * (i+1) == radius_firstbatch^dim |
| Roadmap.RootRadiusDecreasing | ompl_multiset/include/ompl_multiset/RoadmapHaltonOffDens.h:70-74 | For radius_firstbatch > 0 and dim >= 1 the radius stays positive and strictly decreases from batch i to batch i+1 |
| Roadmap.RootRadiusOneDimensionExample | ompl_multiset/include/ompl_multiset/RoadmapHaltonOffDens.h:70-74 | In one dimension with first radius 5 the radii of batches 0 and 1 are 5 and 2.5 |
| Roadmap.CoordinateWithinBounds | ompl_multiset/include/ompl_multiset/RoadmapHaltonOffDens.h:100-105 | With low <= offset <= high and 0 <= halton < 1, the coordinate after the single wrap lies in [low, high] |
| Roadmap.Graph.constructor | ompl_multiset/include/ompl_multiset/RoadmapHaltonOffDens.h:77 | A graph holds the given vertex and edge records, every edge between existing vertices |
| Roadmap.Graph.AddVertex | ompl_multiset/include/ompl_multiset/RoadmapHaltonOffDens.h:89-92 | add_vertex appends one vertex with its properties and returns its index, the old vertex count; edges are unchanged |
| Roadmap.Graph.AddEdge | ompl_multiset/include/ompl_multiset/RoadmapHaltonOffDens.h:113-115 | add_edge appends one edge with its distance and batch; vertices are unchanged |
| Roadmap.RoadmapHaltonOffDens.SamplerOf | ompl_multiset/include/ompl_multiset/RoadmapHaltonOffDens.h:98-102 | The sampler of the generator has one bound pair and one offset per dimension |
| Roadmap.RoadmapHaltonOffDens.Generate | ompl_multiset/include/ompl_multiset/RoadmapHaltonOffDens.h:76-122 | The new graph and counters equal Grow of the old ones to (b+1)*n_perbatch vertices; num_batches_generated increases by exactly 1. The vertex count becomes the target if it was below it and is unchanged otherwise. Old vertices and edges are kept. New vertices carry batch b and are not shadows. vertices_generated and edges_generated grow by the numbers added. Every edge stays between existing vertices |
| Roadmap.RoadmapHaltonOffDens.StateValues | ompl_multiset/include/ompl_multiset/RoadmapHaltonOffDens.h:94-106 | The state written dimension by dimension equals the wrapped coordinates for Halton index vertices_generated |
| Roadmap.RoadmapHaltonOffDens.ConnectNeighbors | ompl_multiset/include/ompl_multiset/RoadmapHaltonOffDens.h:108-117 | One edge per oracle answer, in order, from the new vertex with the answer's distance and the current batch; edges_generated grows by the number of answers |
| Roadmap.Coordinates | ompl_multiset/include/ompl_multiset/RoadmapHaltonOffDens.h:98-106 | A vertex's coordinates have one entry per dimension |
| Roadmap.NewEdges | ompl_multiset/include/ompl_multiset/RoadmapHaltonOffDens.h:111-117 | One edge per neighbour the oracle returned |
| Roadmap.GrowVertexCount | ompl_multiset/include/ompl_multiset/RoadmapHaltonOffDens.h:87-89 | A batch ends with exactly the target number of vertices if the graph had fewer; otherwise it adds none |
| Roadmap.GrowAppendsOnly | ompl_multiset/include/ompl_multiset/RoadmapHaltonOffDens.h:87-120 | Growth only appends: old vertices with their tags and old edges are unchanged prefixes |
| Roadmap.GrowTagsNewVertices | ompl_multiset/include/ompl_multiset/RoadmapHaltonOffDens.h:89-106 | The k-th new vertex has batch = the pre-call batch index, shadow = false, and the coordinates of Halton index vertices_generated + k |
| Roadmap.GrowVertexCoordinates | ompl_multiset/include/ompl_multiset/RoadmapHaltonOffDens.h:94-106 | A new vertex's coordinates are those of its place in the generation order |
| Roadmap.GrowVerticesWithinBounds | ompl_multiset/include/ompl_multiset/RoadmapHaltonOffDens.h:98-106 | With the offset inside the bounds and Halton values in [0,1), every new vertex has dim coordinates, each inside its bounds |
| Roadmap.GrowCounters | ompl_multiset/include/ompl_multiset/RoadmapHaltonOffDens.h:116-119 | vertices_generated grows by exactly the vertices added and edges_generated by exactly the edges added |
| Roadmap.GrowEdgesFromOracle | ompl_multiset/include/ompl_multiset/RoadmapHaltonOffDens.h:108-117 | The edges added are exactly, in order, the oracle's answers for each new vertex, each asked of the graph as it stood when that vertex was added |
| Roadmap.OracleEdgeOrigin | ompl_multiset/include/ompl_multiset/RoadmapHaltonOffDens.h:110-115 | Every added edge starts at a new vertex, carries the batch, and its (target, distance) is one of the oracle's answers for that vertex |
| Roadmap.GrowKeepsEdgesWithin | ompl_multiset/include/ompl_multiset/RoadmapHaltonOffDens.h:110-113 | Given an oracle that names only existing vertices, every edge joins two vertices of the graph after growth |
| Roadmap.GrowFacts | ompl_multiset/include/ompl_multiset/RoadmapHaltonOffDens.h:86-121 | The facts Generate states, derived from Grow: count, append-only, tags, counters, edges within the graph |
| LazySpLpaStar.ClosedPlus | pr_bgl/include/pr_bgl/lazysp_lifelong_planning_astar.h:73 | closed_plus: an operand equal to the sentinel gives the sentinel (x + max == max, max + x == max). The zero weight is a two-sided identity whenever the sentinel is not zero |
| LazySpLpaStar.ClosedPlusCommutative | pr_bgl/include/pr_bgl/lazysp_lifelong_planning_astar.h:73 | The saturating combine is commutative |
| LazySpLpaStar.LazySpIncSpLifelongPlanningAStar.constructor | pr_bgl/include/pr_bgl/lazysp_lifelong_planning_astar.h:54-77 | For any maps covering the graph, the search is built on the adapter's graph, start, goal and maps, with infinity = max() and zero = weight_type(), and no vertex updated yet |
| LazySpLpaStar.LifelongPlanningAStar.constructor | pr_bgl/include/pr_bgl/lazysp_lifelong_planning_astar.h:64-75 | For any maps covering the graph, the search instance holds the graph, endpoints, infinity, zero and the given maps |
| LazySpLpaStar.LifelongPlanningAStar.ComputeShortestPath | pr_bgl/include/pr_bgl/lazysp_lifelong_planning_astar.h:83 | After the search settles, the distance and predecessor maps are the settled ones, which satisfy the search's guarantee |
| LazySpLpaStar.LifelongPlanningAStar.UpdateVertex | pr_bgl/include/pr_bgl/lazysp_lifelong_planning_astar.h:106-107 | Records one update_vertex call on v; the maps afterwards are the ones the engine leaves, given as inputs |
| LazySpLpaStar.LazySpIncSpLifelongPlanningAStar.Solve | pr_bgl/include/pr_bgl/lazysp_lifelong_planning_astar.h:79-102 | Returns exactly distance_map[goal]. When that is max the path is untouched. Otherwise the path is the predecessor chain from start to goal: edge 0 leaves start, the last edge enters goal, consecutive edges share their vertex, and each edge (pred[v], v) exists. The path is empty when goal == start, and it equals the walk for every step bound |
| LazySpLpaStar.LazySpIncSpLifelongPlanningAStar.UpdateNotify | pr_bgl/include/pr_bgl/lazysp_lifelong_planning_astar.h:104-108 | update_vertex is called on exactly source(e) and then target(e), and on nothing else; the maps are those the second call leaves |
| LazySpLpaStar.WalkPathIsChain | pr_bgl/include/pr_bgl/lazysp_lifelong_planning_astar.h:91-99 | The edges collected by the walk, reversed, form a chain from start to v through graph edges (pred[w], w) that never re-enters start. The chain is empty iff v == start |
| LazySpLpaStar.PredecessorChainUnique | pr_bgl/include/pr_bgl/lazysp_lifelong_planning_astar.h:91-99 | Two predecessor chains to the same vertex are equal, so the walk's result does not depend on the step bound |
| LazySpLpaStar.WalkPathStep | pr_bgl/include/pr_bgl/lazysp_lifelong_planning_astar.h:93-97 | One walk step from v != start follows the existing edge (pred[v], v) and leaves one step fewer to reach start |
| LazySpLpaStar.EdgeVector.Clear | pr_bgl/include/pr_bgl/lazysp_lifelong_planning_astar.h:90 | path.clear() empties the vector |
| LazySpLpaStar.EdgeVector.PushBack | pr_bgl/include/pr_bgl/lazysp_lifelong_planning_astar.h:96 | push_back appends the edge |
| LazySpLpaStar.EdgeVector.Reverse | pr_bgl/include/pr_bgl/lazysp_lifelong_planning_astar.h:99 | std::reverse leaves the vector holding the old contents in reverse order |
| LazySpLpaStar.ReversedAt | pr_bgl/include/pr_bgl/lazysp_lifelong_planning_astar.h:99 | Element i of the reversal is element n-1-i of the original, and the lengths agree |
| LazySpLpaStar.ReversedSnoc | pr_bgl/include/pr_bgl/lazysp_lifelong_planning_astar.h:96-99 | Pushing an edge at the back puts it at the front of the reversal |

## Left out

- The Lifelong Planning A* engine is not part of this model. Its priority queue, lookahead values, heuristic and the body of compute_shortest_path and update_vertex are absent. The maps it leaves after compute_shortest_path and after update_vertex are inputs. After compute_shortest_path they are constrained by the guarantee `Settled`; after update_vertex only by coverage.
- LifelongPlanningAStar.UpdateVertex: the lookahead map and the queue are not modelled. The distance and predecessor maps it leaves are inputs, constrained only by coverage, so the model does not say how update_vertex recomputes them.
- LazySpIncSpLifelongPlanningAStar.Solve: termination of the walk (its `decreases`) and the `assert found` for each edge rest on the `Settled` guarantee. The source does not check it. If the predecessor chain cycled without reaching the start, the loop at lazysp_lifelong_planning_astar.h:91 would never end. If an edge were missing, the `BOOST_ASSERT` at h:95 would abort a debug build. Without assertions, the edge returned with `found == false`, which is not an edge of the graph, would be pushed into the path. None of these failure behaviours is modelled.
- The seeded Mersenne-Twister offset sample is external randomness. The offset point is an input.
- The Halton sequence, the prime table, `pow` and the nearest-neighbour query are external code. They are function-typed inputs of the model. What the model relies on is stated as predicates over those parameters:
  - `IsNthRoot`: on a positive argument the root is positive and its dim-th power is the argument. The uniqueness of roots follows from it and is proved (`RootUnique`).
  - `NearestSound`: the query names only existing vertices. `Generate` requires it, and it is part of a well-formed batch.
  - `HaltonInUnitInterval` and `OffsetWithinBounds`: Halton values lie in [0,1) and the offset lies inside the bounds. Only the bounds lemmas require them.
- IEEE double arithmetic is not modelled. Coordinates, distances, radii and weights are unbounded reals, so rounding, overflow past `max()`, NaN and signed zero are absent. With reals, saturating addition is not associative, because a finite sum can equal the sentinel exactly.
- Integer widths of `n_perbatch` and the `size_t` counters are not modelled. The batch target and the counters are unbounded naturals; only the `dim-1` wrap of the prime-table check is modelled.
- The graph's edge container is taken to accept parallel edges, so every oracle answer appends an edge. A container that refuses duplicates would differ only if the oracle named a vertex twice.
- Edge identity is abstracted to the endpoint pair. `Edge` in the search adapter is a (source, target) pair, so when the roadmap holds parallel edges the model cannot say which descriptor `edge(v_pred, v_walk, g)` (lazysp_lifelong_planning_astar.h:94) returns.
- The nearest-neighbour index's own bookkeeping of inserted vertices is left out. The oracle is a function of the current vertex list.
- OMPL state allocation, the Boost property-map and graph templates, the `map_heuristic` wrapper, the unused `wmap` parameter of `solve`, the `make_lazysp_incsp_lifelong_planning_astar` factory (identical to the constructor), and the empty `serialize`/`deserialize` bodies.
- The family/effort model (`ompl_multiset/test/family_effort_model.cpp`) is not part of this model: its implementation is not available, only a single test assertion.
