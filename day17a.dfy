/** Day 17, part one, as the code stands: Dijkstra's algorithm over the
    grid of heat-loss digits from the top-left cell, where entering a cell
    costs its digit; the answer is the least heat lost reaching the
    bottom-right cell. The three-step straight-line limit of the puzzle is
    not implemented, so this is plain shortest-path search. */
module Day17a {
  import opened Common

  /** City blocks, one row per input line, each the heat lost entering it. */
  type Grid = seq<seq<nat>>

  datatype Coord = Coord(row: int, col: int)

  datatype Dir = North | East | South | West

  const Start := Coord(0, 0)

  function Add(c: Coord, d: Dir): Coord
  {
    match d
    case North => Coord(c.row - 1, c.col)
    case East => Coord(c.row, c.col + 1)
    case South => Coord(c.row + 1, c.col)
    case West => Coord(c.row, c.col - 1)
  }

  predicate OnGrid(grid: Grid, c: Coord)
  {
    0 <= c.row < |grid| && 0 <= c.col < |grid[c.row]|
  }

  /** `Board::get`: the block's digit, or None for a negative or off-grid
      coordinate. */
  function Get(grid: Grid, c: Coord): (r: Option<nat>)
    ensures r.Some? <==> OnGrid(grid, c)
    ensures r.Some? ==> r.value == grid[c.row][c.col]
  {
    if c.row < 0 || c.col < 0 then None
    else if c.row < |grid| && c.col < |grid[c.row]| then Some(grid[c.row][c.col])
    else None
  }

  /** `Board::from_input`: each character's decimal digit; a character that
      is not a digit panics (`to_digit(10).unwrap()`). */
  function FromInput(lines: seq<string>): (r: Result<Grid>)
    ensures r.Ok? <==> forall i :: 0 <= i < |lines| ==> AllDigits(lines[i])
    ensures r.Ok? ==> |r.value| == |lines| && forall i :: 0 <= i < |lines| ==>
      |r.value[i]| == |lines[i]| && forall j :: 0 <= j < |lines[i]| ==> r.value[i][j] == DigitValue(lines[i][j])
  {
    if forall i :: 0 <= i < |lines| ==> AllDigits(lines[i]) then
      Ok(seq(|lines|, i requires 0 <= i < |lines| => seq(|lines[i]|, j requires 0 <= j < |lines[i]| => DigitValue(lines[i][j]))))
    else Panic
  }

  /** A transition to a neighbouring block: where to, which way, and the heat
      lost entering it. */
  datatype Edge = Edge(target: Coord, direction: Dir, cost: nat)

  /** The edge in one direction, if that neighbour is on the grid. */
  function Toward(grid: Grid, from: Coord, d: Dir): seq<Edge>
  {
    match Get(grid, Add(from, d))
    case None => []
    case Some(v) => [Edge(Add(from, d), d, v)]
  }

  /** `Board::neighbors`: in the order North, East, South, West, one edge per
      on-grid neighbour. */
  function Neighbors(grid: Grid, from: Coord): seq<Edge>
  {
    Toward(grid, from, North) + Toward(grid, from, East) + Toward(grid, from, South) + Toward(grid, from, West)
  }

  /** The heat lost entering a block (nothing off the grid). */
  function HeatAt(grid: Grid, c: Coord): nat
  {
    match Get(grid, c)
    case None => 0
    case Some(v) => v
  }

  /** `b` is an on-grid orthogonal neighbour of `a`. */
  predicate Adjacent(grid: Grid, a: Coord, b: Coord)
  {
    OnGrid(grid, b) && (b == Add(a, North) || b == Add(a, East) || b == Add(a, South) || b == Add(a, West))
  }

  function Rank(d: Dir): nat
  {
    match d
    case North => 0
    case East => 1
    case South => 2
    case West => 3
  }

  /** Every edge leads to the on-grid neighbour in its direction, at that
      block's heat loss. */
  lemma NeighborsLead(grid: Grid, from: Coord)
    ensures forall e :: e in Neighbors(grid, from) ==> e.target == Add(from, e.direction) && Adjacent(grid, from, e.target) && e.cost == HeatAt(grid, e.target)
  {
  }

  /** The edges come in the order North, East, South, West. */
  lemma NeighborsOrdered(grid: Grid, from: Coord)
    ensures var es := Neighbors(grid, from); forall i, j :: 0 <= i < j < |es| ==> Rank(es[i].direction) < Rank(es[j].direction)
  {
  }

  /** Every on-grid neighbour has its edge. */
  lemma NeighborsCover(grid: Grid, from: Coord, b: Coord)
    requires Adjacent(grid, from, b)
    ensures exists e :: e in Neighbors(grid, from) && e.target == b
  {
    var n, e, s, w := Toward(grid, from, North), Toward(grid, from, East), Toward(grid, from, South), Toward(grid, from, West);
    assert Neighbors(grid, from) == n + e + s + w;
    if b == Add(from, North) {
      assert n[0] in Neighbors(grid, from);
    } else if b == Add(from, East) {
      assert e[0] in Neighbors(grid, from);
    } else if b == Add(from, South) {
      assert s[0] in Neighbors(grid, from);
    } else {
      assert w[0] in Neighbors(grid, from);
    }
  }

  // ---------------------------------------------------------------------
  // Paths and their cost

  /** A walk from the start through orthogonally adjacent blocks, built one
      step at a time. */
  ghost predicate Path(grid: Grid, p: seq<Coord>)
    decreases |p|
  {
    if |p| <= 1 then p == [Start]
    else Path(grid, p[..|p| - 1]) && Adjacent(grid, p[|p| - 2], p[|p| - 1])
  }

  /** The heat lost along a walk: every block entered, not the start. */
  function PathCost(grid: Grid, p: seq<Coord>): nat
  {
    if |p| <= 1 then 0 else PathCost(grid, p[..|p| - 1]) + HeatAt(grid, p[|p| - 1])
  }

  /** No walk to `v` loses less than `c`. */
  ghost predicate Optimal(grid: Grid, v: Coord, c: nat)
  {
    forall q :: Path(grid, q) && q[|q| - 1] == v ==> c <= PathCost(grid, q)
  }

  ghost predicate Reachable(grid: Grid, v: Coord)
  {
    exists q :: Path(grid, q) && q[|q| - 1] == v
  }

  /** `c` is the least heat lost reaching `v`. */
  ghost predicate Shortest(grid: Grid, v: Coord, c: nat)
  {
    (exists q :: Path(grid, q) && q[|q| - 1] == v && PathCost(grid, q) == c) && Optimal(grid, v, c)
  }

  lemma {:induction false} PathPrefix(grid: Grid, p: seq<Coord>, n: nat)
    requires Path(grid, p) && 1 <= n <= |p|
    ensures Path(grid, p[..n])
    decreases |p|
  {
    if n < |p| {
      PathPrefix(grid, p[..|p| - 1], n);
      assert p[..|p| - 1][..n] == p[..n];
    } else {
      assert p[..n] == p;
    }
  }

  /** Every walk begins at the start. */
  lemma {:induction false} PathStarts(grid: Grid, p: seq<Coord>)
    requires Path(grid, p)
    ensures p[0] == Start
    decreases |p|
  {
    if |p| > 1 {
      PathStarts(grid, p[..|p| - 1]);
    }
  }

  /** Every step of a walk moves to an on-grid neighbour. */
  lemma {:induction false} PathLinked(grid: Grid, p: seq<Coord>, i: nat)
    requires Path(grid, p) && 0 < i < |p|
    ensures Adjacent(grid, p[i - 1], p[i])
    decreases |p|
  {
    if i < |p| - 1 {
      PathLinked(grid, p[..|p| - 1], i);
    }
  }

  lemma {:induction false} PathCostPrefix(grid: Grid, p: seq<Coord>, n: nat)
    requires 1 <= n <= |p|
    ensures PathCost(grid, p[..n]) <= PathCost(grid, p)
    decreases |p| - n
  {
    if n < |p| {
      PathCostPrefix(grid, p[..|p| - 1], n);
      assert p[..|p| - 1][..n] == p[..n];
    } else {
      assert p[..n] == p;
    }
  }

  /** A walk extended by one neighbour. */
  lemma PathExtend(grid: Grid, p: seq<Coord>, t: Coord)
    requires Path(grid, p) && Adjacent(grid, p[|p| - 1], t)
    ensures Path(grid, p + [t]) && PathCost(grid, p + [t]) == PathCost(grid, p) + HeatAt(grid, t)
  {
    assert (p + [t])[..|p|] == p;
  }

  /** The start is reached at no cost: the start block's own digit is not
      counted. */
  lemma StartFree(grid: Grid)
    ensures Shortest(grid, Start, 0)
  {
    assert Path(grid, [Start]) && PathCost(grid, [Start]) == 0;
  }

  // ---------------------------------------------------------------------
  // The priority queue

  datatype Ordering = Less | Equal | Greater

  function Compare(a: nat, b: nat): Ordering
  {
    if a < b then Less else if a == b then Equal else Greater
  }

  /** A queued vertex with the heat lost reaching it through the path that
      queued it. */
  datatype Visit = Visit(vertex: Coord, heat_lost: nat)

  /** `Ord for Visit`: reversed on `heat_lost`, so that the max-heap pops a
      visit losing the least heat. */
  function Cmp(a: Visit, b: Visit): (r: Ordering)
    ensures r == Greater <==> a.heat_lost < b.heat_lost
    ensures r == Less <==> b.heat_lost < a.heat_lost
  {
    Compare(b.heat_lost, a.heat_lost)
  }

  /** `BinaryHeap::pop`: removes a greatest element under `Cmp`, that is,
      one with the least heat lost. Which of several equal ones it picks is
      the heap's business; any will do. */
  method Pop(heap: seq<Visit>) returns (top: Visit, rest: seq<Visit>)
    requires heap != []
    ensures multiset(heap) == multiset(rest) + multiset{top}
    ensures forall y :: y in heap ==> Cmp(top, y) != Less
    ensures forall y :: y in heap ==> top.heat_lost <= y.heat_lost
  {
    var k := 0;
    for i := 1 to |heap|
      invariant 0 <= k < |heap|
      invariant forall j :: 0 <= j < i ==> Cmp(heap[k], heap[j]) != Less
    {
      if Cmp(heap[k], heap[i]) == Less {
        k := i;
      }
    }
    top := heap[k];
    rest := heap[..k] + heap[k + 1..];
    assert heap == heap[..k] + [heap[k]] + heap[k + 1..];
  }

  // ---------------------------------------------------------------------
  // The invariants of the search

  /** The on-grid blocks. */
  function Cells(grid: Grid): set<Coord>
  {
    set i, j | 0 <= i < |grid| && 0 <= j < |grid[i]| :: Coord(i, j)
  }

  function Universe(grid: Grid): set<Coord>
  {
    Cells(grid) + {Start}
  }

  lemma InCells(grid: Grid, c: Coord)
    requires OnGrid(grid, c)
    ensures c in Cells(grid)
  {
    assert c == Coord(c.row, c.col);
  }

  /** The cost recorded for `v` is that of the walk recorded for it. */
  ghost predicate Recorded(grid: Grid, costs: map<Coord, nat>, paths: map<Coord, seq<Coord>>, v: Coord)
    requires v in costs
  {
    v in paths && v in Universe(grid) && Path(grid, paths[v]) && paths[v][|paths[v]| - 1] == v && PathCost(grid, paths[v]) == costs[v]
  }

  /** Every recorded cost is that of a recorded walk to the vertex. */
  ghost predicate Sound(grid: Grid, costs: map<Coord, nat>, paths: map<Coord, seq<Coord>>)
  {
    forall v :: v in costs ==> Recorded(grid, costs, paths, v)
  }

  /** The cost of every expanded vertex is least. */
  ghost predicate Settled(grid: Grid, costs: map<Coord, nat>, visited: set<Coord>)
  {
    forall v :: v in visited ==> v in costs && Optimal(grid, v, costs[v])
  }

  /** Every neighbour of an expanded vertex has a cost no worse than going
      through that vertex. */
  ghost predicate Relaxed(grid: Grid, costs: map<Coord, nat>, visited: set<Coord>)
  {
    forall u, b :: u in visited && u in costs && Adjacent(grid, u, b) ==> b in costs && costs[b] <= costs[u] + HeatAt(grid, b)
  }

  /** Every vertex with a cost and not yet expanded is queued at that cost,
      and no queued visit is cheaper than its vertex's cost. */
  ghost predicate Queued(costs: map<Coord, nat>, visited: set<Coord>, heap: seq<Visit>)
  {
    && (forall v :: v in costs && v !in visited ==> Visit(v, costs[v]) in heap)
    && (forall x :: x in heap ==> x.vertex in costs && costs[x.vertex] <= x.heat_lost)
  }

  /** Until the start is expanded, it is the only vertex with a cost. */
  ghost predicate Begun(costs: map<Coord, nat>, visited: set<Coord>)
  {
    Start in visited || (visited == {} && costs == map[Start := 0])
  }

  ghost predicate Searching(grid: Grid, costs: map<Coord, nat>, visited: set<Coord>, heap: seq<Visit>, paths: map<Coord, seq<Coord>>)
  {
    Sound(grid, costs, paths) && Settled(grid, costs, visited) && Relaxed(grid, costs, visited)
    && Queued(costs, visited, heap) && Begun(costs, visited)
  }

  /** A walk from inside the expanded set to outside it leaves it at some
      step. */
  lemma {:induction false} Leaves(q: seq<Coord>, visited: set<Coord>) returns (i: nat)
    requires |q| >= 1 && q[0] in visited && q[|q| - 1] !in visited
    ensures 0 < i < |q| && q[i - 1] in visited && q[i] !in visited
    decreases |q|
  {
    if q[|q| - 2] in visited {
      i := |q| - 1;
    } else {
      i := Leaves(q[..|q| - 1], visited);
    }
  }

  /** The cost of a walk's first `i + 1` blocks adds the heat of block `i`. */
  lemma PathCostStep(grid: Grid, q: seq<Coord>, i: nat)
    requires 0 < i < |q|
    ensures PathCost(grid, q[..i + 1]) == PathCost(grid, q[..i]) + HeatAt(grid, q[i])
  {
    assert q[..i + 1][..i] == q[..i];
  }

  /** Where a walk first leaves the expanded set, the block it enters
      already costs no more than the walk so far. */
  lemma Crossing(grid: Grid, costs: map<Coord, nat>, visited: set<Coord>, q: seq<Coord>, i: nat)
    requires Settled(grid, costs, visited) && Relaxed(grid, costs, visited)
    requires Path(grid, q) && 0 < i < |q| && q[i - 1] in visited
    ensures q[i] in costs && costs[q[i]] <= PathCost(grid, q[..i + 1])
  {
    var u, p := q[i - 1], q[..i];
    PathLinked(grid, q, i);
    PathPrefix(grid, q, i);
    assert p[|p| - 1] == u;
    assert costs[u] <= PathCost(grid, p);
    PathCostStep(grid, q, i);
  }

  /** The heart of Dijkstra's algorithm: the cheapest queued visit of an
      unexpanded vertex is no dearer than any walk to it. */
  lemma Cheapest(grid: Grid, costs: map<Coord, nat>, visited: set<Coord>, heap: seq<Visit>, top: Visit, q: seq<Coord>)
    requires Settled(grid, costs, visited) && Relaxed(grid, costs, visited) && Queued(costs, visited, heap) && Begun(costs, visited)
    requires top in heap && top.vertex !in visited && forall y :: y in heap ==> top.heat_lost <= y.heat_lost
    requires Path(grid, q) && q[|q| - 1] == top.vertex
    ensures top.heat_lost <= PathCost(grid, q)
  {
    if Start !in visited {
      assert Visit(Start, 0) in heap;
    } else {
      PathStarts(grid, q);
      var i := Leaves(q, visited);
      Crossing(grid, costs, visited, q, i);
      PathCostPrefix(grid, q, i + 1);
      assert Visit(q[i], costs[q[i]]) in heap;
    }
  }

  /** The popped visit of an unexpanded vertex carries its recorded cost,
      which is least. */
  lemma PoppedSettles(grid: Grid, costs: map<Coord, nat>, visited: set<Coord>, heap: seq<Visit>, top: Visit)
    requires Settled(grid, costs, visited) && Relaxed(grid, costs, visited) && Queued(costs, visited, heap) && Begun(costs, visited)
    requires top in heap && top.vertex !in visited && forall y :: y in heap ==> top.heat_lost <= y.heat_lost
    ensures top.vertex in costs && top.heat_lost == costs[top.vertex] && Optimal(grid, top.vertex, top.heat_lost)
  {
    assert Visit(top.vertex, costs[top.vertex]) in heap;
    forall q | Path(grid, q) && q[|q| - 1] == top.vertex
      ensures top.heat_lost <= PathCost(grid, q)
    {
      Cheapest(grid, costs, visited, heap, top, q);
    }
  }

  // ---------------------------------------------------------------------
  // The search

  /** A cheaper route to an expanded vertex does not exist, so relaxation
      never touches one. */
  lemma NoCheaperSettled(grid: Grid, costs: map<Coord, nat>, visited: set<Coord>, paths: map<Coord, seq<Coord>>, v: Coord, t: Coord)
    requires Sound(grid, costs, paths) && Settled(grid, costs, visited)
    requires v in costs && Adjacent(grid, v, t)
    ensures t in visited ==> costs[t] <= costs[v] + HeatAt(grid, t)
  {
    PathExtend(grid, paths[v], t);
    assert (paths[v] + [t])[|paths[v] + [t]| - 1] == t;
  }

  lemma SoundUpdate(grid: Grid, costs: map<Coord, nat>, paths: map<Coord, seq<Coord>>, t: Coord, c: nat, p: seq<Coord>)
    requires Sound(grid, costs, paths) && t in Universe(grid)
    requires Path(grid, p) && p[|p| - 1] == t && PathCost(grid, p) == c
    ensures Sound(grid, costs[t := c], paths[t := p])
  {
  }

  lemma SettledUpdate(grid: Grid, costs: map<Coord, nat>, visited: set<Coord>, t: Coord, c: nat)
    requires Settled(grid, costs, visited) && t !in visited
    ensures Settled(grid, costs[t := c], visited)
  {
  }

  lemma QueuedUpdate(costs: map<Coord, nat>, visited: set<Coord>, heap: seq<Visit>, t: Coord, c: nat)
    requires Queued(costs, visited, heap) && (t in costs ==> c <= costs[t])
    ensures Queued(costs[t := c], visited, heap + [Visit(t, c)])
  {
    assert Visit(t, c) in heap + [Visit(t, c)];
  }

  /** Lowering the cost of an unexpanded vertex raises no cost and leaves
      the expanded ones alone. */
  lemma Lowers(costs: map<Coord, nat>, visited: set<Coord>, t: Coord, c: nat)
    requires visited <= costs.Keys && t !in visited && (t in costs ==> c <= costs[t])
    ensures forall u :: u in costs ==> u in costs[t := c] && costs[t := c][u] <= costs[u]
    ensures forall u :: u in visited ==> costs[t := c][u] == costs[u]
  {
  }

  /** A cheaper route through an expanded vertex never leads to an
      expanded vertex. */
  lemma Unexpanded(grid: Grid, v: Coord, e: Edge, visited: set<Coord>, costs: map<Coord, nat>, paths: map<Coord, seq<Coord>>)
    requires Sound(grid, costs, paths) && Settled(grid, costs, visited)
    requires v in costs && Adjacent(grid, v, e.target) && e.cost == HeatAt(grid, e.target)
    requires e.target !in costs || costs[v] + e.cost < costs[e.target]
    ensures e.target !in visited
  {
    NoCheaperSettled(grid, costs, visited, paths, v, e.target);
  }

  /** One pass of the `for neighbor in board.neighbors(&vertex)` loop: a
      cheaper route to the neighbour through `v` is recorded and queued.
      Afterwards the neighbour costs at most `h` plus its digit, no cost has
      gone up, and expanded vertices keep theirs. */
  method RelaxEdge(grid: Grid, v: Coord, h: nat, neighbor: Edge, ghost visited: set<Coord>,
                   costs0: map<Coord, nat>, heap0: seq<Visit>, ghost paths0: map<Coord, seq<Coord>>)
    returns (costs: map<Coord, nat>, heap: seq<Visit>, ghost paths: map<Coord, seq<Coord>>)
    requires Sound(grid, costs0, paths0) && Settled(grid, costs0, visited) && Queued(costs0, visited, heap0)
    requires v in costs0 && costs0[v] == h
    requires Adjacent(grid, v, neighbor.target) && neighbor.cost == HeatAt(grid, neighbor.target)
    ensures Sound(grid, costs, paths) && Settled(grid, costs, visited) && Queued(costs, visited, heap)
    ensures neighbor.target in costs && costs[neighbor.target] <= h + neighbor.cost
    ensures forall u :: u in costs0 ==> u in costs && costs[u] <= costs0[u]
    ensures forall u :: u in visited ==> costs[u] == costs0[u]
  {
    costs, heap, paths := costs0, heap0, paths0;
    var new_cost := h + neighbor.cost;
    var is_cheaper := neighbor.target !in costs || new_cost < costs[neighbor.target];
    if is_cheaper {
      Unexpanded(grid, v, neighbor, visited, costs, paths);
      PathExtend(grid, paths[v], neighbor.target);
      InCells(grid, neighbor.target);
      SoundUpdate(grid, costs, paths, neighbor.target, new_cost, paths[v] + [neighbor.target]);
      SettledUpdate(grid, costs, visited, neighbor.target, new_cost);
      QueuedUpdate(costs, visited, heap, neighbor.target, new_cost);
      Lowers(costs, visited, neighbor.target, new_cost);
      costs := costs[neighbor.target := new_cost];
      heap := heap + [Visit(neighbor.target, new_cost)];
      paths := paths[neighbor.target := paths[v] + [neighbor.target]];
    }
  }

  /** The relaxed prefix of the edges grows by one when the next edge is
      relaxed and no cost goes up. */
  lemma RelaxedPrefix(h: nat, edges: seq<Edge>, k: nat, costs: map<Coord, nat>, costs': map<Coord, nat>)
    requires k < |edges| && forall m :: 0 <= m < k ==> edges[m].target in costs && costs[edges[m].target] <= h + edges[m].cost
    requires forall u :: u in costs ==> u in costs' && costs'[u] <= costs[u]
    requires edges[k].target in costs' && costs'[edges[k].target] <= h + edges[k].cost
    ensures forall m :: 0 <= m < k + 1 ==> edges[m].target in costs' && costs'[edges[m].target] <= h + edges[m].cost
  {
  }

  /** The `for neighbor in board.neighbors(&vertex)` loop: afterwards every
      neighbour of `v` costs at most `h` plus its digit, no cost has gone
      up, and expanded vertices keep theirs. */
  method Relax(grid: Grid, v: Coord, h: nat, ghost visited: set<Coord>,
               costs0: map<Coord, nat>, heap0: seq<Visit>, ghost paths0: map<Coord, seq<Coord>>)
    returns (costs: map<Coord, nat>, heap: seq<Visit>, ghost paths: map<Coord, seq<Coord>>)
    requires Sound(grid, costs0, paths0) && Settled(grid, costs0, visited) && Queued(costs0, visited, heap0)
    requires v in visited && costs0[v] == h
    ensures Sound(grid, costs, paths) && Settled(grid, costs, visited) && Queued(costs, visited, heap)
    ensures forall e :: e in Neighbors(grid, v) ==> e.target in costs && costs[e.target] <= h + e.cost
    ensures forall u :: u in costs0 ==> u in costs && costs[u] <= costs0[u]
    ensures forall u :: u in visited ==> costs[u] == costs0[u]
  {
    var edges := Neighbors(grid, v);
    NeighborsLead(grid, v);
    costs, heap, paths := costs0, heap0, paths0;
    for k := 0 to |edges|
      invariant Sound(grid, costs, paths) && Settled(grid, costs, visited) && Queued(costs, visited, heap)
      invariant forall m :: 0 <= m < k ==> edges[m].target in costs && costs[edges[m].target] <= h + edges[m].cost
      invariant forall u :: u in costs0 ==> u in costs && costs[u] <= costs0[u]
      invariant forall u :: u in visited ==> costs[u] == costs0[u]
    {
      assert edges[k] in edges;
      ghost var before, seen := costs, visited;
      costs, heap, paths := RelaxEdge(grid, v, h, edges[k], visited, costs, heap, paths);
      RelaxedPrefix(h, edges, k, before, costs);
    }
  }

  /** Relaxing every edge out of `v`, with no cost raised and the expanded
      costs kept, extends the relaxed set by `v`. */
  lemma RelaxedAfter(grid: Grid, costs0: map<Coord, nat>, costs: map<Coord, nat>, visited: set<Coord>, v: Coord)
    requires Relaxed(grid, costs0, visited) && visited <= costs0.Keys
    requires v in costs && forall e :: e in Neighbors(grid, v) ==> e.target in costs && costs[e.target] <= costs[v] + e.cost
    requires forall u :: u in costs0 ==> u in costs && costs[u] <= costs0[u]
    requires forall u :: u in visited ==> costs[u] == costs0[u]
    ensures Relaxed(grid, costs, visited + {v})
  {
    NeighborsLead(grid, v);
    forall u, b | u in visited + {v} && u in costs && Adjacent(grid, u, b)
      ensures b in costs && costs[b] <= costs[u] + HeatAt(grid, b)
    {
      if u == v {
        NeighborsCover(grid, v, b);
      } else {
        assert costs0[b] <= costs0[u] + HeatAt(grid, b);
      }
    }
  }

  /** Dropping a popped visit of an expanded vertex keeps every unexpanded
      vertex queued. */
  lemma PopQueued(costs: map<Coord, nat>, visited: set<Coord>, heap: seq<Visit>, top: Visit, rest: seq<Visit>, visited': set<Coord>)
    requires Queued(costs, visited, heap) && multiset(heap) == multiset(rest) + multiset{top}
    requires visited <= visited' && top.vertex in visited'
    ensures Queued(costs, visited', rest)
  {
    forall x | x in rest
      ensures x.vertex in costs && costs[x.vertex] <= x.heat_lost
    {
      assert x in multiset(heap);
    }
    forall u | u in costs && u !in visited'
      ensures Visit(u, costs[u]) in rest
    {
      assert Visit(u, costs[u]) in multiset(heap);
    }
  }

  /** A popped visit of an already expanded vertex is skipped: the search
      invariant holds of the rest of the queue. */
  lemma Skip(grid: Grid, costs: map<Coord, nat>, visited: set<Coord>, heap: seq<Visit>, paths: map<Coord, seq<Coord>>, top: Visit, rest: seq<Visit>)
    requires Searching(grid, costs, visited, heap, paths)
    requires multiset(heap) == multiset(rest) + multiset{top} && top.vertex in visited
    ensures Searching(grid, costs, visited, rest, paths) && |rest| < |heap|
  {
    PopQueued(costs, visited, heap, top, rest, visited);
    assert |multiset(heap)| == |multiset(rest)| + 1;
  }

  /** Expanding a popped unexpanded vertex `v`: its cost is least, so the
      invariants hold with `v` marked expanded, ready for relaxation. */
  lemma Expand(grid: Grid, costs: map<Coord, nat>, visited: set<Coord>, heap: seq<Visit>, paths: map<Coord, seq<Coord>>, top: Visit, rest: seq<Visit>)
    requires Searching(grid, costs, visited, heap, paths) && top in heap && top.vertex !in visited
    requires multiset(heap) == multiset(rest) + multiset{top} && forall y :: y in heap ==> top.heat_lost <= y.heat_lost
    ensures top.vertex in costs && costs[top.vertex] == top.heat_lost && top.vertex in Universe(grid)
    ensures Sound(grid, costs, paths) && Settled(grid, costs, visited + {top.vertex}) && Queued(costs, visited + {top.vertex}, rest)
    ensures Start in visited + {top.vertex}
  {
    PoppedSettles(grid, costs, visited, heap, top);
    PopQueued(costs, visited, heap, top, rest, visited + {top.vertex});
    assert Recorded(grid, costs, paths, top.vertex);
  }

  /** After relaxing the expanded vertex's edges the search invariant holds
      again. */
  lemma Resume(grid: Grid, costs0: map<Coord, nat>, costs: map<Coord, nat>, visited: set<Coord>, v: Coord,
               heap: seq<Visit>, paths: map<Coord, seq<Coord>>)
    requires Relaxed(grid, costs0, visited) && visited <= costs0.Keys && v in costs0
    requires Sound(grid, costs, paths) && Settled(grid, costs, visited + {v}) && Queued(costs, visited + {v}, heap)
    requires forall e :: e in Neighbors(grid, v) ==> e.target in costs && costs[e.target] <= costs0[v] + e.cost
    requires forall u :: u in costs0 ==> u in costs && costs[u] <= costs0[u]
    requires forall u :: u in visited + {v} ==> costs[u] == costs0[u]
    requires Start in visited + {v}
    ensures Searching(grid, costs, visited + {v}, heap, paths)
  {
    RelaxedAfter(grid, costs0, costs, visited, v);
  }

  lemma Fewer(all: set<Coord>, seen: set<Coord>, k: Coord)
    requires k in all && k !in seen
    ensures |all - (seen + {k})| < |all - seen|
  {
    assert all - (seen + {k}) == (all - seen) - {k};
  }

  /** Every walk from the expanded start stays among the expanded vertices
      when every vertex with a cost is expanded. */
  lemma {:induction false} Closed(grid: Grid, costs: map<Coord, nat>, visited: set<Coord>, q: seq<Coord>)
    requires Relaxed(grid, costs, visited) && Start in visited && visited == costs.Keys
    requires Path(grid, q)
    ensures q[|q| - 1] in visited
    decreases |q|
  {
    if |q| > 1 {
      var p := q[..|q| - 1];
      Closed(grid, costs, visited, p);
      assert p[|p| - 1] == q[|q| - 2];
    }
  }

  /** When the queue is empty every vertex with a cost has its least cost
      and a walk realising it, and the vertices with a cost are exactly the
      reachable ones. */
  lemma Finished(grid: Grid, costs: map<Coord, nat>, visited: set<Coord>, paths: map<Coord, seq<Coord>>)
    requires Searching(grid, costs, visited, [], paths)
    ensures forall v :: v in costs <==> Reachable(grid, v)
    ensures forall v :: v in costs ==> Shortest(grid, v, costs[v])
    ensures Start in costs && costs[Start] == 0
  {
    assert Start in costs ==> Start in visited;
    StartFree(grid);
    forall v | v in costs
      ensures Shortest(grid, v, costs[v])
    {
      assert Recorded(grid, costs, paths, v);
    }
    forall v | Reachable(grid, v)
      ensures v in costs
    {
      var q :| Path(grid, q) && q[|q| - 1] == v;
      Closed(grid, costs, visited, q);
    }
  }

  /** `order` lists the expanded vertices, each once. */
  ghost predicate Expansions(order: seq<Coord>, visited: set<Coord>)
  {
    (forall v :: v in order <==> v in visited) && forall i, j :: 0 <= i < j < |order| ==> order[i] != order[j]
  }

  /** `visited.insert(vertex)` succeeding: the vertex is expanded for the
      first time. */
  ghost function Expanded(order: seq<Coord>, visited: set<Coord>, v: Coord): (r: seq<Coord>)
    requires Expansions(order, visited) && v !in visited
    ensures Expansions(r, visited + {v}) && |r| == |order| + 1 && r[..|order|] == order && r[|order|] == v
  {
    order + [v]
  }

  /** The `while let Some(…) = to_visit.pop()` loop of `solution`: the
      least heat lost reaching every reachable block. */
  method ShortestPaths(grid: Grid) returns (costs: map<Coord, nat>, ghost paths: map<Coord, seq<Coord>>, ghost order: seq<Coord>)
    ensures forall v :: v in costs <==> Reachable(grid, v)
    ensures forall v :: v in costs ==> Shortest(grid, v, costs[v])
    ensures Start in costs && costs[Start] == 0
    ensures (forall v :: v in order <==> v in costs) && forall i, j :: 0 <= i < j < |order| ==> order[i] != order[j]
  {
    order := [];
    costs := map[Start := 0];
    paths := map[Start := [Start]];
    var visited: set<Coord> := {};
    var heap := [Visit(Start, 0)];
    assert Recorded(grid, costs, paths, Start);
    while heap != []
      invariant Searching(grid, costs, visited, heap, paths)
      invariant Expansions(order, visited)
      decreases |Universe(grid) - visited|, |heap|
    {
      var top, rest := Pop(heap);
      assert top in multiset(heap);
      if top.vertex in visited {
        Skip(grid, costs, visited, heap, paths, top, rest);
        heap := rest;
        continue;
      }
      Expand(grid, costs, visited, heap, paths, top, rest);
      ghost var before, seen := costs, visited;
      Fewer(Universe(grid), visited, top.vertex);
      var v := top.vertex;
      visited := visited + {v};
      order := Expanded(order, seen, v);
      costs, heap, paths := Relax(grid, v, top.heat_lost, visited, costs, rest, paths);
      Resume(grid, before, costs, seen, v, heap, paths);
    }
    Finished(grid, costs, visited, paths);
  }

  /** The bottom-right block, by the first row's width (`Board::size`). */
  function Corner(grid: Grid): Coord
    requires grid != []
  {
    Coord(|grid| - 1, |grid[0]| - 1)
  }

  /** Rust's `solution`: the least heat lost reaching the bottom-right
      block. It panics on a character that is not a digit, on an empty grid
      (`size` indexes the first row) and when the corner has no cost
      (indexing the map). */
  method Solution(lines: seq<string>) returns (r: Result<nat>)
    ensures r.Panic? <==> (FromInput(lines).Panic? || FromInput(lines).value == []
                           || !Reachable(FromInput(lines).value, Corner(FromInput(lines).value)))
    ensures r.Ok? ==> Shortest(FromInput(lines).value, Corner(FromInput(lines).value), r.value)
  {
    var board := FromInput(lines);
    if board.Panic? {
      return Panic;
    }
    var grid := board.value;
    var costs;
    ghost var paths, order;
    costs, paths, order := ShortestPaths(grid);
    if grid == [] {
      return Panic;
    }
    var corner := Coord(|grid| - 1, |grid[0]| - 1);
    if corner !in costs {
      return Panic;
    }
    r := Ok(costs[corner]);
  }
}
