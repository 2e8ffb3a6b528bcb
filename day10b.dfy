/** Day 10, part two: the cells enclosed by the loop. Pipes that are not
    part of the loop are cleared first; the loop is then walked again, and
    from every pipe a flood fill is started on its right and on its left.
    A fill that runs off the board shows that side to be the outside, and
    the count of the other side is the answer. */
module Day10b {
  import opened Common
  import Day10a

  type Coord = Day10a.Coord

  /** A pipe piece, now with the symbol it was read from. */
  datatype Pipe = Pipe(symbol: char, position: Coord, first: Coord, second: Coord)

  /** A board cell: empty, already counted by a fill, or a pipe. */
  datatype Cell = Empty | Visited | PipeCell(pipe: Pipe)

  /** Index k of `[-1, 0, 1] x [-1, 0, 1]` for the n-th neighbour: the
      centre (k = 4) is skipped. */
  function NeighbourIndex(n: nat): nat
  {
    if n < 4 then n else n + 1
  }

  /** What `neighbors` returns: the eight cells around `c`, x in the outer
      loop and y in the inner. */
  function NeighboursOf(c: Coord): (r: seq<Coord>)
    ensures |r| == 8
  {
    seq(8, n requires 0 <= n < 8 => Day10a.At(c, NeighbourIndex(n)))
  }

  /** The neighbours are exactly the cells at Chebyshev distance 1: the
      cell itself is not among them. */
  lemma NeighboursAround(c: Coord, d: Coord)
    ensures d in NeighboursOf(c) <==> d != c && -1 <= d.x - c.x <= 1 && -1 <= d.y - c.y <= 1
  {
    var ns := NeighboursOf(c);
    if d in ns {
      var n :| 0 <= n < 8 && ns[n] == d;
      Day10a.OffsetShape(NeighbourIndex(n), 4);
    }
    if d != c && -1 <= d.x - c.x <= 1 && -1 <= d.y - c.y <= 1 {
      var i, j := d.x - c.x + 1, d.y - c.y + 1;
      Day10a.OffsetAt(i, j);
      var k := 3 * i + j;
      var n := if k < 4 then k else k - 1;
      assert ns[n] == d;
    }
  }

  /** How many neighbours come before index k of the 3x3 block. */
  function Before(k: nat): nat
  {
    if k <= 4 then k else k - 1
  }

  /** `Coord::neighbors`: the two nested loops over `[-1, 0, 1]`, skipping
      the centre. */
  method Neighbours(c: Coord) returns (neighbors: seq<Coord>)
    ensures neighbors == NeighboursOf(c)
  {
    neighbors := [];
    for i := 0 to 3
      invariant neighbors == NeighboursOf(c)[..Before(3 * i)]
    {
      var x := i - 1;
      for j := 0 to 3
        invariant neighbors == NeighboursOf(c)[..Before(3 * i + j)]
      {
        var y := j - 1;
        if x == 0 && y == 0 {
          continue;
        }
        Day10a.OffsetAt(i, j);
        assert NeighboursOf(c)[Before(3 * i + j)] == Day10a.Plus(c, x, y);
        neighbors := neighbors + [Day10a.Plus(c, x, y)];
      }
    }
  }

  /** The cell at column x of row y, as the parse leaves it: `.` and `S`
      are empty; the pieces follow the table of part one. */
  function CellAt(line: string, x: nat, y: nat): (r: Result<Cell>)
    requires x < |line|
    ensures r.Ok? && r.value.PipeCell? ==> r.value.pipe.position == Day10a.Coord(x, y) && r.value.pipe.symbol == line[x]
  {
    match Day10a.Connections(line[x], Day10a.Coord(x, y))
    case Panic => Panic
    case Ok(None) => Ok(Empty)
    case Ok(Some((a, b))) => Ok(PipeCell(Pipe(line[x], Day10a.Coord(x, y), a, b)))
  }

  /** One line of cells; an unknown character panics. */
  function ParseLine(line: string, y: nat): (r: Result<seq<Cell>>)
    ensures r.Ok? <==> forall x :: 0 <= x < |line| ==> CellAt(line, x, y).Ok?
    ensures r.Ok? ==> |r.value| == |line| && forall x :: 0 <= x < |line| ==> r.value[x] == CellAt(line, x, y).value
  {
    var cells := seq(|line|, x requires 0 <= x < |line| => CellAt(line, x, y));
    assert forall x :: 0 <= x < |line| ==> cells[x] == CellAt(line, x, y);
    Collect(cells)
  }

  /** The grid of cells. */
  function ParseCells(lines: seq<string>): (r: Result<seq<seq<Cell>>>)
    ensures r.Ok? <==> forall y :: 0 <= y < |lines| ==> ParseLine(lines[y], y).Ok?
    ensures r.Ok? ==> |r.value| == |lines| && forall y :: 0 <= y < |lines| ==> r.value[y] == ParseLine(lines[y], y).value
  {
    var rows := seq(|lines|, y requires 0 <= y < |lines| => ParseLine(lines[y], y));
    assert forall y :: 0 <= y < |lines| ==> rows[y] == ParseLine(lines[y], y);
    Collect(rows)
  }

  /** Is `c` a cell of the board? */
  predicate OnBoard(cells: seq<seq<Cell>>, c: Coord)
  {
    Day10a.IsValid(c) && c.y < |cells| && c.x < |cells[c.y]|
  }

  /** `is_connected_to`. */
  predicate IsConnectedTo(pipe: Pipe, other: Coord)
  {
    other in [pipe.first, pipe.second]
  }

  function Prepend(front: seq<Coord>, r: Result<seq<Coord>>): Result<seq<Coord>>
  {
    match r
    case Ok(v) => Ok(front + v)
    case Panic => Panic
  }

  /** The start's connections among `coords`: the positions of the pipes
      there that connect back to the start; a valid cell off the grid
      panics on the index. */
  function Connected(cells: seq<seq<Cell>>, start: Coord, coords: seq<Coord>): Result<seq<Coord>>
  {
    if coords == [] then Ok([])
    else
      var coord := coords[0];
      var rest := Connected(cells, start, coords[1..]);
      if !Day10a.IsValid(coord) then rest
      else if coord.y >= |cells| || coord.x >= |cells[coord.y]| then Panic
      else
        match cells[coord.y][coord.x]
        case PipeCell(pipe) => if IsConnectedTo(pipe, start) then Prepend([pipe.position], rest) else rest
        case _ => rest
  }

  lemma PrependNothing(r: Result<seq<Coord>>)
    ensures Prepend([], r) == r
  {
    if r.Ok? {
      assert [] + r.value == r.value;
    }
  }

  lemma PrependTwice(a: seq<Coord>, b: seq<Coord>, r: Result<seq<Coord>>)
    ensures Prepend(a, Prepend(b, r)) == Prepend(a + b, r)
  {
    if r.Ok? {
      assert a + (b + r.value) == (a + b) + r.value;
    }
  }

  /** A pipe of the grid next to the start that connects back to it. */
  predicate Joins(cells: seq<seq<Cell>>, start: Coord, c: Coord)
  {
    && OnBoard(cells, c) && cells[c.y][c.x].PipeCell?
    && cells[c.y][c.x].pipe.position == c && IsConnectedTo(cells[c.y][c.x].pipe, start)
  }

  /** In a parsed grid each pipe sits at its own position. */
  predicate WellPlaced(cells: seq<seq<Cell>>)
  {
    forall y, x :: 0 <= y < |cells| && 0 <= x < |cells[y]| && cells[y][x].PipeCell? ==> cells[y][x].pipe.position == Day10a.Coord(x, y)
  }

  /** Every connection found is one of `coords` holding a pipe that
      connects back to the start. */
  lemma {:induction false} ConnectedSound(cells: seq<seq<Cell>>, start: Coord, coords: seq<Coord>)
    requires Connected(cells, start, coords).Ok? && WellPlaced(cells)
    ensures forall c :: c in Connected(cells, start, coords).value ==> c in coords && Joins(cells, start, c)
  {
    if coords != [] {
      ConnectedSound(cells, start, coords[1..]);
    }
  }

  /** What `from_input` builds: the grid, with the start pipe put in, and
      the start. */
  function Build(lines: seq<string>): Result<(seq<seq<Cell>>, Coord)>
  {
    match ParseCells(lines)
    case Panic => Panic
    case Ok(cells) =>
      var start := Day10a.StartOf(lines);
      match Connected(cells, start, NeighboursOf(start))
      case Panic => Panic
      case Ok(connected) =>
        if |connected| != 2 || !OnBoard(cells, start) then Panic
        else Ok((cells[start.y := cells[start.y][start.x := PipeCell(Pipe('S', start, connected[0], connected[1]))]], start))
  }

  /** A built grid holds the start pipe `S` at the start, and both its
      connections are neighbouring pipes that connect back to it. */
  lemma BuiltStart(lines: seq<string>)
    requires Build(lines).Ok?
    ensures var (cells, start) := Build(lines).value;
      && OnBoard(cells, start) && cells[start.y][start.x].PipeCell?
      && var p := cells[start.y][start.x].pipe;
      && p.symbol == 'S' && p.position == start
      && p.first in NeighboursOf(start) && p.second in NeighboursOf(start)
      && Joins(cells, start, p.first) && Joins(cells, start, p.second)
  {
    var parsed := ParseCells(lines).value;
    var start := Day10a.StartOf(lines);
    var connected := Connected(parsed, start, NeighboursOf(start)).value;
    assert WellPlaced(parsed);
    ConnectedSound(parsed, start, NeighboursOf(start));
    assert connected[0] in connected && connected[1] in connected;
    NeighboursAround(start, connected[0]);
    NeighboursAround(start, connected[1]);
  }

  /** The cells a fill turns from empty to visited. */
  ghost function EmptyCells(cells: seq<seq<Cell>>): set<Coord>
  {
    set y, x | 0 <= y < |cells| && 0 <= x < |cells[y]| && cells[y][x] == Empty :: Day10a.Coord(x, y)
  }

  /** `after` has the shape of `before`, and each cell is unchanged or went
      from empty to visited. */
  predicate Marks(before: seq<seq<Cell>>, after: seq<seq<Cell>>)
  {
    && |after| == |before|
    && (forall y :: 0 <= y < |before| ==> |after[y]| == |before[y]|)
    && forall y, x :: 0 <= y < |before| && 0 <= x < |before[y]| ==>
      after[y][x] == before[y][x] || (before[y][x] == Empty && after[y][x] == Visited)
  }

  /** Cell c was turned from empty to visited. */
  predicate Marked(before: seq<seq<Cell>>, after: seq<seq<Cell>>, c: Coord)
  {
    OnBoard(before, c) && OnBoard(after, c) && before[c.y][c.x] == Empty && after[c.y][c.x] == Visited
  }

  /** Marking one empty cell removes it from the empty cells. */
  lemma MarkOne(cells: seq<seq<Cell>>, c: Coord)
    requires OnBoard(cells, c) && cells[c.y][c.x] == Empty
    ensures EmptyCells(cells[c.y := cells[c.y][c.x := Visited]]) == EmptyCells(cells) - {c}
  {
    var after := cells[c.y := cells[c.y][c.x := Visited]];
    forall d | d in EmptyCells(after)
      ensures d in EmptyCells(cells) - {c}
    {
      assert 0 <= d.y < |after| && 0 <= d.x < |after[d.y]| && after[d.y][d.x] == Empty;
    }
    forall d | d in EmptyCells(cells) - {c}
      ensures d in EmptyCells(after)
    {
      assert 0 <= d.y < |cells| && 0 <= d.x < |cells[d.y]| && cells[d.y][d.x] == Empty;
      assert after[d.y][d.x] == Empty;
    }
  }

  /** Marks never add empty cells. */
  lemma MarksShrink(before: seq<seq<Cell>>, after: seq<seq<Cell>>)
    requires Marks(before, after)
    ensures EmptyCells(after) <= EmptyCells(before)
  {
    forall d | d in EmptyCells(after)
      ensures d in EmptyCells(before)
    {
      assert 0 <= d.y < |after| && 0 <= d.x < |after[d.y]| && after[d.y][d.x] == Empty;
    }
  }

  /** The board. */
  class Field {
    var inner: seq<seq<Cell>>
    var start: Coord

    constructor (inner: seq<seq<Cell>>, start: Coord)
      ensures this.inner == inner && this.start == start
    {
      this.inner := inner;
      this.start := start;
    }

    /** `get`: `None` for a negative coordinate and for one off the board;
        it never panics. */
    function Get(coord: Coord): (r: Option<Cell>)
      reads this
      ensures r.None? <==> !OnBoard(inner, coord)
      ensures r.Some? ==> r.value == inner[coord.y][coord.x]
    {
      CellOf(inner, coord)
    }

    /** `set`: a negative coordinate panics, and so does one off the board
        (the index); otherwise the one cell is replaced. */
    method Set(coord: Coord, cell: Cell) returns (r: Result<()>)
      modifies this
      ensures start == old(start)
      ensures r.Panic? <==> !OnBoard(old(inner), coord)
      ensures r.Panic? ==> inner == old(inner)
      ensures r.Ok? ==> inner == old(inner)[coord.y := old(inner)[coord.y][coord.x := cell]]
    {
      if !Day10a.IsValid(coord) {
        return Panic;
      }
      if coord.y >= |inner| || coord.x >= |inner[coord.y]| {
        return Panic;
      }
      inner := inner[coord.y := inner[coord.y][coord.x := cell]];
      r := Ok(());
    }

    /** `search_from`: a flood fill over empty cells from `coord`, with a
        stack as frontier. Each empty cell popped is counted, marked as
        visited and its neighbours are pushed; visited cells and pipes are
        skipped. A coordinate off the board ends the fill with `None`,
        leaving the cells marked so far. With `Some(n)`, n is the number of
        cells marked, and the marked region is closed: every neighbour of
        a marked cell is on the board and not empty. Either way every
        marked cell is joined to `coord` through marked neighbours. */
    method SearchFrom(coord: Coord) returns (r: Option<nat>)
      modifies this
      ensures start == old(start) && Marks(old(inner), inner)
      ensures r.Some? ==> r.value == |EmptyCells(old(inner)) - EmptyCells(inner)|
      ensures r.Some? ==> OnBoard(inner, coord) && inner[coord.y][coord.x] != Empty
      ensures r.Some? ==> Closed(old(inner), inner, [])
      ensures Linked(old(inner), inner, coord)
      ensures r.None? ==> exists d :: !OnBoard(inner, d) && (d == coord || Reaches(old(inner), inner, d))
    {
      ghost var before := inner;
      var frontier: seq<Coord> := [coord];
      var count := 0;
      while frontier != []
        invariant start == old(start) && Searching(before, inner, frontier, coord, count)
        invariant Linked(before, inner, coord)
        decreases EmptyCells(inner), |frontier|
      {
        ghost var was := frontier;
        var next := frontier[|frontier| - 1];
        frontier := frontier[..|frontier| - 1];
        assert next in was;
        var cell := Get(next);
        if cell.None? {
          assert next == coord || Reaches(before, inner, next);
          return None;
        }
        if cell.value.Visited? || cell.value.PipeCell? {
          SkipStep(before, inner, was, coord);
          continue;
        }
        frontier, count := Fill(before, coord, was, frontier, next, count);
      }
      r := Some(count);
    }

    /** The empty-cell branch of `search_from`: the cell is counted, its
        neighbours are pushed and it is marked as visited. */
    method Fill(ghost before: seq<seq<Cell>>, ghost coord: Coord, ghost was: seq<Coord>, rest: seq<Coord>, next: Coord, count: nat)
      returns (frontier: seq<Coord>, count': nat)
      requires was != [] && next == was[|was| - 1] && rest == was[..|was| - 1] && OnBoard(inner, next) && inner[next.y][next.x] == Empty
      requires Searching(before, inner, was, coord, count) && Linked(before, inner, coord)
      modifies this
      ensures start == old(start) && Searching(before, inner, frontier, coord, count')
      ensures Linked(before, inner, coord)
      ensures EmptyCells(inner) < EmptyCells(old(inner))
    {
      count' := count + 1;
      var neighbors := Neighbours(next);
      frontier := rest + neighbors;
      ghost var old_inner := inner;
      var _ := Set(next, Visited);
      FillKeeps(before, old_inner, inner, was, coord, count);
    }

    /** `clear_junk`: the loop is walked once from the start, towards the
        start pipe's `connected[0]`, collecting the positions it passes;
        every other cell is then made empty. The walk's termination is not
        proved, so the caller names a bound within which it ends; `k` is
        the number of turns the walk takes. */
    method ClearJunk(ghost bound: nat) returns (r: Result<()>, ghost k: nat)
      requires Halts(inner, start, bound)
      modifies this
      ensures start == old(start)
      ensures r.Panic? ==> PanicsAt(old(inner), start, k) && inner == old(inner)
      ensures r.Ok? ==> StopsAt(old(inner), start, k) && inner == Cleared(old(inner), Loop(old(inner), start, k))
    {
      var visited;
      visited, k := WalkLoop(inner, start, bound);
      if visited.Panic? {
        return Panic, k;
      }
      Blank(visited.value);
      r := Ok(());
    }

    /** The two nested loops of `clear_junk` over the rows and their cells:
        a cell whose position is not kept is made empty. */
    method Blank(keep: set<Coord>)
      modifies this
      ensures start == old(start) && inner == Cleared(old(inner), keep)
    {
      ghost var before := inner;
      for y := 0 to |inner|
        invariant start == old(start) && |inner| == |before|
        invariant forall i :: 0 <= i < |before| ==> inner[i] == if i < y then ClearedRow(before[i], i, keep) else before[i]
      {
        var row := inner[y];
        for x := 0 to |row|
          invariant |row| == |before[y]|
          invariant forall i :: 0 <= i < |row| ==> row[i] == if i < x then ClearedRow(before[y], y, keep)[i] else before[y][i]
        {
          if Day10a.Coord(x, y) !in keep {
            row := row[x := Empty];
          }
        }
        inner := inner[y := row];
      }
    }
  }

  /** The invariant of the fill from `coord`: the marks so far, their
      number, `coord` still to do or done, and the closure properties. */
  ghost predicate Searching(before: seq<seq<Cell>>, now: seq<seq<Cell>>, frontier: seq<Coord>, coord: Coord, count: nat)
  {
    && Marks(before, now) && count == |EmptyCells(before) - EmptyCells(now)|
    && (coord in frontier || (OnBoard(now, coord) && now[coord.y][coord.x] != Empty))
    && Closed(before, now, frontier) && Pushed(before, now, frontier, coord)
  }

  /** d is a neighbour of a marked cell. */
  ghost predicate Reaches(before: seq<seq<Cell>>, now: seq<seq<Cell>>, d: Coord)
  {
    exists c :: Marked(before, now, c) && d in NeighboursOf(c)
  }

  /** Every neighbour of a marked cell is still to be popped, or on the
      board and not empty. */
  ghost predicate Closed(before: seq<seq<Cell>>, now: seq<seq<Cell>>, frontier: seq<Coord>)
  {
    forall c, d :: Marked(before, now, c) && d in NeighboursOf(c) ==>
      d in frontier || (OnBoard(now, d) && now[d.y][d.x] != Empty)
  }

  /** Every coordinate on the frontier is the first one or a neighbour of a
      marked cell. */
  ghost predicate Pushed(before: seq<seq<Cell>>, now: seq<seq<Cell>>, frontier: seq<Coord>, coord: Coord)
  {
    forall f :: f in frontier ==> f == coord || Reaches(before, now, f)
  }

  /** Marking the popped empty cell and pushing its neighbours keeps the
      invariants of the fill, and removes one empty cell. */
  lemma FillKeeps(before: seq<seq<Cell>>, was: seq<seq<Cell>>, now: seq<seq<Cell>>, frontier: seq<Coord>, coord: Coord, count: nat)
    requires frontier != [] && var next := frontier[|frontier| - 1];
      && OnBoard(was, next) && was[next.y][next.x] == Empty && now == was[next.y := was[next.y][next.x := Visited]]
    requires Searching(before, was, frontier, coord, count) && Linked(before, was, coord)
    ensures Searching(before, now, frontier[..|frontier| - 1] + NeighboursOf(frontier[|frontier| - 1]), coord, count + 1)
    ensures Linked(before, now, coord)
    ensures EmptyCells(now) < EmptyCells(was)
  {
    var next := frontier[|frontier| - 1];
    MarksShrink(before, was);
    MarkOne(was, next);
    MarkStep(before, was, now, next);
    MarkCount(before, was, now, next);
    FillStep(before, was, now, frontier, coord);
    LinkStep(before, was, now, frontier, coord);
  }

  /** c is marked and joined to `coord` by a chain of at most n steps,
      each from a marked cell to a marked neighbour. */
  ghost predicate JoinedIn(before: seq<seq<Cell>>, now: seq<seq<Cell>>, coord: Coord, c: Coord, n: nat)
    decreases n
  {
    Marked(before, now, c) &&
    (c == coord || (n > 0 && exists b :: Marked(before, now, b) && c in NeighboursOf(b) && JoinedIn(before, now, coord, b, n - 1)))
  }

  /** c is joined to `coord` through marked cells. */
  ghost predicate Joined(before: seq<seq<Cell>>, now: seq<seq<Cell>>, coord: Coord, c: Coord)
  {
    exists n: nat :: JoinedIn(before, now, coord, c, n)
  }

  /** Every marked cell is joined to `coord`: the fill only reaches cells
      connected to its origin. */
  ghost predicate Linked(before: seq<seq<Cell>>, now: seq<seq<Cell>>, coord: Coord)
  {
    forall c :: Marked(before, now, c) ==> Joined(before, now, coord, c)
  }

  /** More marks keep every chain. */
  lemma {:induction false} JoinedGrows(before: seq<seq<Cell>>, was: seq<seq<Cell>>, now: seq<seq<Cell>>, coord: Coord, c: Coord, n: nat)
    requires forall d :: Marked(before, was, d) ==> Marked(before, now, d)
    requires JoinedIn(before, was, coord, c, n)
    ensures JoinedIn(before, now, coord, c, n)
    decreases n
  {
    if c != coord {
      var b :| Marked(before, was, b) && c in NeighboursOf(b) && JoinedIn(before, was, coord, b, n - 1);
      JoinedGrows(before, was, now, coord, b, n - 1);
    }
  }

  /** Marking the popped cell keeps every marked cell joined to `coord`:
      the popped cell is `coord` itself or a neighbour of a marked cell. */
  lemma LinkStep(before: seq<seq<Cell>>, was: seq<seq<Cell>>, now: seq<seq<Cell>>, frontier: seq<Coord>, coord: Coord)
    requires frontier != [] && Linked(before, was, coord) && Pushed(before, was, frontier, coord)
    requires forall d :: Marked(before, was, d) ==> Marked(before, now, d)
    requires forall d :: Marked(before, now, d) ==> Marked(before, was, d) || d == frontier[|frontier| - 1]
    requires Marked(before, now, frontier[|frontier| - 1])
    ensures Linked(before, now, coord)
  {
    var next := frontier[|frontier| - 1];
    forall c | Marked(before, now, c)
      ensures Joined(before, now, coord, c)
    {
      if c == next {
        assert next in frontier;
        if next == coord {
          assert JoinedIn(before, now, coord, c, 0);
        } else {
          var b :| Marked(before, was, b) && next in NeighboursOf(b);
          var n: nat :| JoinedIn(before, was, coord, b, n);
          JoinedGrows(before, was, now, coord, b, n);
          assert JoinedIn(before, now, coord, c, n + 1);
        }
      } else {
        var n: nat :| JoinedIn(before, was, coord, c, n);
        JoinedGrows(before, was, now, coord, c, n);
      }
    }
  }

  /** Popping a cell that is visited or a pipe keeps the invariants. */
  lemma SkipStep(before: seq<seq<Cell>>, now: seq<seq<Cell>>, frontier: seq<Coord>, coord: Coord)
    requires frontier != [] && Closed(before, now, frontier) && Pushed(before, now, frontier, coord)
    requires var next := frontier[|frontier| - 1]; OnBoard(now, next) && now[next.y][next.x] != Empty
    requires coord in frontier || (OnBoard(now, coord) && now[coord.y][coord.x] != Empty)
    ensures Closed(before, now, frontier[..|frontier| - 1]) && Pushed(before, now, frontier[..|frontier| - 1], coord)
    ensures coord in frontier[..|frontier| - 1] || (OnBoard(now, coord) && now[coord.y][coord.x] != Empty)
  {
    var rest := frontier[..|frontier| - 1];
    assert frontier == rest + [frontier[|frontier| - 1]];
    forall f | f in rest
      ensures f in frontier
    {
    }
  }

  /** Popping an empty cell, marking it and pushing its neighbours keeps
      the invariants. */
  lemma FillStep(before: seq<seq<Cell>>, was: seq<seq<Cell>>, now: seq<seq<Cell>>, frontier: seq<Coord>, coord: Coord)
    requires frontier != [] && Closed(before, was, frontier) && Pushed(before, was, frontier, coord)
    requires var next := frontier[|frontier| - 1];
      && OnBoard(was, next) && was[next.y][next.x] == Empty && now == was[next.y := was[next.y][next.x := Visited]]
    requires Marks(before, was) && Marks(before, now)
    requires forall d :: Marked(before, was, d) ==> Marked(before, now, d)
    requires forall d :: Marked(before, now, d) ==> Marked(before, was, d) || d == frontier[|frontier| - 1]
    requires coord in frontier || (OnBoard(was, coord) && was[coord.y][coord.x] != Empty)
    ensures var next := frontier[|frontier| - 1];
      var pushed := frontier[..|frontier| - 1] + NeighboursOf(next);
      Closed(before, now, pushed) && Pushed(before, now, pushed, coord)
    ensures var pushed := frontier[..|frontier| - 1] + NeighboursOf(frontier[|frontier| - 1]);
      coord in pushed || (OnBoard(now, coord) && now[coord.y][coord.x] != Empty)
  {
    var next := frontier[|frontier| - 1];
    var rest := frontier[..|frontier| - 1];
    var pushed := rest + NeighboursOf(next);
    assert frontier == rest + [next];
    if coord in frontier && coord != next {
      assert coord in rest;
    }
    assert Marked(before, now, next);
    forall c, d | Marked(before, now, c) && d in NeighboursOf(c)
      ensures d in pushed || (OnBoard(now, d) && now[d.y][d.x] != Empty)
    {
      if c != next {
        assert Marked(before, was, c);
        if d == next {
          assert now[d.y][d.x] == Visited;
        } else if d in frontier {
          assert d in rest;
        } else {
          assert OnBoard(was, d) && was[d.y][d.x] != Empty;
        }
      }
    }
    forall f | f in pushed
      ensures f == coord || Reaches(before, now, f)
    {
      if f in rest {
        assert f in frontier;
        if f != coord {
          var c :| Marked(before, was, c) && f in NeighboursOf(c);
          assert Marked(before, now, c);
        }
      } else {
        assert Marked(before, now, next) && f in NeighboursOf(next);
      }
    }
  }

  /** The cell at `coord`, or `None` off the board. */
  function CellOf(cells: seq<seq<Cell>>, coord: Coord): Option<Cell>
  {
    if !Day10a.IsValid(coord) then None
    else if coord.y < |cells| && coord.x < |cells[coord.y]| then Some(cells[coord.y][coord.x])
    else None
  }

  /** One more empty cell marked: the marks grow by that cell. */
  lemma MarkStep(before: seq<seq<Cell>>, was: seq<seq<Cell>>, now: seq<seq<Cell>>, c: Coord)
    requires Marks(before, was) && OnBoard(was, c) && was[c.y][c.x] == Empty
    requires now == was[c.y := was[c.y][c.x := Visited]]
    ensures Marks(before, now)
    ensures forall d :: Marked(before, was, d) ==> Marked(before, now, d)
    ensures forall d :: Marked(before, now, d) ==> Marked(before, was, d) || d == c
  {
  }

  /** ... and the count of marked cells grows by one. */
  lemma MarkCount(before: seq<seq<Cell>>, was: seq<seq<Cell>>, now: seq<seq<Cell>>, c: Coord)
    requires OnBoard(was, c) && was[c.y][c.x] == Empty
    requires EmptyCells(was) <= EmptyCells(before) && EmptyCells(now) == EmptyCells(was) - {c}
    ensures |EmptyCells(before) - EmptyCells(now)| == |EmptyCells(before) - EmptyCells(was)| + 1
  {
    assert c in EmptyCells(was);
    OneMore(EmptyCells(before), EmptyCells(was), c);
  }

  lemma OneMore(a: set<Coord>, b: set<Coord>, c: Coord)
    requires b <= a && c in b
    ensures |a - (b - {c})| == |a - b| + 1
  {
    assert a - (b - {c}) == (a - b) + {c};
  }

  /** `get(c).unwrap().pipe()`: a cell off the board or without a pipe
      panics. */
  function PipeAt(cells: seq<seq<Cell>>, c: Coord): Result<Pipe>
  {
    match CellOf(cells, c)
    case Some(PipeCell(p)) => Ok(p)
    case _ => Panic
  }

  /** `next_from`: the connection other than the previous pipe's position;
      panics when the previous pipe is not connected. */
  function NextFrom(pipe: Pipe, prev: Pipe): (r: Result<Coord>)
    ensures r.Ok? <==> IsConnectedTo(pipe, prev.position)
    ensures r.Ok? ==> IsConnectedTo(pipe, r.value)
    ensures r.Ok? && pipe.first != pipe.second ==> r.value != prev.position
  {
    if prev.position == pipe.first then Ok(pipe.second)
    else if prev.position == pipe.second then Ok(pipe.first)
    else Panic
  }

  /** The walk: the pipe just left and the current pipe. */
  datatype State = State(prev: Pipe, cur: Pipe)

  /** The start pipe, and the pipe at its `connected[0]`. */
  function Begin(cells: seq<seq<Cell>>, start: Coord): Result<State>
  {
    match PipeAt(cells, start)
    case Panic => Panic
    case Ok(first) =>
      match PipeAt(cells, first.first)
      case Panic => Panic
      case Ok(cur) => Ok(State(first, cur))
  }

  /** One turn of the walk. */
  function Step(cells: seq<seq<Cell>>, s: State): Result<State>
  {
    match NextFrom(s.cur, s.prev)
    case Panic => Panic
    case Ok(next) =>
      match PipeAt(cells, next)
      case Panic => Panic
      case Ok(pipe) => Ok(State(s.cur, pipe))
  }

  /** The state after k turns. */
  function Trail(cells: seq<seq<Cell>>, start: Coord, k: nat): Result<State>
  {
    if k == 0 then Begin(cells, start)
    else
      match Trail(cells, start, k - 1)
      case Ok(s) => Step(cells, s)
      case Panic => Panic
  }

  predicate AtStart(start: Coord, s: State)
  {
    s.cur.position == start
  }

  /** The walk ends after exactly k turns, back at the start. */
  predicate StopsAt(cells: seq<seq<Cell>>, start: Coord, k: nat)
  {
    Trail(cells, start, k).Ok? && AtStart(start, Trail(cells, start, k).value) && Ongoing(cells, start, k)
  }

  /** The walk panics at turn k, before coming back. */
  predicate PanicsAt(cells: seq<seq<Cell>>, start: Coord, k: nat)
  {
    Trail(cells, start, k).Panic? && Ongoing(cells, start, k)
  }

  /** Within `bound` turns the walk comes back or panics. */
  predicate Halts(cells: seq<seq<Cell>>, start: Coord, bound: nat)
  {
    exists k :: 0 <= k <= bound && Ends(cells, start, k)
  }

  /** After k turns the walk has panicked or is back at the start. */
  predicate Ends(cells: seq<seq<Cell>>, start: Coord, k: nat)
  {
    Trail(cells, start, k).Panic? || (Trail(cells, start, k).Ok? && AtStart(start, Trail(cells, start, k).value))
  }

  lemma StopsOnce(cells: seq<seq<Cell>>, start: Coord, k: nat, k': nat)
    requires StopsAt(cells, start, k)
    ensures StopsAt(cells, start, k') ==> k == k'
    ensures !PanicsAt(cells, start, k')
  {
  }

  /** The positions the walk passes in its first k turns, with the start:
      the `visited` set of `clear_junk`. */
  ghost function Loop(cells: seq<seq<Cell>>, start: Coord, k: nat): set<Coord>
  {
    {start} + set j | 0 <= j < k && Trail(cells, start, j).Ok? :: Trail(cells, start, j).value.cur.position
  }

  /** One turn of the walk, spelled out. */
  lemma TrailNext(cells: seq<seq<Cell>>, start: Coord, k: nat, next: Coord)
    requires Trail(cells, start, k).Ok? && NextFrom(Trail(cells, start, k).value.cur, Trail(cells, start, k).value.prev) == Ok(next)
    requires PipeAt(cells, next).Ok?
    ensures Trail(cells, start, k + 1) == Ok(State(Trail(cells, start, k).value.cur, PipeAt(cells, next).value))
  {
  }

  /** The walk has neither panicked nor come back in its first k turns. */
  predicate Ongoing(cells: seq<seq<Cell>>, start: Coord, k: nat)
  {
    forall j :: 0 <= j < k ==> Trail(cells, start, j).Ok? && !AtStart(start, Trail(cells, start, j).value)
  }

  /** One more turn of a walk that has not come back. */
  lemma WalkOn(cells: seq<seq<Cell>>, start: Coord, k: nat)
    requires Ongoing(cells, start, k) && Trail(cells, start, k).Ok? && !AtStart(start, Trail(cells, start, k).value)
    ensures Ongoing(cells, start, k + 1)
    ensures Loop(cells, start, k + 1) == Loop(cells, start, k) + {Trail(cells, start, k).value.cur.position}
  {
  }

  /** Row y with every cell whose position is not kept made empty. */
  function ClearedRow(row: seq<Cell>, y: nat, keep: set<Coord>): (r: seq<Cell>)
    ensures |r| == |row|
  {
    seq(|row|, x requires 0 <= x < |row| => if Day10a.Coord(x, y) in keep then row[x] else Empty)
  }

  /** The grid with every cell whose position is not kept made empty. */
  function Cleared(cells: seq<seq<Cell>>, keep: set<Coord>): (r: seq<seq<Cell>>)
    ensures |r| == |cells| && forall y :: 0 <= y < |cells| ==> r[y] == ClearedRow(cells[y], y, keep)
  {
    seq(|cells|, y requires 0 <= y < |cells| => ClearedRow(cells[y], y, keep))
  }

  /** After clearing, a cell is empty unless its position is kept, and the
      kept cells are unchanged. */
  lemma ClearedCells(cells: seq<seq<Cell>>, keep: set<Coord>, c: Coord)
    ensures OnBoard(Cleared(cells, keep), c) <==> OnBoard(cells, c)
    ensures OnBoard(cells, c) && c in keep ==> Cleared(cells, keep)[c.y][c.x] == cells[c.y][c.x]
    ensures OnBoard(cells, c) && c !in keep ==> Cleared(cells, keep)[c.y][c.x] == Empty
  {
  }

  /** The walk of `clear_junk`, which collects the positions it passes. */
  method WalkLoop(cells: seq<seq<Cell>>, start: Coord, ghost bound: nat) returns (r: Result<set<Coord>>, ghost k: nat)
    requires Halts(cells, start, bound)
    ensures r.Panic? ==> PanicsAt(cells, start, k)
    ensures r.Ok? ==> StopsAt(cells, start, k) && r.value == Loop(cells, start, k)
  {
    ghost var stop :| 0 <= stop <= bound && Ends(cells, start, stop);
    k := 0;
    var first := PipeAt(cells, start);
    if first.Panic? {
      return Panic, k;
    }
    var prev := first.value;
    var second := PipeAt(cells, prev.first);
    if second.Panic? {
      return Panic, k;
    }
    var cur := second.value;
    var visited: set<Coord> := {start};
    while cur.position != start
      invariant k <= stop && Trail(cells, start, k) == Ok(State(prev, cur))
      invariant Ongoing(cells, start, k)
      invariant visited == Loop(cells, start, k)
      decreases stop - k
    {
      WalkOn(cells, start, k);
      assert k < stop;
      visited := visited + {cur.position};
      var next_coord := NextFrom(cur, prev);
      if next_coord.Panic? {
        assert Trail(cells, start, k + 1).Panic?;
        return Panic, k + 1;
      }
      prev := cur;
      var next := PipeAt(cells, next_coord.value);
      if next.Panic? {
        assert Trail(cells, start, k + 1).Panic?;
        return Panic, k + 1;
      }
      TrailNext(cells, start, k, next_coord.value);
      cur := next.value;
      k := k + 1;
    }
    r := Ok(visited);
  }

  /** The loop of `from_input` over the start's eight neighbours, keeping
      the positions of the pipes there that connect back to the start. */
  method StartConnections(cells: seq<seq<Cell>>, start: Coord) returns (r: Result<seq<Coord>>)
    ensures r == Connected(cells, start, NeighboursOf(start))
  {
    var neighbors := Neighbours(start);
    var start_connected: seq<Coord> := [];
    PrependNothing(Connected(cells, start, neighbors));
    for k := 0 to |neighbors|
      invariant Connected(cells, start, neighbors) == Prepend(start_connected, Connected(cells, start, neighbors[k..]))
    {
      var coord := neighbors[k];
      assert neighbors[k..][1..] == neighbors[k + 1..];
      if !Day10a.IsValid(coord) {
        continue;
      }
      if coord.y >= |cells| || coord.x >= |cells[coord.y]| {
        return Panic;
      }
      if cells[coord.y][coord.x].PipeCell? {
        var pipe := cells[coord.y][coord.x].pipe;
        if IsConnectedTo(pipe, start) {
          PrependTwice(start_connected, [pipe.position], Connected(cells, start, neighbors[k + 1..]));
          start_connected := start_connected + [pipe.position];
        }
      }
    }
    r := Ok(start_connected);
    assert Connected(cells, start, neighbors[|neighbors|..]) == Ok([]);
    assert start_connected + [] == start_connected;
  }

  /** `Field::from_input`. */
  method FromInput(lines: seq<string>) returns (r: Result<Field>)
    ensures r.Ok? <==> Build(lines).Ok?
    ensures r.Ok? ==> fresh(r.value) && (r.value.inner, r.value.start) == Build(lines).value
  {
    var cells := ParseCells(lines);
    if cells.Panic? {
      return Panic;
    }
    var field := cells.value;
    var start := Day10a.StartOf(lines);
    var start_connected := StartConnections(field, start);
    if start_connected.Panic? || |start_connected.value| != 2 || !OnBoard(field, start) {
      return Panic;
    }
    var connected := start_connected.value;
    field := field[start.y := field[start.y][start.x := PipeCell(Pipe('S', start, connected[0], connected[1]))]];
    var f := new Field(field, start);
    r := Ok(f);
  }

  /** A built grid keeps every pipe at its own position. */
  lemma BuildWellPlaced(lines: seq<string>)
    requires Build(lines).Ok?
    ensures WellPlaced(Build(lines).value.0)
  {
    var parsed := ParseCells(lines).value;
    var start := Day10a.StartOf(lines);
    var connected := Connected(parsed, start, NeighboursOf(start)).value;
    assert WellPlaced(parsed);
    PutPlaced(parsed, Pipe('S', start, connected[0], connected[1]));
  }

  /** Putting a pipe in at its own position keeps the grid well placed. */
  lemma PutPlaced(cells: seq<seq<Cell>>, p: Pipe)
    requires WellPlaced(cells) && OnBoard(cells, p.position)
    ensures WellPlaced(cells[p.position.y := cells[p.position.y][p.position.x := PipeCell(p)]])
  {
    var c := p.position;
    var after: seq<seq<Cell>> := cells[c.y := cells[c.y][c.x := PipeCell(p)]];
    forall y: nat, x: nat | y < |after| && x < |after[y]| && after[y][x].PipeCell?
      ensures after[y][x].pipe.position == Day10a.Coord(x, y)
    {
      if y != c.y || x != c.x {
        assert after[y][x] == cells[y][x];
      }
    }
  }

  /** In a well-placed grid the pipe found at c sits at c. */
  lemma PipeAtPlaced(cells: seq<seq<Cell>>, c: Coord)
    requires WellPlaced(cells) && PipeAt(cells, c).Ok?
    ensures PipeAt(cells, c).value.position == c
  {
    assert OnBoard(cells, c);
    assert cells[c.y][c.x].PipeCell?;
  }

  /** Marking empty cells leaves every pipe where it was. */
  lemma MarksKeepPipes(before: seq<seq<Cell>>, after: seq<seq<Cell>>, c: Coord)
    requires Marks(before, after)
    ensures PipeAt(after, c) == PipeAt(before, c)
  {
    if OnBoard(before, c) {
      assert OnBoard(after, c);
    }
  }

  lemma MarksTransitive(a: seq<seq<Cell>>, b: seq<seq<Cell>>, c: seq<seq<Cell>>)
    requires Marks(a, b) && Marks(b, c)
    ensures Marks(a, c)
  {
  }

  lemma MarksReflexive(a: seq<seq<Cell>>)
    ensures Marks(a, a)
  {
  }

  /** Clearing what is off the loop does not change the walk: every pipe
      it visits is on the loop. */
  lemma {:induction false} TrailSurvives(cells: seq<seq<Cell>>, start: Coord, k: nat, j: nat)
    requires WellPlaced(cells) && StopsAt(cells, start, k) && j <= k
    ensures Trail(Cleared(cells, Loop(cells, start, k)), start, j) == Trail(cells, start, j)
  {
    var keep := Loop(cells, start, k);
    var cleared := Cleared(cells, keep);
    var s := Trail(cells, start, j).value;
    assert s.cur.position in keep by {
      if j < k {
        assert Trail(cells, start, j).Ok?;
      }
    }
    if j == 0 {
      KeptPipe(cells, keep, start);
      var first := PipeAt(cells, start).value;
      PipeAtPlaced(cells, first.first);
      KeptPipe(cells, keep, first.first);
    } else {
      TrailSurvives(cells, start, k, j - 1);
      var next := NextFrom(Trail(cells, start, j - 1).value.cur, Trail(cells, start, j - 1).value.prev).value;
      PipeAtPlaced(cells, next);
      KeptPipe(cells, keep, next);
    }
  }

  /** The pipes on kept positions survive the clearing. */
  lemma KeptPipe(cells: seq<seq<Cell>>, keep: set<Coord>, c: Coord)
    requires c in keep
    ensures PipeAt(Cleared(cells, keep), c) == PipeAt(cells, c)
  {
    ClearedCells(cells, keep, c);
  }

  /** A walk that comes back on the grid comes back, in as many turns, on
      the cleared grid. */
  lemma ClearedStops(cells: seq<seq<Cell>>, start: Coord, k: nat)
    requires WellPlaced(cells) && StopsAt(cells, start, k)
    ensures StopsAt(Cleared(cells, Loop(cells, start, k)), start, k)
  {
    var cleared := Cleared(cells, Loop(cells, start, k));
    forall j | 0 <= j <= k
      ensures Trail(cleared, start, j) == Trail(cells, start, j)
    {
      TrailSurvives(cells, start, k, j);
    }
  }

  /** A walk that comes back after k turns and is not back after j ≤ k
      turns has another turn to take. */
  lemma WalkAhead(cells: seq<seq<Cell>>, start: Coord, k: nat, j: nat)
    requires StopsAt(cells, start, k) && j <= k && Trail(cells, start, j).Ok? && !AtStart(start, Trail(cells, start, j).value)
    ensures j < k && Trail(cells, start, j + 1).Ok?
  {
    if j + 1 < k {
      assert Trail(cells, start, j + 1).Ok?;
    }
  }

  /** `delta_right` of `solution`: the neighbour to the right of a move in
      direction `dir`. */
  function DeltaRight(dir: Coord): Coord
  {
    if dir.x == 0 then Day10a.Coord(-dir.y, dir.x) else Day10a.Coord(dir.y, dir.x)
  }

  /** For the four unit moves `delta_right` is the quarter turn clockwise
      (with y growing downwards): right of up is right, right of right is
      down, and so on. */
  lemma DeltaRightTurns(dir: Coord)
    requires (dir.x == 0 && (dir.y == 1 || dir.y == -1)) || (dir.y == 0 && (dir.x == 1 || dir.x == -1))
    ensures DeltaRight(dir) == Day10a.Coord(-dir.y, dir.x)
    ensures DeltaRight(DeltaRight(DeltaRight(DeltaRight(dir)))) == dir
  {
  }

  lemma Disjoint(a: set<Coord>, b: set<Coord>)
    requires a !! b
    ensures |a + b| == |a| + |b|
  {
  }

  /** The cells a search turned from empty to visited. */
  ghost function Filled(before: seq<seq<Cell>>, after: seq<seq<Cell>>): set<Coord>
  {
    EmptyCells(before) - EmptyCells(after)
  }

  /** A tally kept by `solution`: None once a search on that side reached
      the edge, otherwise the number of cells its searches filled. */
  ghost predicate Tally(t: Option<nat>, counted: set<Coord>, cleared: seq<seq<Cell>>, now: seq<seq<Cell>>)
  {
    t.Some? ==> t.value == |counted| && counted <= Filled(cleared, now)
  }

  /** One more search on one side: a search that stays on the board adds
      the cells it filled, which no earlier search had filled. */
  lemma TallyStep(t: Option<nat>, counted: set<Coord>, other: set<Coord>, cleared: seq<seq<Cell>>,
                  was: seq<seq<Cell>>, now: seq<seq<Cell>>, v: nat)
    requires Marks(cleared, was) && Marks(was, now) && v == |Filled(was, now)|
    requires Tally(t, counted, cleared, was) && other <= Filled(cleared, was) && t.Some?
    ensures Tally(Some(t.value + v), counted + Filled(was, now), cleared, now)
    ensures other <= Filled(cleared, now) && counted + Filled(was, now) !! other - counted
    ensures Filled(was, now) !! counted
  {
    MarksShrink(cleared, was);
    MarksShrink(was, now);
    MarksTransitive(cleared, was, now);
    Disjoint(counted, Filled(was, now));
  }

  /** Marks never lose filled cells. */
  lemma FilledGrows(cleared: seq<seq<Cell>>, was: seq<seq<Cell>>, now: seq<seq<Cell>>)
    requires Marks(was, now)
    ensures Filled(cleared, was) <= Filled(cleared, now)
  {
    MarksShrink(was, now);
  }

  /** Rust's `solution`: the board is built and cleared, then the loop is
      walked once more; at each pipe a search is run on its right and on
      its left, as long as that side has not yet reached the edge. The
      answer is the right-hand tally if it survived, else the left-hand
      one. `k` is the length of the walk, `right` and `left` the final
      tallies and `rc`, `lc` the cells they count. */
  method Solution(lines: seq<string>, ghost bound: nat)
    returns (r: Result<nat>, ghost k: nat, ghost right: Option<nat>, ghost left: Option<nat>, ghost rc: set<Coord>, ghost lc: set<Coord>)
    requires Build(lines).Ok? ==> Halts(Build(lines).value.0, Build(lines).value.1, bound)
    ensures r.Ok? ==> Build(lines).Ok? && StopsAt(Build(lines).value.0, Build(lines).value.1, k)
    ensures r.Panic? ==> Build(lines).Panic? || PanicsAt(Build(lines).value.0, Build(lines).value.1, k) || (right.None? && left.None?)
    ensures r.Ok? ==> (right.Some? || left.Some?) && r.value == (if right.Some? then right.value else left.value)
    ensures r.Ok? ==> var (cells, start) := Build(lines).value;
      && var cleared := Cleared(cells, Loop(cells, start, k));
      && (right.Some? ==> right.value == |rc| && rc <= EmptyCells(cleared))
      && (left.Some? ==> left.value == |lc| && lc <= EmptyCells(cleared))
      && rc !! lc
  {
    right, left, rc, lc := None, None, {}, {};
    k := 0;
    var built := FromInput(lines);
    if built.Panic? {
      return Panic, k, right, left, rc, lc;
    }
    var field := built.value;
    ghost var cells := field.inner;
    BuildWellPlaced(lines);
    var cleared_ok;
    cleared_ok, k := field.ClearJunk(bound);
    if cleared_ok.Panic? {
      return Panic, k, right, left, rc, lc;
    }
    ghost var cleared := field.inner;
    var start := field.start;
    ClearedStops(cells, start, k);
    r, right, left, rc, lc := Tallies(field, k);
  }

  /** One side's search at one pipe of the walk: a tally that is still
      open is extended by the cells the search fills, or closed when it
      reaches the edge. */
  method SearchSide(field: Field, ghost cleared: seq<seq<Cell>>, t: Option<nat>, ghost counted: set<Coord>, ghost other: set<Coord>, from: Coord)
    returns (t': Option<nat>, ghost counted': set<Coord>)
    requires Marks(cleared, field.inner) && Tally(t, counted, cleared, field.inner)
    requires counted <= Filled(cleared, field.inner) && other <= Filled(cleared, field.inner) && counted !! other
    modifies field
    ensures field.start == old(field.start) && Marks(cleared, field.inner) && Marks(old(field.inner), field.inner)
    ensures Tally(t', counted', cleared, field.inner) && (t.None? ==> t'.None?)
    ensures counted' <= Filled(cleared, field.inner) && other <= Filled(cleared, field.inner) && counted' !! other
    ensures t'.Some? ==> counted' == counted + Filled(old(field.inner), field.inner)
    ensures t.Some? ==> Linked(old(field.inner), field.inner, from)
    ensures t.None? ==> field.inner == old(field.inner)
  {
    t', counted' := t, counted;
    if t.Some? {
      ghost var was := field.inner;
      var visited := field.SearchFrom(from);
      MarksTransitive(cleared, was, field.inner);
      FilledGrows(cleared, was, field.inner);
      if visited.Some? {
        TallyStep(t, counted, other, cleared, was, field.inner, visited.value);
        counted' := counted + Filled(was, field.inner);
        t' := Some(t.value + visited.value);
      } else {
        t' := None;
      }
    } else {
      MarksReflexive(field.inner);
    }
  }

  /** The second walk of `solution` with its two tallies. */
  method Tallies(field: Field, ghost k: nat)
    returns (r: Result<nat>, ghost right: Option<nat>, ghost left: Option<nat>, ghost rc: set<Coord>, ghost lc: set<Coord>)
    requires StopsAt(field.inner, field.start, k)
    modifies field
    ensures r.Ok? ==> (right.Some? || left.Some?) && r.value == (if right.Some? then right.value else left.value)
    ensures r.Panic? ==> right.None? && left.None?
    ensures right.Some? ==> right.value == |rc| && rc <= EmptyCells(old(field.inner))
    ensures left.Some? ==> left.value == |lc| && lc <= EmptyCells(old(field.inner))
    ensures rc !! lc && rc + lc <= Filled(old(field.inner), field.inner)
  {
    ghost var cleared := field.inner;
    var start := field.start;
    var contained_right: Option<nat> := Some(0);
    var contained_left: Option<nat> := Some(0);
    rc, lc := {}, {};
    MarksReflexive(cleared);
    assert Trail(cleared, start, 0).Ok?;
    var prev := PipeAt(field.inner, start).value;
    var cur := PipeAt(field.inner, prev.first).value;
    ghost var j := 0;
    while cur.position != start
      invariant field.start == start && Marks(cleared, field.inner)
      invariant j <= k && Trail(cleared, start, j) == Ok(State(prev, cur))
      invariant Tally(contained_right, rc, cleared, field.inner) && Tally(contained_left, lc, cleared, field.inner)
      invariant rc <= Filled(cleared, field.inner) && lc <= Filled(cleared, field.inner) && rc !! lc
      decreases k - j
    {
      var dir := Day10a.Plus(cur.position, -prev.position.x, -prev.position.y);
      var delta_right := DeltaRight(dir);
      var right_neighbor := Day10a.Plus(cur.position, delta_right.x, delta_right.y);
      contained_right, rc := SearchSide(field, cleared, contained_right, rc, lc, right_neighbor);
      var left_neighbor := Day10a.Plus(cur.position, -delta_right.x, -delta_right.y);
      contained_left, lc := SearchSide(field, cleared, contained_left, lc, rc, left_neighbor);
      WalkAhead(cleared, start, k, j);
      var next_coord := NextFrom(cur, prev).value;
      MarksKeepPipes(cleared, field.inner, next_coord);
      prev := cur;
      cur := PipeAt(field.inner, next_coord).value;
      j := j + 1;
    }
    right, left := contained_right, contained_left;
    if contained_right.Some? {
      r := Ok(contained_right.value);
    } else if contained_left.Some? {
      r := Ok(contained_left.value);
    } else {
      r := Panic;
    }
  }
}
