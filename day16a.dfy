/** Day 16, part one: a beam of light enters the contraption at the top-left
    cell heading East and is traced through empty space, mirrors and
    splitters; the answer is the number of energized cells. */
module Day16a {
  import opened Common

  /** The contraption, one row per input line (rows may differ in length). */
  type Board = seq<seq<char>>

  /** A (row, col) position; negative values are off the board. */
  datatype Coord = Coord(row: int, col: int)

  datatype Dir = North | East | South | West

  /** A beam front: the cell it is in and the direction it is going. */
  datatype Beam = Beam(at: Coord, dir: Dir)

  predicate OnBoard(board: Board, c: Coord)
  {
    0 <= c.row < |board| && 0 <= c.col < |board[c.row]|
  }

  /** `Board::get`: the tile at a coordinate, or None for a negative or
      off-grid one. */
  function Get(board: Board, c: Coord): (r: Option<char>)
    ensures r.Some? <==> OnBoard(board, c)
    ensures r.Some? ==> r.value == board[c.row][c.col]
  {
    if c.row < 0 || c.col < 0 then None
    else if c.row < |board| && c.col < |board[c.row]| then Some(board[c.row][c.col])
    else None
  }

  function Opposite(d: Dir): Dir
  {
    match d
    case North => South
    case East => West
    case South => North
    case West => East
  }

  predicate Vertical(d: Dir)
  {
    d == North || d == South
  }

  /** `Coord + Dir`: the neighbouring cell in that direction (North is one
      row up, East one column right). */
  function Add(c: Coord, d: Dir): (r: Coord)
    ensures Vertical(d) ==> r.col == c.col && (r.row == c.row - 1 <==> d == North) && (r.row == c.row + 1 <==> d == South)
    ensures !Vertical(d) ==> r.row == c.row && (r.col == c.col + 1 <==> d == East) && (r.col == c.col - 1 <==> d == West)
  {
    match d
    case North => Coord(c.row - 1, c.col)
    case East => Coord(c.row, c.col + 1)
    case South => Coord(c.row + 1, c.col)
    case West => Coord(c.row, c.col - 1)
  }

  /** Stepping back the other way returns to the same cell. */
  lemma AddOpposite(c: Coord, d: Dir)
    ensures Add(Add(c, d), Opposite(d)) == c
  {
  }

  /** What a tile does to a beam: the direction the beam goes on in, and for
      a splitter met side-on, the direction of the extra beam it spawns. */
  datatype Turn = Turn(dir: Dir, fork: Option<Dir>)

  /** The tiles the tracer knows. */
  predicate Known(ch: char)
  {
    ch == '.' || ch == '/' || ch == '\\' || ch == '-' || ch == '|'
  }

  /** The `match (char, &dir)` of the tracer: any other tile panics. */
  function Deflect(ch: char, d: Dir): (r: Result<Turn>)
    ensures r.Ok? <==> Known(ch)
  {
    if ch == '.' then Ok(Turn(d, None))
    else if ch == '/' then
      Ok(Turn(match d case North => East case East => North case South => West case West => South, None))
    else if ch == '\\' then
      Ok(Turn(match d case North => West case East => South case South => East case West => North, None))
    else if ch == '-' then
      if Vertical(d) then Ok(Turn(East, Some(West))) else Ok(Turn(d, None))
    else if ch == '|' then
      if Vertical(d) then Ok(Turn(d, None)) else Ok(Turn(North, Some(South)))
    else Panic
  }

  /** Empty space never changes a beam, and only a splitter spawns a beam. */
  lemma DeflectKeeps(ch: char, d: Dir)
    requires Known(ch)
    ensures ch == '.' ==> Deflect(ch, d) == Ok(Turn(d, None))
    ensures Deflect(ch, d).value.fork.Some? ==> ch == '-' || ch == '|'
  {
  }

  /** A mirror turns a beam by a quarter, and light paths through it are
      reversible: a beam sent back the way it left comes out the way the
      first one came in. */
  lemma MirrorReversible(ch: char, d: Dir)
    requires ch == '/' || ch == '\\'
    ensures Deflect(ch, d).value.fork == None
    ensures Vertical(Deflect(ch, d).value.dir) != Vertical(d)
    ensures Deflect(ch, Opposite(Deflect(ch, d).value.dir)).value.dir == Opposite(d)
  {
  }

  /** A splitter lets a beam along its axis through; a beam across it is
      split into the two directions of the axis. */
  lemma SplitterSplits(ch: char, d: Dir)
    requires ch == '-' || ch == '|'
    ensures var t := Deflect(ch, d).value;
      (t.fork.Some? <==> (Vertical(d) <==> ch == '-'))
      && (t.fork.None? ==> t.dir == d)
      && (t.fork.Some? ==> t.fork.value == Opposite(t.dir) && (Vertical(t.dir) <==> ch == '|'))
  {
  }

  /** A tile the tracer panics on. */
  predicate Broken(board: Board, b: Beam)
  {
    OnBoard(board, b.at) && !Known(board[b.at.row][b.at.col])
  }

  /** The beams that leave the tile under `b`: the one going on, then the
      spawned one starting in the neighbouring cell; none when `b` is off the
      board or its tile panics. */
  function Successors(board: Board, b: Beam): (r: seq<Beam>)
    ensures r != [] <==> OnBoard(board, b.at) && !Broken(board, b)
  {
    match Get(board, b.at)
    case None => []
    case Some(ch) =>
      match Deflect(ch, b.dir)
      case Panic => []
      case Ok(t) =>
        [Beam(Add(b.at, t.dir), t.dir)] + if t.fork.Some? then [Beam(Add(b.at, t.fork.value), t.fork.value)] else []
  }

  /** A vertical splitter met side-on sends beams up and down. */
  lemma SplitExample()
    ensures Successors(["|"], Beam(Coord(0, 0), East)) == [Beam(Coord(-1, 0), North), Beam(Coord(1, 0), South)]
  {
  }

  /** A sequence of beam fronts, each leaving the tile under the one before. */
  ghost predicate Path(board: Board, p: seq<Beam>)
  {
    |p| >= 1 && forall i :: 0 <= i < |p| - 1 ==> p[i + 1] in Successors(board, p[i])
  }

  ghost predicate Reaches(board: Board, start: Beam, b: Beam)
  {
    exists p :: Path(board, p) && p[0] == start && p[|p| - 1] == b
  }

  /** The on-board cells. */
  function Cells(board: Board): set<Coord>
  {
    set i, j | 0 <= i < |board| && 0 <= j < |board[i]| :: Coord(i, j)
  }

  /** The pairs of the given cells with one direction. */
  function Facing(cells: set<Coord>, d: Dir): set<Beam>
  {
    set c | c in cells :: Beam(c, d)
  }

  /** The on-board (cell, direction) pairs. */
  function Keys(board: Board): set<Beam>
  {
    var cells := Cells(board);
    Facing(cells, North) + Facing(cells, East) + Facing(cells, South) + Facing(cells, West)
  }

  /** The (cell, direction) pairs a beam entering as `start` passes
      through. */
  ghost function Lit(board: Board, start: Beam): set<Beam>
  {
    set b | b in Keys(board) && Reaches(board, start, b)
  }

  /** The distinct cells of some (cell, direction) pairs. */
  function CellsOf(s: set<Beam>): set<Coord>
  {
    set b | b in s :: b.at
  }

  /** The number of energized cells: the answer to the puzzle. */
  ghost function Energized(board: Board, start: Beam): nat
  {
    |CellsOf(Lit(board, start))|
  }

  /** Whether a beam entering as `start` meets a tile the tracer panics on. */
  ghost predicate Jams(board: Board, start: Beam)
  {
    exists b :: b in Lit(board, start) && Broken(board, b)
  }

  lemma InKeys(board: Board, b: Beam)
    requires OnBoard(board, b.at)
    ensures b in Keys(board)
  {
    assert b.at == Coord(b.at.row, b.at.col);
    assert b.at in Cells(board);
    assert b == Beam(b.at, b.dir);
    assert b in Facing(Cells(board), b.dir);
    match b.dir
    case North =>
    case East =>
    case South =>
    case West =>
  }

  /** A path extended by one more beam front. */
  lemma ReachesNext(board: Board, start: Beam, b: Beam, s: Beam)
    requires Reaches(board, start, b) && s in Successors(board, b)
    ensures Reaches(board, start, s)
  {
    var p :| Path(board, p) && p[0] == start && p[|p| - 1] == b;
    var q := p + [s];
    forall i | 0 <= i < |q| - 1
      ensures q[i + 1] in Successors(board, q[i])
    {
      if i + 1 < |p| {
        assert q[i] == p[i] && q[i + 1] == p[i + 1];
      } else {
        assert q[i] == b && q[i + 1] == s;
      }
    }
    assert Path(board, q);
  }

  lemma ReachesStart(board: Board, start: Beam)
    ensures Reaches(board, start, start)
  {
    assert Path(board, [start]);
  }

  /** The bookkeeping of the tracer, with `pending` the beams still to be
      followed: every pair seen is reachable and does not panic, every
      pending beam is reachable, the entry is seen or pending (or off the
      board), and each successor of a seen pair is seen, pending or off the
      board. */
  ghost predicate Tracing(board: Board, start: Beam, seen: set<Beam>, pending: seq<Beam>)
  {
    && seen <= Keys(board)
    && (forall k :: k in seen ==> Reaches(board, start, k) && !Broken(board, k))
    && (forall b :: b in pending ==> Reaches(board, start, b))
    && (start in seen || start in pending || !OnBoard(board, start.at))
    && (forall k, t :: k in seen && t in Successors(board, k) ==> t in seen || t in pending || !OnBoard(board, t.at))
  }

  lemma TracingStart(board: Board, start: Beam)
    ensures Tracing(board, start, {}, [start])
  {
    ReachesStart(board, start);
  }

  /** A beam front already seen is dropped. */
  lemma TracingSeen(board: Board, start: Beam, seen: set<Beam>, beams: seq<Beam>, b: Beam)
    requires Tracing(board, start, seen, beams + [b]) && b in seen
    ensures Tracing(board, start, seen, beams)
  {
    assert forall t :: t in beams + [b] ==> t in beams || t == b;
  }

  /** A beam front that leaves the board is dropped. */
  lemma TracingOff(board: Board, start: Beam, seen: set<Beam>, beams: seq<Beam>, b: Beam)
    requires Tracing(board, start, seen, beams + [b]) && !OnBoard(board, b.at)
    ensures Tracing(board, start, seen, beams)
  {
    assert forall t :: t in beams + [b] ==> t in beams || t == b;
  }

  /** Processing a new beam front on a known tile: it is marked seen, the
      beam goes on, and a spawned beam is pushed. */
  lemma TracingStep(board: Board, start: Beam, seen: set<Beam>, beams: seq<Beam>, b: Beam, t: Turn)
    requires Tracing(board, start, seen, beams + [b]) && OnBoard(board, b.at)
    requires Deflect(board[b.at.row][b.at.col], b.dir) == Ok(t)
    ensures var pushed := if t.fork.Some? then beams + [Beam(Add(b.at, t.fork.value), t.fork.value)] else beams;
      Tracing(board, start, seen + {b}, pushed + [Beam(Add(b.at, t.dir), t.dir)])
  {
    var pushed := if t.fork.Some? then beams + [Beam(Add(b.at, t.fork.value), t.fork.value)] else beams;
    var next := Beam(Add(b.at, t.dir), t.dir);
    var succ := Successors(board, b);
    assert succ == [next] + if t.fork.Some? then [Beam(Add(b.at, t.fork.value), t.fork.value)] else [];
    assert forall u :: u in succ ==> u in pushed + [next];
    assert forall u :: u in beams ==> u in pushed + [next];
    assert b in beams + [b];
    InKeys(board, b);
    forall u | u in succ
      ensures Reaches(board, start, u)
    {
      ReachesNext(board, start, b, u);
    }
  }

  /** A closed set of pairs holding the entry holds every front of a path
      from it. */
  lemma {:induction false} ClosedHoldsPath(board: Board, start: Beam, seen: set<Beam>, p: seq<Beam>, n: nat)
    requires Tracing(board, start, seen, [])
    requires Path(board, p) && p[0] == start && 1 <= n <= |p|
    ensures p[n - 1] in seen || !OnBoard(board, p[n - 1].at)
  {
    if n > 1 {
      ClosedHoldsPath(board, start, seen, p, n - 1);
      assert p[n - 1] in Successors(board, p[n - 2]);
    }
  }

  /** When nothing is pending, the seen pairs are exactly the lit ones. */
  lemma TracingDone(board: Board, start: Beam, seen: set<Beam>)
    requires Tracing(board, start, seen, [])
    ensures seen == Lit(board, start)
  {
    forall b | b in Lit(board, start)
      ensures b in seen
    {
      var p :| Path(board, p) && p[0] == start && p[|p| - 1] == b;
      ClosedHoldsPath(board, start, seen, p, |p|);
    }
  }

  /** Marking one more pair seen leaves one fewer unseen. */
  lemma FewerLeft(all: set<Beam>, seen: set<Beam>, k: Beam)
    requires k in all && k !in seen
    ensures |all - (seen + {k})| == |all - seen| - 1
  {
    assert all - (seen + {k}) == (all - seen) - {k};
  }

  lemma SubsetCard<T>(a: set<T>, b: set<T>)
    requires a <= b
    ensures |a| <= |b|
  {
    assert b == (b - a) + a;
    assert (b - a) * a == {};
  }

  /** The number of tiles: the lengths of the rows added up. */
  function CellCount(board: Board): nat
  {
    if board == [] then 0 else CellCount(board[..|board| - 1]) + |board[|board| - 1]|
  }

  function RowCells(i: int, w: nat): set<Coord>
  {
    set j | 0 <= j < w :: Coord(i, j)
  }

  lemma {:induction false} RowCellsCount(i: int, w: nat)
    ensures |RowCells(i, w)| == w
  {
    if w > 0 {
      RowCellsCount(i, w - 1);
      assert RowCells(i, w) == RowCells(i, w - 1) + {Coord(i, w - 1)};
    } else {
      assert RowCells(i, w) == {};
    }
  }

  /** There is one cell per tile. */
  lemma {:induction false} CellsCount(board: Board)
    ensures |Cells(board)| == CellCount(board)
    decreases |board|
  {
    if board != [] {
      var n := |board| - 1;
      var top := board[..n];
      CellsCount(top);
      RowCellsCount(n, |board[n]|);
      assert Cells(board) == Cells(top) + RowCells(n, |board[n]|);
      assert Cells(top) * RowCells(n, |board[n]|) == {};
    } else {
      assert Cells(board) == {};
    }
  }

  lemma {:induction false} FacingCount(cells: set<Coord>, d: Dir)
    ensures |Facing(cells, d)| == |cells|
    decreases |cells|
  {
    if cells != {} {
      var c :| c in cells;
      FacingCount(cells - {c}, d);
      assert Facing(cells, d) == Facing(cells - {c}, d) + {Beam(c, d)};
    } else {
      assert Facing(cells, d) == {};
    }
  }

  /** There are four (cell, direction) pairs per tile. */
  lemma KeysCount(board: Board)
    ensures |Keys(board)| == 4 * CellCount(board)
  {
    var cells := Cells(board);
    CellsCount(board);
    FacingCount(cells, North);
    FacingCount(cells, East);
    FacingCount(cells, South);
    FacingCount(cells, West);
    var n, e, so, w := Facing(cells, North), Facing(cells, East), Facing(cells, South), Facing(cells, West);
    assert n * e == {};
    assert (n + e) * so == {};
    assert (n + e + so) * w == {};
  }

  /** The energized cells are tiles of the board. */
  lemma EnergizedBound(board: Board, start: Beam)
    ensures Energized(board, start) <= CellCount(board)
  {
    CellsCount(board);
    var lit := Lit(board, start);
    assert CellsOf(lit) <= Cells(board);
    SubsetCard(CellsOf(lit), Cells(board));
  }

  /** At most four pairs per tile are lit. */
  lemma LitBound(board: Board, start: Beam)
    ensures |Lit(board, start)| <= 4 * CellCount(board)
  {
    KeysCount(board);
    SubsetCard(Lit(board, start), Keys(board));
  }

  /** The entry of part one: the top-left cell, heading East. */
  const Entry := Beam(Coord(0, 0), East)

  /** `Vec::pop`: the stack is what remains with the top pushed back. */
  lemma SplitLast<T>(s: seq<T>)
    requires s != []
    ensures s == s[..|s| - 1] + [s[|s| - 1]]
  {
  }

  /** The inner `while let` of the tracer: follows the beam front `b` until
      it leaves the board or reaches a pair already seen, marking the pairs
      it passes and pushing spawned beams; `jammed` when a tile panics. */
  method Follow(board: Board, ghost start: Beam, seen: set<Beam>, beams: seq<Beam>, b: Beam)
    returns (jammed: bool, illuminated: set<Beam>, rest: seq<Beam>, ghost processed: nat)
    requires Tracing(board, start, seen, beams + [b])
    ensures jammed ==> Jams(board, start)
    ensures !jammed ==> Tracing(board, start, illuminated, rest)
    ensures seen <= illuminated <= Keys(board) && processed == |illuminated| - |seen|
    ensures illuminated == seen ==> rest == beams
    ensures illuminated != seen ==> |Keys(board) - illuminated| < |Keys(board) - seen|
  {
    illuminated, rest := seen, beams;
    processed := 0;
    var coord, dir := b.at, b.dir;
    while Get(board, coord).Some?
      invariant Tracing(board, start, illuminated, rest + [Beam(coord, dir)])
      invariant seen <= illuminated && processed == |illuminated| - |seen|
      invariant illuminated == seen ==> rest == beams
      invariant |Keys(board) - illuminated| <= |Keys(board) - seen|
      invariant illuminated != seen ==> |Keys(board) - illuminated| < |Keys(board) - seen|
      decreases |Keys(board) - illuminated|
    {
      var key := Beam(coord, dir);
      if key in illuminated {
        TracingSeen(board, start, illuminated, rest, key);
        return false, illuminated, rest, processed;
      }
      InKeys(board, key);
      match Deflect(Get(board, coord).value, dir)
      case Panic =>
        assert key in rest + [key];
        assert key in Lit(board, start) && Broken(board, key);
        return true, illuminated, rest, processed;
      case Ok(t) =>
        TracingStep(board, start, illuminated, rest, key, t);
        FewerLeft(Keys(board), illuminated, key);
        illuminated := illuminated + {key};
        processed := processed + 1;
        if t.fork.Some? {
          rest := rest + [Beam(Add(coord, t.fork.value), t.fork.value)];
        }
        dir := t.dir;
        coord := Add(coord, dir);
    }
    TracingOff(board, start, illuminated, rest, Beam(coord, dir));
    jammed := false;
  }

  /** Rust's `solution`: beams are popped from a stack and followed until
      they leave the board or reach a (cell, direction) pair already seen;
      `steps` counts the tiles processed. */
  method Solution(board: Board) returns (r: Result<nat>, ghost steps: nat)
    ensures r.Panic? <==> Jams(board, Entry)
    ensures r.Ok? ==> r.value == Energized(board, Entry)
    ensures steps <= 4 * CellCount(board)
  {
    KeysCount(board);
    var illuminated: set<Beam> := {};
    var beams: seq<Beam> := [Entry];
    steps := 0;
    TracingStart(board, Entry);
    while beams != []
      invariant Tracing(board, Entry, illuminated, beams)
      invariant steps == |illuminated|
      decreases |Keys(board) - illuminated|, |beams|
    {
      var top := beams[|beams| - 1];
      SplitLast(beams);
      var jammed;
      ghost var processed;
      jammed, illuminated, beams, processed := Follow(board, Entry, illuminated, beams[..|beams| - 1], top);
      steps := steps + processed;
      if jammed {
        SubsetCard(illuminated, Keys(board));
        return Panic, steps;
      }
    }
    TracingDone(board, Entry, illuminated);
    SubsetCard(illuminated, Keys(board));
    r := Ok(|CellsOf(illuminated)|);
  }
}
