/** Day 21, part one: a board of garden plots and rocks with one starting
    plot. Each step every position of the frontier moves one plot North,
    East, South or West onto a garden plot of the board; the answer is how
    many plots the frontier holds after the given number of steps. */
module Day21a {
  import opened Common

  datatype Plot = Rock | Garden

  datatype Coord = Coord(row: int, col: int)

  datatype Dir = North | East | South | West

  /** The order `solution` tries the directions in. */
  const Dirs := [North, East, South, West]

  function Add(c: Coord, d: Dir): Coord
  {
    match d
    case North => Coord(c.row - 1, c.col)
    case East => Coord(c.row, c.col + 1)
    case South => Coord(c.row + 1, c.col)
    case West => Coord(c.row, c.col - 1)
  }

  /** The plots by row, and the starting plot. */
  datatype Board = Board(inner: seq<seq<Plot>>, start: Coord)

  /** One character of the map: `#` is a rock, `.` a garden plot and `S` the
      starting plot, which is a garden too; anything else panics. */
  predicate Symbol(c: char)
  {
    c == '#' || c == '.' || c == 'S'
  }

  /** The last position of `S` in a line, if any. */
  function LastStart(line: string): (r: Option<nat>)
    ensures r.None? <==> 'S' !in line
    ensures r.Some? ==> r.value < |line| && line[r.value] == 'S' && forall j :: r.value < j < |line| ==> line[j] != 'S'
  {
    if line == [] then None
    else if line[|line| - 1] == 'S' then Some(|line| - 1)
    else
      var r := LastStart(line[..|line| - 1]);
      assert forall j :: 0 <= j < |line| - 1 ==> line[..|line| - 1][j] == line[j];
      r
  }

  /** Position (i, j) comes after position (k, l) in reading order. */
  predicate Later(i: int, j: int, k: int, l: int)
  {
    i > k || (i == k && j > l)
  }

  /** The closure of `from_input` assigns `start` at every `S` it meets
      while reading the map row by row, so the last one wins; with none,
      the start stays at (0, 0). */
  function StartOf(lines: seq<string>): (r: Coord)
    ensures (forall i :: 0 <= i < |lines| ==> 'S' !in lines[i]) ==> r == Coord(0, 0)
    ensures (exists i :: 0 <= i < |lines| && 'S' in lines[i]) ==>
      && 0 <= r.row < |lines| && 0 <= r.col < |lines[r.row]| && lines[r.row][r.col] == 'S'
      && forall i, j :: 0 <= i < |lines| && 0 <= j < |lines[i]| && Later(i, j, r.row, r.col) ==> lines[i][j] != 'S'
  {
    if lines == [] then Coord(0, 0)
    else
      var last := |lines| - 1;
      match LastStart(lines[last])
      case Some(j) => Coord(last, j)
      case None =>
        var r := StartOf(lines[..last]);
        assert forall i :: 0 <= i < last ==> lines[..last][i] == lines[i];
        r
  }

  /** `Board::from_input`, over the lines of the input. */
  function FromInput(lines: seq<string>): (r: Result<Board>)
    ensures r.Ok? <==> forall i, j :: 0 <= i < |lines| && 0 <= j < |lines[i]| ==> Symbol(lines[i][j])
    ensures r.Ok? ==> r.value.start == StartOf(lines) && |r.value.inner| == |lines|
    ensures r.Ok? ==> forall i :: 0 <= i < |lines| ==> (|r.value.inner[i]| == |lines[i]| &&
      forall j :: 0 <= j < |lines[i]| ==> (r.value.inner[i][j] == Rock <==> lines[i][j] == '#'))
  {
    if forall i, j :: 0 <= i < |lines| && 0 <= j < |lines[i]| ==> Symbol(lines[i][j]) then
      Ok(Board(seq(|lines|, i requires 0 <= i < |lines| =>
        seq(|lines[i]|, j requires 0 <= j < |lines[i]| => if lines[i][j] == '#' then Rock else Garden)), StartOf(lines)))
    else Panic
  }

  /** `Board::get`: the plot, or None for a negative or off-board
      coordinate. */
  function Get(board: Board, c: Coord): (r: Option<Plot>)
    ensures r.Some? <==> 0 <= c.row < |board.inner| && 0 <= c.col < |board.inner[c.row]|
    ensures r.Some? ==> r.value == board.inner[c.row][c.col]
  {
    if c.row < 0 || c.col < 0 then None
    else if c.row < |board.inner| && c.col < |board.inner[c.row]| then Some(board.inner[c.row][c.col])
    else None
  }

  /** The garden plots one step from `c`. */
  function Reached(board: Board, c: Coord): set<Coord>
  {
    set d | d in Dirs && Get(board, Add(c, d)) == Some(Garden) :: Add(c, d)
  }

  /** One step of the whole frontier. */
  function Step(board: Board, frontier: set<Coord>): set<Coord>
  {
    set c, d | c in frontier && d in Dirs && Get(board, Add(c, d)) == Some(Garden) :: Add(c, d)
  }

  /** The frontier after k steps. */
  function Frontier(board: Board, k: nat): set<Coord>
  {
    if k == 0 then {board.start} else Step(board, Frontier(board, k - 1))
  }

  /** Orthogonal neighbours. */
  predicate Adjacent(p: Coord, q: Coord)
  {
    Distance(p, q) == 1
  }

  function Distance(p: Coord, q: Coord): nat
  {
    Abs(p.row - q.row) + Abs(p.col - q.col)
  }

  function Abs(x: int): nat
  {
    if x < 0 then -x else x
  }

  /** A step moves exactly to the garden plots of the board next to some
      position of the frontier. */
  lemma StepExactly(board: Board, frontier: set<Coord>, q: Coord)
    ensures q in Step(board, frontier) <==> Get(board, q) == Some(Garden) && exists p :: p in frontier && Adjacent(p, q)
  {
    if p :| p in frontier && Adjacent(p, q) {
      var d := if q.row < p.row then North else if q.row > p.row then South else if q.col > p.col then East else West;
      assert Add(p, d) == q;
    }
  }

  /** Stepping a larger frontier is stepping the parts and joining. */
  lemma StepJoin(board: Board, done: set<Coord>, c: Coord)
    ensures Step(board, done + {c}) == Step(board, done) + Reached(board, c)
  {
  }

  /** A step changes the distance to any fixed point by exactly one. */
  lemma DistanceStep(s: Coord, p: Coord, d: Dir)
    ensures Distance(s, Add(p, d)) == Distance(s, p) + 1 || Distance(s, Add(p, d)) + 1 == Distance(s, p)
  {
  }

  /** After k steps every position is at most k plots from the start, and
      its distance has the parity of k. */
  lemma {:induction false} FrontierWithin(board: Board, k: nat, q: Coord)
    requires q in Frontier(board, k)
    ensures Distance(board.start, q) <= k
    ensures (k - Distance(board.start, q)) % 2 == 0
  {
    if k > 0 {
      var p, d :| p in Frontier(board, k - 1) && d in Dirs && Get(board, Add(p, d)) == Some(Garden) && Add(p, d) == q;
      FrontierWithin(board, k - 1, p);
      DistanceStep(board.start, p, d);
      var gap := k - 1 - Distance(board.start, p);
      var now := k - Distance(board.start, q);
      assert now == gap || now == gap + 2;
      SameParity(gap, now);
    } else {
      assert q == board.start && Distance(q, q) == 0;
    }
  }

  lemma SameParity(gap: int, now: int)
    requires gap % 2 == 0 && (now == gap || now == gap + 2)
    ensures now % 2 == 0
  {
    assert gap == 2 * (gap / 2);
    if now == gap + 2 {
      assert now == 2 * (gap / 2 + 1);
    }
  }

  /** The inner `for dir in [...]`: adds the garden plots next to `c`. */
  method Spread(board: Board, c: Coord, next: set<Coord>) returns (more: set<Coord>)
    ensures more == next + Reached(board, c)
  {
    more := next;
    for i := 0 to |Dirs|
      invariant more == next + set k | 0 <= k < i && Get(board, Add(c, Dirs[k])) == Some(Garden) :: Add(c, Dirs[k])
    {
      var neighbor := Add(c, Dirs[i]);
      if Get(board, neighbor) == Some(Garden) {
        more := more + {neighbor};
      }
    }
  }

  /** One turn of `for _ in 0..steps`: builds `next_frontier` from every
      position of the frontier, in whatever order the set yields them. */
  method Advance(board: Board, frontier: set<Coord>) returns (next: set<Coord>)
    ensures next == Step(board, frontier)
  {
    next := {};
    var rest := frontier;
    while rest != {}
      invariant rest <= frontier && next == Step(board, frontier - rest)
      decreases |rest|
    {
      var c :| c in rest;
      StepJoin(board, frontier - rest, c);
      assert frontier - (rest - {c}) == (frontier - rest) + {c};
      next := Spread(board, c, next);
      rest := rest - {c};
    }
  }

  /** Rust's `solution`: the number of plots reachable in exactly `steps`
      steps. */
  method Solution(lines: seq<string>, steps: nat) returns (r: Result<nat>)
    ensures r.Panic? <==> FromInput(lines).Panic?
    ensures r.Ok? ==> r.value == |Frontier(FromInput(lines).value, steps)|
    ensures r.Ok? && steps == 0 ==> r.value == 1
  {
    var parsed := FromInput(lines);
    if parsed.Panic? {
      return Panic;
    }
    var board := parsed.value;
    var frontier := {board.start};
    for i := 0 to steps
      invariant frontier == Frontier(board, i)
    {
      frontier := Advance(board, frontier);
    }
    r := Ok(|frontier|);
  }
}
