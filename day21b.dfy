/** Day 21, part two: the same garden map, now repeated without end in
    every direction, so a position off the map stands on the plot at its
    coordinates reduced modulo the map's size. The frontier is computed as
    in part one; the function then returns 0 instead of its size. */
module Day21b {
  import opened Common
  import opened Day21a

  /** Rust's `%` on `i32`: the remainder takes the sign of the dividend. */
  function Rem(a: int, n: int): (r: int)
    requires n > 0
    ensures a >= 0 ==> 0 <= r < n
    ensures a < 0 ==> -n < r <= 0
  {
    if a >= 0 then a % n else -((-a) % n)
  }

  /** The reduction in `Board::get`: the remainder, shifted up by `n` when
      negative. It is the remainder of floored division, so each coordinate
      lands on the one copy of the map at the origin. */
  function Wrap(a: int, n: int): (r: int)
    requires n > 0
    ensures 0 <= r < n && r == a % n
  {
    var r := Rem(a, n);
    WrapCases(a, n);
    if r < 0 then r + n else r
  }

  lemma WrapCases(a: int, n: int)
    requires n > 0
    ensures a < 0 && Rem(a, n) < 0 ==> Rem(a, n) + n == a % n
    ensures (a >= 0 || Rem(a, n) >= 0) ==> Rem(a, n) == a % n
  {
    if a < 0 {
      var b := -a;
      var q, t := b / n, b % n;
      assert b == q * n + t;
      if t == 0 {
        assert a == (-q) * n;
        DivModUnique(a, n, -q, 0);
      } else {
        assert a == (-q - 1) * n + (n - t);
        DivModUnique(a, n, -q - 1, n - t);
      }
    }
  }

  /** `Board::get`: the plot at the reduced coordinates. `size` reads the
      first row, so an empty map panics; a first row of width 0 divides by
      zero; and a reduced column past the end of a shorter row panics at the
      `unwrap`. */
  function Get(board: Board, c: Coord): Result<Plot>
  {
    if board.inner == [] || board.inner[0] == [] then Panic
    else
      var row := Wrap(c.row, |board.inner|);
      var col := Wrap(c.col, |board.inner[0]|);
      if col < |board.inner[row]| then Ok(board.inner[row][col]) else Panic
  }

  /** `get` panics exactly on an empty map, an empty first row, or a
      row shorter than the first at the reduced column; otherwise it reads
      the plot at the coordinates modulo the map's height and first row's
      width. */
  lemma GetPanics(board: Board, c: Coord)
    ensures Get(board, c).Panic? <==> (board.inner == [] || board.inner[0] == [] ||
      c.col % |board.inner[0]| >= |board.inner[c.row % |board.inner|]|)
    ensures Get(board, c).Ok? ==> Get(board, c).value == board.inner[c.row % |board.inner|][c.col % |board.inner[0]|]
  {
  }

  /** A map with rows all as wide as the first, which is not empty. */
  predicate Rectangular(board: Board)
  {
    board.inner != [] && board.inner[0] != [] && forall i :: 0 <= i < |board.inner| ==> |board.inner[i]| == |board.inner[0]|
  }

  /** On a rectangular map `get` never panics and reads the plot at the
      coordinates modulo the map's height and width. */
  lemma GetWraps(board: Board, c: Coord)
    requires Rectangular(board)
    ensures Get(board, c) == Ok(board.inner[c.row % |board.inner|][c.col % |board.inner[0]|])
  {
  }

  /** On the map itself `get` is the plain lookup. */
  lemma GetOnBoard(board: Board, c: Coord)
    requires 0 <= c.row < |board.inner| && 0 <= c.col < |board.inner[c.row]|
    requires board.inner[0] != [] && c.col < |board.inner[0]|
    ensures Get(board, c) == Ok(board.inner[c.row][c.col])
  {
    ModSmall(c.row, |board.inner|);
    ModSmall(c.col, |board.inner[0]|);
  }

  lemma ModSmall(a: int, n: int)
    requires 0 <= a < n
    ensures a % n == a
  {
    DivModUnique(a, n, 0, a);
  }

  lemma ModShift(a: int, n: int)
    requires n > 0
    ensures (a + n) % n == a % n
  {
    var q, t := a / n, a % n;
    assert a == q * n + t;
    assert a + n == (q + 1) * n + t;
    DivModUnique(a + n, n, q + 1, t);
  }

  /** `get` repeats with the map's height down the rows and with the first
      row's width along the columns, panics included. */
  lemma GetPeriodic(board: Board, c: Coord)
    ensures board.inner != [] ==> Get(board, Coord(c.row + |board.inner|, c.col)) == Get(board, c)
    ensures board.inner != [] && board.inner[0] != [] ==>
      Get(board, Coord(c.row, c.col + |board.inner[0]|)) == Get(board, c)
  {
    if board.inner != [] {
      ModShift(c.row, |board.inner|);
      if board.inner[0] != [] {
        ModShift(c.col, |board.inner[0]|);
      }
    }
  }

  /** Every lookup a step from `frontier` makes succeeds. */
  predicate Defined(board: Board, frontier: set<Coord>)
  {
    forall c, d :: c in frontier && d in Dirs ==> Get(board, Add(c, d)).Ok?
  }

  /** The garden positions next to the frontier. */
  function Moves(board: Board, frontier: set<Coord>): set<Coord>
  {
    set c, d | c in frontier && d in Dirs && Get(board, Add(c, d)) == Ok(Garden) :: Add(c, d)
  }

  /** One step of the frontier: every neighbour is looked up, and any
      lookup that panics ends the program. */
  function Step(board: Board, frontier: set<Coord>): Result<set<Coord>>
  {
    if Defined(board, frontier) then Ok(Moves(board, frontier)) else Panic
  }

  function Frontier(board: Board, k: nat): Result<set<Coord>>
  {
    if k == 0 then Ok({board.start})
    else
      match Frontier(board, k - 1)
      case Panic => Panic
      case Ok(f) => Step(board, f)
  }

  /** A step moves exactly to the positions next to the frontier whose
      plot in the repeated map is a garden, never onto a rock. */
  lemma StepExactly(board: Board, frontier: set<Coord>, q: Coord)
    requires Step(board, frontier).Ok?
    ensures q in Step(board, frontier).value <==> Get(board, q) == Ok(Garden) && exists p :: p in frontier && Adjacent(p, q)
  {
    if p :| p in frontier && Adjacent(p, q) {
      var d := if q.row < p.row then North else if q.row > p.row then South else if q.col > p.col then East else West;
      assert Add(p, d) == q;
    }
  }

  /** On a rectangular map the walk never panics. */
  lemma {:induction false} FrontierDefined(board: Board, k: nat)
    requires Rectangular(board)
    ensures Frontier(board, k).Ok?
  {
    if k > 0 {
      FrontierDefined(board, k - 1);
      var f := Frontier(board, k - 1).value;
      forall c, d | c in f && d in Dirs
        ensures Get(board, Add(c, d)).Ok?
      {
        GetWraps(board, Add(c, d));
      }
    }
  }

  /** The garden plots one step from `c`. */
  function Reached(board: Board, c: Coord): set<Coord>
  {
    set d | d in Dirs && Get(board, Add(c, d)) == Ok(Garden) :: Add(c, d)
  }

  /** The inner `for dir in [...]`: adds the garden plots next to `c`, or
      panics at the first lookup that does. */
  method Spread(board: Board, c: Coord, next: set<Coord>) returns (more: Result<set<Coord>>)
    ensures more.Panic? <==> exists d :: d in Dirs && Get(board, Add(c, d)).Panic?
    ensures more.Ok? ==> more.value == next + Reached(board, c)
  {
    var grown := next;
    for i := 0 to |Dirs|
      invariant grown == next + set k | 0 <= k < i && Get(board, Add(c, Dirs[k])) == Ok(Garden) :: Add(c, Dirs[k])
      invariant forall k :: 0 <= k < i ==> Get(board, Add(c, Dirs[k])).Ok?
    {
      var neighbor := Add(c, Dirs[i]);
      var plot := Get(board, neighbor);
      if plot.Panic? {
        return Panic;
      }
      if plot.value == Garden {
        grown := grown + {neighbor};
      }
    }
    more := Ok(grown);
  }

  lemma MovesJoin(board: Board, done: set<Coord>, c: Coord)
    ensures Moves(board, done + {c}) == Moves(board, done) + Reached(board, c)
  {
  }

  lemma DefinedJoin(board: Board, done: set<Coord>, c: Coord)
    ensures Defined(board, done + {c}) <==> Defined(board, done) && forall d :: d in Dirs ==> Get(board, Add(c, d)).Ok?
  {
  }

  /** One turn of `for i in 0..steps`. */
  method Advance(board: Board, frontier: set<Coord>) returns (next: Result<set<Coord>>)
    ensures next == Step(board, frontier)
  {
    var grown := {};
    var rest := frontier;
    assert frontier - rest == {};
    while rest != {}
      invariant rest <= frontier && Defined(board, frontier - rest) && grown == Moves(board, frontier - rest)
      decreases |rest|
    {
      var c :| c in rest;
      var more := Spread(board, c, grown);
      assert frontier - (rest - {c}) == (frontier - rest) + {c};
      DefinedJoin(board, frontier - rest, c);
      if more.Panic? {
        var d :| d in Dirs && Get(board, Add(c, d)).Panic?;
        assert c in frontier && !Defined(board, frontier);
        return Panic;
      }
      MovesJoin(board, frontier - rest, c);
      grown := more.value;
      rest := rest - {c};
    }
    assert frontier - rest == frontier;
    next := Ok(grown);
  }

  /** Once a step panics, so does the walk of any length past it. */
  lemma {:induction false} PanicSticks(board: Board, k: nat, n: nat)
    requires k <= n && Frontier(board, k).Panic?
    ensures Frontier(board, n).Panic?
    decreases n - k
  {
    if k < n {
      PanicSticks(board, k + 1, n);
    }
  }

  /** The frontier loop of `solution`. */
  method Walk(board: Board, steps: nat) returns (r: Result<set<Coord>>)
    ensures r == Frontier(board, steps)
  {
    var frontier := {board.start};
    for i := 0 to steps
      invariant Frontier(board, i) == Ok(frontier)
    {
      var next := Advance(board, frontier);
      if next.Panic? {
        PanicSticks(board, i + 1, steps);
        return Panic;
      }
      frontier := next.value;
    }
    r := Ok(frontier);
  }

  /** Rust's `solution` as written: it computes the frontier and then
      returns 0, so its answer says nothing about the frontier. */
  method Solution(lines: seq<string>, steps: nat) returns (r: Result<nat>)
    ensures r.Panic? <==> FromInput(lines).Panic? || Frontier(FromInput(lines).value, steps).Panic?
    ensures r.Ok? ==> r.value == 0
  {
    var parsed := FromInput(lines);
    if parsed.Panic? {
      return Panic;
    }
    var frontier := Walk(parsed.value, steps);
    if frontier.Panic? {
      return Panic;
    }
    r := Ok(0);
  }

  /** `solution` as evidently intended: the number of plots the frontier
      holds after `steps` steps, 1 with no steps. */
  method CountPlots(lines: seq<string>, steps: nat) returns (r: Result<nat>)
    ensures r.Panic? <==> FromInput(lines).Panic? || Frontier(FromInput(lines).value, steps).Panic?
    ensures r.Ok? ==> r.value == |Frontier(FromInput(lines).value, steps).value|
    ensures r.Ok? && steps == 0 ==> r.value == 1
  {
    var parsed := FromInput(lines);
    if parsed.Panic? {
      return Panic;
    }
    var frontier := Walk(parsed.value, steps);
    if frontier.Panic? {
      return Panic;
    }
    r := Ok(|frontier.value|);
  }

  /** The one-plot map `S`. */
  const Single := Board([[Garden]], Coord(0, 0))

  lemma SingleParsed()
    ensures FromInput(["S"]) == Ok(Single)
  {
    var board := FromInput(["S"]).value;
    assert board.start == Coord(0, 0) by {
      assert LastStart("S") == Some(0);
    }
    assert |board.inner| == 1;
    assert |board.inner[0]| == 1;
    assert board.inner[0][0] == Garden;
    assert board.inner[0] == [Garden];
    assert board.inner == [[Garden]];
  }

  /** Every position of the repeated one-plot map is a garden. */
  lemma SingleAllGarden(c: Coord)
    ensures Get(Single, c) == Ok(Garden)
  {
  }

  lemma SingleStep()
    ensures Step(Single, {Coord(0, 0)}) == Ok({Coord(-1, 0), Coord(0, 1), Coord(1, 0), Coord(0, -1)})
  {
    forall c: Coord
      ensures Get(Single, c) == Ok(Garden)
    {
      SingleAllGarden(c);
    }
    assert Defined(Single, {Coord(0, 0)});
    MovesJoin(Single, {}, Coord(0, 0));
    assert {} + {Coord(0, 0)} == {Coord(0, 0)};
    assert Moves(Single, {}) == {};
    assert Reached(Single, Coord(0, 0)) == {Coord(-1, 0), Coord(0, 1), Coord(1, 0), Coord(0, -1)} by {
      assert Add(Coord(0, 0), Dirs[0]) == Coord(-1, 0) && Add(Coord(0, 0), Dirs[1]) == Coord(0, 1);
      assert Add(Coord(0, 0), Dirs[2]) == Coord(1, 0) && Add(Coord(0, 0), Dirs[3]) == Coord(0, -1);
    }
    assert Moves(Single, {Coord(0, 0)}) == {Coord(-1, 0), Coord(0, 1), Coord(1, 0), Coord(0, -1)};
    assert Step(Single, {Coord(0, 0)}) == Ok(Moves(Single, {Coord(0, 0)}));
  }

  /** On the one-plot map `S`, every position is a garden: after one step
      the frontier holds the four neighbours of the start, while `solution`
      answers 0. */
  lemma OnePlotMap()
    ensures FromInput(["S"]).Ok?
    ensures Frontier(FromInput(["S"]).value, 1) == Ok({Coord(-1, 0), Coord(0, 1), Coord(1, 0), Coord(0, -1)})
    ensures |Frontier(FromInput(["S"]).value, 1).value| == 4
  {
    SingleParsed();
    SingleStep();
  }
}
