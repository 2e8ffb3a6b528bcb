/** Day 10, part one: a grid of pipe pieces with one start cell S. The
    start is given the two neighbouring pipes that connect back to it, and
    the loop through it is walked once; the answer is half its length, the
    distance of the farthest pipe. */
module Day10a {
  import opened Common

  /** `Coord(x, y)`: column and row. */
  datatype Coord = Coord(x: int, y: int)

  /** `Coord + (dx, dy)`. */
  function Plus(c: Coord, dx: int, dy: int): Coord
  {
    Coord(c.x + dx, c.y + dy)
  }

  /** `is_valid`: neither coordinate is negative. */
  predicate IsValid(c: Coord)
  {
    c.x >= 0 && c.y >= 0
  }

  /** A pipe at `position` with its two connected cells (`connected[0]`
      and `connected[1]`). */
  datatype Pipe = Pipe(position: Coord, first: Coord, second: Coord)

  /** The connection table: which two cells a piece joins; `.` and `S`
      hold no pipe, and any other character is unreachable and panics. */
  function Connections(c: char, here: Coord): (r: Result<Option<(Coord, Coord)>>)
    ensures r.Ok? <==> c in ".S|-LJ7F"
    ensures r.Ok? && r.value.Some? <==> c in "|-LJ7F"
  {
    match c
    case '.' => Ok(None)
    case 'S' => Ok(None)
    case '|' => Ok(Some((Plus(here, 0, -1), Plus(here, 0, 1))))
    case '-' => Ok(Some((Plus(here, -1, 0), Plus(here, 1, 0))))
    case 'L' => Ok(Some((Plus(here, 0, -1), Plus(here, 1, 0))))
    case 'J' => Ok(Some((Plus(here, 0, -1), Plus(here, -1, 0))))
    case '7' => Ok(Some((Plus(here, -1, 0), Plus(here, 0, 1))))
    case 'F' => Ok(Some((Plus(here, 1, 0), Plus(here, 0, 1))))
    case _ => Panic
  }

  /** The four cells that share a side with `here`. */
  predicate Adjacent(here: Coord, c: Coord)
  {
    c in {Plus(here, 0, -1), Plus(here, 0, 1), Plus(here, -1, 0), Plus(here, 1, 0)}
  }

  /** Every piece joins two different cells that share a side with it, and
      the table is the one of the puzzle: `|` joins up and down, `-` left
      and right, `L` up and right, `J` up and left, `7` left and down, `F`
      right and down. */
  lemma ConnectionsAdjacent(c: char, here: Coord)
    requires c in "|-LJ7F"
    ensures var (a, b) := Connections(c, here).value.value;
      a != b && a != here && b != here && Adjacent(here, a) && Adjacent(here, b)
    ensures var (a, b) := Connections(c, here).value.value;
      && (c == '|' ==> {a, b} == {Plus(here, 0, -1), Plus(here, 0, 1)})
      && (c == '-' ==> {a, b} == {Plus(here, -1, 0), Plus(here, 1, 0)})
      && (c == 'L' ==> {a, b} == {Plus(here, 0, -1), Plus(here, 1, 0)})
      && (c == 'J' ==> {a, b} == {Plus(here, 0, -1), Plus(here, -1, 0)})
      && (c == '7' ==> {a, b} == {Plus(here, -1, 0), Plus(here, 0, 1)})
      && (c == 'F' ==> {a, b} == {Plus(here, 1, 0), Plus(here, 0, 1)})
  {
  }

  /** The cell at column x of row y, as the parse leaves it. */
  function CellAt(line: string, x: nat, y: nat): (r: Result<Option<Pipe>>)
    requires x < |line|
    ensures r.Ok? && r.value.Some? ==> r.value.value.position == Coord(x, y)
  {
    match Connections(line[x], Coord(x, y))
    case Panic => Panic
    case Ok(None) => Ok(None)
    case Ok(Some((a, b))) => Ok(Some(Pipe(Coord(x, y), a, b)))
  }

  /** One line of cells; an unknown character panics. */
  function ParseLine(line: string, y: nat): (r: Result<seq<Option<Pipe>>>)
    ensures r.Ok? <==> forall x :: 0 <= x < |line| ==> CellAt(line, x, y).Ok?
    ensures r.Ok? ==> |r.value| == |line| && forall x :: 0 <= x < |line| ==> r.value[x] == CellAt(line, x, y).value
  {
    var cells := seq(|line|, x requires 0 <= x < |line| => CellAt(line, x, y));
    assert forall x :: 0 <= x < |line| ==> cells[x] == CellAt(line, x, y);
    Collect(cells)
  }

  /** The grid of cells (`lines().enumerate().map(...).collect()`). */
  function ParseCells(lines: seq<string>): (r: Result<seq<seq<Option<Pipe>>>>)
    ensures r.Ok? <==> forall y :: 0 <= y < |lines| ==> ParseLine(lines[y], y).Ok?
    ensures r.Ok? ==> |r.value| == |lines| && forall y :: 0 <= y < |lines| ==> r.value[y] == ParseLine(lines[y], y).value
  {
    var rows := seq(|lines|, y requires 0 <= y < |lines| => ParseLine(lines[y], y));
    assert forall y :: 0 <= y < |lines| ==> rows[y] == ParseLine(lines[y], y);
    Collect(rows)
  }

  /** The last index of c in a line. */
  function LastIn(line: string, c: char): (r: Option<nat>)
    ensures r.Some? ==> r.value < |line| && line[r.value] == c && forall x :: r.value < x < |line| ==> line[x] != c
    ensures r.None? ==> forall x :: 0 <= x < |line| ==> line[x] != c
  {
    if line == [] then None
    else if line[|line| - 1] == c then Some(|line| - 1)
    else LastIn(line[..|line| - 1], c)
  }

  /** Where the closure leaves `start`: the last S in reading order, or
      (-1, -1) when there is none. */
  function StartOf(lines: seq<string>): (c: Coord)
    ensures c == Coord(-1, -1) || (0 <= c.y < |lines| && 0 <= c.x < |lines[c.y]| && lines[c.y][c.x] == 'S')
  {
    if lines == [] then Coord(-1, -1)
    else
      match LastIn(lines[|lines| - 1], 'S')
      case Some(x) => Coord(x, |lines| - 1)
      case None => StartOf(lines[..|lines| - 1])
  }

  /** No S comes after the start in reading order, and with no S at all
      the start stays at (-1, -1). */
  lemma {:induction false} StartIsLast(lines: seq<string>)
    ensures var s := StartOf(lines);
      forall y, x :: 0 <= y < |lines| && 0 <= x < |lines[y]| && lines[y][x] == 'S' ==>
        s != Coord(-1, -1) && (y < s.y || (y == s.y && x <= s.x))
  {
    if lines != [] {
      var init := lines[..|lines| - 1];
      StartIsLast(init);
      assert forall y :: 0 <= y < |init| ==> init[y] == lines[y];
    }
  }

  /** Offset number k of `[-1, 0, 1] x [-1, 0, 1]`, in the order of the
      two nested loops: x in the outer loop, y in the inner. */
  function Offset(k: nat): (int, int)
  {
    (k / 3 - 1, k % 3 - 1)
  }

  lemma OffsetAt(i: int, j: int)
    requires 0 <= i < 3 && 0 <= j < 3
    ensures Offset(3 * i + j) == (i - 1, j - 1)
  {
    DivModUnique(3 * i + j, 3, i, j);
  }

  /** The nine offsets are different and each coordinate lies in [-1, 1]. */
  lemma OffsetShape(k: nat, l: nat)
    requires k < 9 && l < 9
    ensures -1 <= Offset(k).0 <= 1 && -1 <= Offset(k).1 <= 1
    ensures Offset(k) == Offset(l) ==> k == l
  {
    assert k == 3 * (k / 3) + k % 3 && l == 3 * (l / 3) + l % 3;
  }

  function At(start: Coord, k: nat): Coord
  {
    Plus(start, Offset(k).0, Offset(k).1)
  }

  /** `is_connected_to`: `other` is one of the two connected cells. */
  predicate IsConnectedTo(pipe: Pipe, other: Coord)
  {
    other in [pipe.first, pipe.second]
  }

  /** The start's neighbours from offset k on: the positions of the pipes
      there that connect back to the start; a valid cell off the grid
      panics on the index. */
  function Scan(cells: seq<seq<Option<Pipe>>>, start: Coord, k: nat): Result<seq<Coord>>
    decreases 9 - k
  {
    if k >= 9 then Ok([])
    else
      var coord := At(start, k);
      var rest := Scan(cells, start, k + 1);
      if !IsValid(coord) then rest
      else if coord.y >= |cells| || coord.x >= |cells[coord.y]| then Panic
      else
        match cells[coord.y][coord.x]
        case Some(pipe) => if IsConnectedTo(pipe, start) then Prepend([pipe.position], rest) else rest
        case None => rest
  }

  function Prepend(front: seq<Coord>, r: Result<seq<Coord>>): Result<seq<Coord>>
  {
    match r
    case Ok(v) => Ok(front + v)
    case Panic => Panic
  }

  /** The field: the grid and the start, whose cell holds the start pipe. */
  datatype Field = Field(inner: seq<seq<Option<Pipe>>>, start: Coord)

  /** Does `start` index the grid? A negative coordinate cast to `usize`
      is out of range. */
  predicate Inside(cells: seq<seq<Option<Pipe>>>, c: Coord)
  {
    IsValid(c) && c.y < |cells| && c.x < |cells[c.y]|
  }

  /** What `from_input` builds. */
  function BuildField(lines: seq<string>): Result<Field>
  {
    match ParseCells(lines)
    case Panic => Panic
    case Ok(cells) =>
      var start := StartOf(lines);
      match Scan(cells, start, 0)
      case Panic => Panic
      case Ok(connected) =>
        if |connected| != 2 || !Inside(cells, start) then Panic
        else Ok(Field(cells[start.y := cells[start.y][start.x := Some(Pipe(start, connected[0], connected[1]))]], start))
  }

  /** `Field::from_input`: the cells and the start come from the parse;
      the nested loops then collect the start's connections, exactly two
      are demanded, and the start pipe is put into the grid. */
  method FromInput(lines: seq<string>) returns (r: Result<Field>)
    ensures r == BuildField(lines)
  {
    var parsed := ParseCells(lines);
    if parsed.Panic? {
      return Panic;
    }
    var field := parsed.value;
    var start := StartOf(lines);
    var start_connected := StartConnections(field, start);
    if start_connected.Panic? {
      return Panic;
    }
    if |start_connected.value| != 2 {
      return Panic;
    }
    if !Inside(field, start) {
      return Panic;
    }
    var pipe := Pipe(start, start_connected.value[0], start_connected.value[1]);
    field := field[start.y := field[start.y][start.x := Some(pipe)]];
    r := Ok(Field(field, start));
  }

  /** The two nested `for` loops of `from_input` over the start's 3x3
      neighbourhood, pushing onto `start_connected`. */
  method StartConnections(field: seq<seq<Option<Pipe>>>, start: Coord) returns (r: Result<seq<Coord>>)
    ensures r == Scan(field, start, 0)
  {
    var start_connected: seq<Coord> := [];
    PrependNothing(Scan(field, start, 0));
    for i := 0 to 3
      invariant Scan(field, start, 0) == Prepend(start_connected, Scan(field, start, 3 * i))
    {
      var x := i - 1;
      for j := 0 to 3
        invariant Scan(field, start, 0) == Prepend(start_connected, Scan(field, start, 3 * i + j))
      {
        var y := j - 1;
        OffsetAt(i, j);
        var coord := Plus(start, x, y);
        ScanAdvance(field, start, 3 * i + j, coord, start_connected);
        if !IsValid(coord) {
          continue;
        }
        if coord.y >= |field| || coord.x >= |field[coord.y]| {
          return Panic;
        }
        if field[coord.y][coord.x].Some? {
          var pipe := field[coord.y][coord.x].value;
          if IsConnectedTo(pipe, start) {
            start_connected := start_connected + [pipe.position];
          }
        }
      }
    }
    assert start_connected + [] == start_connected;
    r := Ok(start_connected);
  }

  /** One step of the scan: the offset at k either is skipped, panics or
      adds its connected pipe to those found so far. */
  lemma ScanAdvance(cells: seq<seq<Option<Pipe>>>, start: Coord, k: nat, coord: Coord, found: seq<Coord>)
    requires k < 9 && coord == At(start, k)
    ensures var before := Prepend(found, Scan(cells, start, k));
      var after := Scan(cells, start, k + 1);
      if !IsValid(coord) then before == Prepend(found, after)
      else if coord.y >= |cells| || coord.x >= |cells[coord.y]| then before == Panic
      else if cells[coord.y][coord.x].Some? && IsConnectedTo(cells[coord.y][coord.x].value, start) then
        before == Prepend(found + [cells[coord.y][coord.x].value.position], after)
      else before == Prepend(found, after)
  {
    if Inside(cells, coord) && cells[coord.y][coord.x].Some? && IsConnectedTo(cells[coord.y][coord.x].value, start) {
      PrependTwice(found, [cells[coord.y][coord.x].value.position], Scan(cells, start, k + 1));
    }
  }

  lemma PrependNothing(r: Result<seq<Coord>>)
    ensures Prepend([], r) == r
  {
    if r.Ok? {
      assert [] + r.value == r.value;
    }
  }

  lemma PrependTwice(a: seq<Coord>, b: seq<Coord>, r: Result<seq<Coord>>)
    ensures Prepend(a, Prepend(b, r)) == Prepend(a + b, r)
  {
    if r.Ok? {
      assert a + (b + r.value) == (a + b) + r.value;
    }
  }

  /** `c` is a cell of the start's 3x3 neighbourhood holding a pipe, at
      its own position, that connects back to the start. */
  predicate Found(cells: seq<seq<Option<Pipe>>>, start: Coord, c: Coord)
  {
    && Inside(cells, c) && -1 <= c.x - start.x <= 1 && -1 <= c.y - start.y <= 1
    && cells[c.y][c.x].Some? && cells[c.y][c.x].value.position == c
    && IsConnectedTo(cells[c.y][c.x].value, start)
  }

  /** In a parsed grid each pipe sits at its own position. */
  predicate WellPlaced(cells: seq<seq<Option<Pipe>>>)
  {
    forall y, x :: 0 <= y < |cells| && 0 <= x < |cells[y]| && cells[y][x].Some? ==> cells[y][x].value.position == Coord(x, y)
  }

  /** Every connection found is a pipe of the start's 3x3 neighbourhood
      that connects back to the start. */
  lemma {:induction false} ScanSound(cells: seq<seq<Option<Pipe>>>, start: Coord, k: nat)
    requires Scan(cells, start, k).Ok? && WellPlaced(cells)
    ensures forall c :: c in Scan(cells, start, k).value ==> Found(cells, start, c)
    decreases 9 - k
  {
    if k < 9 {
      OffsetShape(k, k);
      ScanSound(cells, start, k + 1);
    }
  }

  /** Each connection found from offset k on is the cell at one of those
      offsets. */
  lemma {:induction false} ScanPositions(cells: seq<seq<Option<Pipe>>>, start: Coord, k: nat)
    requires Scan(cells, start, k).Ok? && WellPlaced(cells)
    ensures forall c :: c in Scan(cells, start, k).value ==> exists l :: k <= l < 9 && c == At(start, l)
    decreases 9 - k
  {
    if k < 9 {
      ScanPositions(cells, start, k + 1);
      forall c | c in Scan(cells, start, k).value
        ensures exists l :: k <= l < 9 && c == At(start, l)
      {
        if c !in Scan(cells, start, k + 1).value {
          assert c == At(start, k);
        }
      }
    }
  }

  /** Every pipe at an offset from k on that connects back to the start is
      found. */
  lemma {:induction false} ScanComplete(cells: seq<seq<Option<Pipe>>>, start: Coord, k: nat, l: nat)
    requires Scan(cells, start, k).Ok? && k <= l < 9 && Inside(cells, At(start, l))
    requires var c := At(start, l); cells[c.y][c.x].Some? && IsConnectedTo(cells[c.y][c.x].value, start)
    ensures var c := At(start, l); cells[c.y][c.x].value.position in Scan(cells, start, k).value
    decreases l - k
  {
    if k < l {
      ScanComplete(cells, start, k + 1, l);
    }
  }

  predicate NoRepeats(s: seq<Coord>)
  {
    forall i, j :: 0 <= i < j < |s| ==> s[i] != s[j]
  }

  lemma ConsNoRepeats(x: Coord, s: seq<Coord>)
    requires NoRepeats(s) && x !in s
    ensures NoRepeats([x] + s)
  {
    var t := [x] + s;
    forall i, j | 0 <= i < j < |t|
      ensures t[i] != t[j]
    {
      assert t[j] == s[j - 1];
      if i > 0 {
        assert t[i] == s[i - 1];
      }
    }
  }

  /** The connections are found at different offsets, hence different
      positions, so there are no repeats. */
  lemma {:induction false} ScanDistinct(cells: seq<seq<Option<Pipe>>>, start: Coord, k: nat)
    requires Scan(cells, start, k).Ok? && WellPlaced(cells)
    ensures NoRepeats(Scan(cells, start, k).value)
    decreases 9 - k
  {
    if k < 9 {
      ScanDistinct(cells, start, k + 1);
      var coord := At(start, k);
      var found := Scan(cells, start, k + 1).value;
      if Inside(cells, coord) && cells[coord.y][coord.x].Some? && IsConnectedTo(cells[coord.y][coord.x].value, start) {
        ScanPositions(cells, start, k + 1);
        forall c | c in found
          ensures c != coord
        {
          var l :| k + 1 <= l < 9 && c == At(start, l);
          OffsetShape(k, l);
        }
        assert cells[coord.y][coord.x].value.position == coord;
        ConsNoRepeats(coord, found);
      }
    }
  }

  lemma ParsedWellPlaced(lines: seq<string>)
    requires ParseCells(lines).Ok?
    ensures WellPlaced(ParseCells(lines).value)
  {
  }

  /** The start's own cell holds no pipe before the start pipe is put in. */
  lemma ParsedStartEmpty(lines: seq<string>)
    requires ParseCells(lines).Ok? && Inside(ParseCells(lines).value, StartOf(lines))
    ensures ParseCells(lines).value[StartOf(lines).y][StartOf(lines).x].None?
  {
  }

  /** The two connections of the start pipe are different pipes of its
      neighbourhood that connect back to it, neither the start itself. */
  lemma StartPipe(cells: seq<seq<Option<Pipe>>>, start: Coord, connected: seq<Coord>)
    requires Scan(cells, start, 0) == Ok(connected) && |connected| == 2
    requires WellPlaced(cells) && Inside(cells, start) && cells[start.y][start.x].None?
    ensures connected[0] != connected[1]
    ensures forall c :: c in connected ==> c != start && Found(cells, start, c)
  {
    ScanSound(cells, start, 0);
    ScanDistinct(cells, start, 0);
  }

  /** A built field holds the start pipe at the start, joined to two
      different pipes of its 3x3 neighbourhood that connect back to it;
      every other cell is as parsed. */
  lemma BuiltField(lines: seq<string>)
    requires BuildField(lines).Ok?
    ensures Built(BuildField(lines).value)
  {
    var cells := ParseCells(lines).value;
    var start := StartOf(lines);
    var connected := Scan(cells, start, 0).value;
    ParsedWellPlaced(lines);
    ParsedStartEmpty(lines);
    StartPipe(cells, start, connected);
    assert connected[0] in connected && connected[1] in connected;
    PutStart(cells, start, connected[0], connected[1]);
  }

  /** The shape of a built field. */
  predicate Built(f: Field)
  {
    && Inside(f.inner, f.start) && WellPlaced(f.inner)
    && var p := f.inner[f.start.y][f.start.x];
    && p.Some? && p.value.position == f.start && p.value.first != p.value.second
    && p.value.first != f.start && p.value.second != f.start
    && Found(f.inner, f.start, p.value.first) && Found(f.inner, f.start, p.value.second)
  }

  /** Putting the start pipe in changes no other cell. */
  lemma PutStart(cells: seq<seq<Option<Pipe>>>, start: Coord, a: Coord, b: Coord)
    requires WellPlaced(cells) && Inside(cells, start)
    requires a != start && b != start && Found(cells, start, a) && Found(cells, start, b)
    ensures var inner := cells[start.y := cells[start.y][start.x := Some(Pipe(start, a, b))]];
      WellPlaced(inner) && Found(inner, start, a) && Found(inner, start, b) && Inside(inner, start)
  {
  }

  /** `get` of part one: `None` for a negative coordinate; a cell off the
      grid panics on the index. */
  function Get(field: Field, coord: Coord): (r: Result<Option<Pipe>>)
    ensures !IsValid(coord) ==> r == Ok(None)
    ensures r.Panic? <==> IsValid(coord) && !Inside(field.inner, coord)
    ensures Inside(field.inner, coord) ==> r == Ok(field.inner[coord.y][coord.x])
  {
    if !IsValid(coord) then Ok(None)
    else if coord.y >= |field.inner| || coord.x >= |field.inner[coord.y]| then Panic
    else Ok(field.inner[coord.y][coord.x])
  }

  /** `next_from`: the connection other than the previous pipe's position;
      panics when the previous pipe is not connected. */
  function NextFrom(pipe: Pipe, prev: Pipe): (r: Result<Coord>)
    ensures r.Ok? <==> IsConnectedTo(pipe, prev.position)
    ensures r.Ok? ==> IsConnectedTo(pipe, r.value)
    ensures r.Ok? && pipe.first != pipe.second ==> r.value != prev.position
  {
    if prev.position == pipe.first then Ok(pipe.second)
    else if prev.position == pipe.second then Ok(pipe.first)
    else Panic
  }

  /** Coming back the other way leads to where one came from. */
  lemma NextFromReverses(pipe: Pipe, prev: Pipe, back: Pipe)
    requires pipe.first != pipe.second && NextFrom(pipe, prev).Ok? && back.position == NextFrom(pipe, prev).value
    ensures NextFrom(pipe, back) == Ok(prev.position)
  {
  }

  /** The walk: the pipe just left and the current pipe. */
  datatype State = State(prev: Pipe, cur: Pipe)

  /** The start pipe, and the pipe at its `connected[1]`; each `unwrap` of
      a missing pipe panics. */
  function Begin(field: Field): Result<State>
  {
    match Get(field, field.start)
    case Ok(Some(start)) =>
      (match Get(field, start.second)
       case Ok(Some(cur)) => Ok(State(start, cur))
       case _ => Panic)
    case _ => Panic
  }

  /** On a built field the walk can begin: the start holds the start pipe
      and its second connection a pipe that connects back to the start. */
  lemma BeginOnBuilt(f: Field)
    requires Built(f)
    ensures Begin(f).Ok? && Begin(f).value.prev.position == f.start
    ensures IsConnectedTo(Begin(f).value.cur, f.start) && Begin(f).value.cur.position != f.start
  {
  }

  /** One turn of the `while` loop. */
  function Step(field: Field, s: State): Result<State>
  {
    match NextFrom(s.cur, s.prev)
    case Panic => Panic
    case Ok(next) =>
      match Get(field, next)
      case Ok(Some(pipe)) => Ok(State(s.cur, pipe))
      case _ => Panic
  }

  /** Each turn moves on from the current pipe to one of its connections,
      the one it did not come from. */
  lemma StepFollowsPipe(field: Field, s: State)
    requires WellPlaced(field.inner) && Step(field, s).Ok?
    ensures var t := Step(field, s).value;
      t.prev == s.cur && IsConnectedTo(s.cur, s.prev.position) && IsConnectedTo(s.cur, t.cur.position) &&
      (s.cur.first != s.cur.second ==> t.cur.position != s.prev.position)
  {
  }

  /** The state after k turns. */
  function Trail(field: Field, k: nat): Result<State>
  {
    if k == 0 then Begin(field)
    else
      match Trail(field, k - 1)
      case Ok(s) => Step(field, s)
      case Panic => Panic
  }

  predicate AtStart(field: Field, s: State)
  {
    s.cur.position == field.start
  }

  /** The loop ends after exactly k turns, back at the start. */
  predicate StopsAt(field: Field, k: nat)
  {
    && Trail(field, k).Ok? && AtStart(field, Trail(field, k).value)
    && forall j :: 0 <= j < k ==> Trail(field, j).Ok? && !AtStart(field, Trail(field, j).value)
  }

  /** The walk panics at turn k, before coming back. */
  predicate PanicsAt(field: Field, k: nat)
  {
    && Trail(field, k).Panic?
    && forall j :: 0 <= j < k ==> Trail(field, j).Ok? && !AtStart(field, Trail(field, j).value)
  }

  /** Within `bound` turns the walk comes back or panics. */
  predicate Halts(field: Field, bound: nat)
  {
    exists k :: 0 <= k <= bound && (Trail(field, k).Panic? || (Trail(field, k).Ok? && AtStart(field, Trail(field, k).value)))
  }

  lemma StopsOnce(field: Field, k: nat, k': nat)
    requires StopsAt(field, k)
    ensures StopsAt(field, k') ==> k == k'
    ensures !PanicsAt(field, k')
  {
  }

  /** The loop of `solution`: `len` counts the pipes of the loop, the
      start included. */
  method LoopLength(field: Field, ghost bound: nat) returns (r: Result<nat>)
    requires Halts(field, bound)
    ensures r.Ok? ==> r.value >= 1 && StopsAt(field, r.value - 1)
    ensures r.Panic? ==> exists k: nat :: PanicsAt(field, k)
  {
    ghost var k :| 0 <= k <= bound && (Trail(field, k).Panic? || (Trail(field, k).Ok? && AtStart(field, Trail(field, k).value)));
    var len := 1;
    var begin := Begin(field);
    if begin.Panic? {
      assert PanicsAt(field, 0);
      return Panic;
    }
    var prev := begin.value.prev;
    var cur := begin.value.cur;
    while cur.position != field.start
      invariant 1 <= len <= k + 1
      invariant Trail(field, len - 1) == Ok(State(prev, cur))
      invariant forall j :: 0 <= j < len - 1 ==> Trail(field, j).Ok? && !AtStart(field, Trail(field, j).value)
      decreases k + 1 - len
    {
      var next_coord := NextFrom(cur, prev);
      if next_coord.Panic? {
        assert PanicsAt(field, len);
        return Panic;
      }
      var next := Get(field, next_coord.value);
      if next.Panic? || next.value.None? {
        assert PanicsAt(field, len);
        return Panic;
      }
      prev := cur;
      cur := next.value.value;
      len := len + 1;
    }
    r := Ok(len);
  }

  /** Rust's `solution`: half the number of pipes on the loop. */
  method Solution(lines: seq<string>, ghost bound: nat) returns (r: Result<nat>)
    requires BuildField(lines).Ok? ==> Halts(BuildField(lines).value, bound)
    ensures r.Ok? ==> BuildField(lines).Ok? && exists k: nat :: StopsAt(BuildField(lines).value, k) && r.value == (k + 1) / 2
    ensures r.Panic? ==> BuildField(lines).Panic? || exists k: nat :: PanicsAt(BuildField(lines).value, k)
  {
    var field := FromInput(lines);
    if field.Panic? {
      return Panic;
    }
    var len := LoopLength(field.value, bound);
    if len.Panic? {
      return Panic;
    }
    r := Ok(len.value / 2);
    assert StopsAt(field.value, len.value - 1);
  }
}
