/** Day 16, part two: the same beam tracer, run from every edge cell
    heading into the board; the answer is the largest number of energized
    cells. */
module Day16b {
  import opened Common
  import opened Day16a

  /** The inner `while let` of `illuminate_board`: follows the beam front
      `b`; on a pair already seen it resumes the next pending beam instead,
      and it stops when a beam leaves the board or nothing is pending.
      `jammed` when a tile panics. */
  method Sweep(board: Board, ghost start: Beam, seen: set<Beam>, beams: seq<Beam>, b: Beam)
    returns (jammed: bool, illuminated: set<Beam>, rest: seq<Beam>)
    requires Tracing(board, start, seen, beams + [b])
    ensures jammed ==> Jams(board, start)
    ensures !jammed ==> Tracing(board, start, illuminated, rest)
    ensures seen <= illuminated <= Keys(board)
    ensures illuminated == seen ==> |rest| <= |beams|
    ensures illuminated != seen ==> |Keys(board) - illuminated| < |Keys(board) - seen|
  {
    illuminated, rest := seen, beams;
    var coord, dir := b.at, b.dir;
    while Get(board, coord).Some?
      invariant Tracing(board, start, illuminated, rest + [Beam(coord, dir)])
      invariant seen <= illuminated <= Keys(board)
      invariant illuminated == seen ==> |rest| <= |beams|
      invariant |Keys(board) - illuminated| <= |Keys(board) - seen|
      invariant illuminated != seen ==> |Keys(board) - illuminated| < |Keys(board) - seen|
      decreases |Keys(board) - illuminated|, |rest|
    {
      var key := Beam(coord, dir);
      if key in illuminated {
        TracingSeen(board, start, illuminated, rest, key);
        if rest == [] {
          return false, illuminated, rest;
        }
        var next := rest[|rest| - 1];
        SplitLast(rest);
        rest := rest[..|rest| - 1];
        coord, dir := next.at, next.dir;
        continue;
      }
      InKeys(board, key);
      match Deflect(Get(board, coord).value, dir)
      case Panic =>
        assert key in rest + [key];
        assert key in Lit(board, start) && Broken(board, key);
        return true, illuminated, rest;
      case Ok(t) =>
        TracingStep(board, start, illuminated, rest, key, t);
        FewerLeft(Keys(board), illuminated, key);
        illuminated := illuminated + {key};
        if t.fork.Some? {
          rest := rest + [Beam(Add(coord, t.fork.value), t.fork.value)];
        }
        dir := t.dir;
        coord := Add(coord, dir);
    }
    TracingOff(board, start, illuminated, rest, Beam(coord, dir));
    jammed := false;
  }

  /** `illuminate_board`: the number of cells energized by a beam entering
      as `start`. */
  method IlluminateBoard(board: Board, start: Beam) returns (r: Result<nat>)
    ensures r.Panic? <==> Jams(board, start)
    ensures r.Ok? ==> r.value == Energized(board, start)
  {
    var illuminated: set<Beam> := {};
    var beams: seq<Beam> := [start];
    TracingStart(board, start);
    while beams != []
      invariant Tracing(board, start, illuminated, beams)
      decreases |Keys(board) - illuminated|, |beams|
    {
      var top := beams[|beams| - 1];
      SplitLast(beams);
      var jammed;
      jammed, illuminated, beams := Sweep(board, start, illuminated, beams[..|beams| - 1], top);
      if jammed {
        return Panic;
      }
    }
    TracingDone(board, start, illuminated);
    r := Ok(|CellsOf(illuminated)|);
  }

  /** The entries of the first `n` rows in the order `solution` tries
      them: from the left heading East, then from the right (at the first
      row's width) heading West. */
  function RowEntries(n: nat, cols: nat): (r: seq<Beam>)
    ensures |r| == 2 * n
  {
    if n == 0 then [] else RowEntries(n - 1, cols) + [Beam(Coord(n - 1, 0), East), Beam(Coord(n - 1, cols - 1), West)]
  }

  /** The entries of the first `n` columns: from the top heading South,
      then from the bottom heading North. */
  function ColEntries(n: nat, rows: nat): (r: seq<Beam>)
    ensures |r| == 2 * n
  {
    if n == 0 then [] else ColEntries(n - 1, rows) + [Beam(Coord(0, n - 1), South), Beam(Coord(rows - 1, n - 1), North)]
  }

  lemma {:induction false} RowEntriesHold(n: nat, cols: nat, i: nat)
    requires i < n
    ensures Beam(Coord(i, 0), East) in RowEntries(n, cols) && Beam(Coord(i, cols - 1), West) in RowEntries(n, cols)
  {
    if i < n - 1 {
      RowEntriesHold(n - 1, cols, i);
    }
  }

  lemma {:induction false} ColEntriesHold(n: nat, rows: nat, j: nat)
    requires j < n
    ensures Beam(Coord(0, j), South) in ColEntries(n, rows) && Beam(Coord(rows - 1, j), North) in ColEntries(n, rows)
  {
    if j < n - 1 {
      ColEntriesHold(n - 1, rows, j);
    }
  }

  /** The row entries, described directly. */
  lemma {:induction false} RowEntriesExactly(n: nat, cols: nat, e: Beam)
    ensures e in RowEntries(n, cols) <==>
      0 <= e.at.row < n && ((e.dir == East && e.at.col == 0) || (e.dir == West && e.at.col == cols - 1))
  {
    if n > 0 {
      RowEntriesExactly(n - 1, cols, e);
    }
  }

  /** The column entries, described directly. */
  lemma {:induction false} ColEntriesExactly(n: nat, rows: nat, e: Beam)
    ensures e in ColEntries(n, rows) <==>
      0 <= e.at.col < n && ((e.dir == South && e.at.row == 0) || (e.dir == North && e.at.row == rows - 1))
  {
    if n > 0 {
      ColEntriesExactly(n - 1, rows, e);
    }
  }

  predicate Rectangular(board: Board)
  {
    board != [] && forall i :: 0 <= i < |board| ==> |board[i]| == |board[0]|
  }

  /** On a rectangular board with at least one column, the entries tried
      are exactly the beams on the board that come in from outside it. */
  lemma EdgesEnter(board: Board, e: Beam)
    requires Rectangular(board) && |board[0]| > 0
    ensures e in Edges(board) <==> OnBoard(board, e.at) && !OnBoard(board, Add(e.at, Opposite(e.dir)))
  {
    RowEntriesExactly(|board|, |board[0]|, e);
    ColEntriesExactly(|board[0]|, |board|, e);
    if 0 <= e.at.row < |board| {
      assert |board[e.at.row]| == |board[0]|;
    }
    var back := Add(e.at, Opposite(e.dir));
    if 0 <= back.row < |board| {
      assert |board[back.row]| == |board[0]|;
    }
  }

  /** `scores.iter().max()`: None for no scores. */
  function Largest(s: seq<nat>): (r: Option<nat>)
    ensures r.None? <==> s == []
    ensures r.Some? ==> (exists k :: 0 <= k < |s| && s[k] == r.value) && forall k :: 0 <= k < |s| ==> s[k] <= r.value
  {
    if s == [] then None
    else
      var m := Largest(s[..|s| - 1]);
      if m.None? || m.value < s[|s| - 1] then Some(s[|s| - 1]) else m
  }

  /** The entries `solution` tries, in order; `size` panics on an empty
      board, so there are none. */
  function Edges(board: Board): seq<Beam>
  {
    if board == [] then [] else RowEntries(|board|, |board[0]|) + ColEntries(|board[0]|, |board|)
  }

  /** Part one's entry is among those tried, so part two's answer is at
      least part one's. */
  lemma PartOneEntry(board: Board)
    requires board != []
    ensures Entry in Edges(board)
  {
    RowEntriesHold(|board|, |board[0]|, 0);
  }

  /** Each score is the energy of the entry tried at its position, and no
      entry tried so far jams. */
  ghost predicate Scored(board: Board, tried: seq<Beam>, scores: seq<nat>)
  {
    |scores| == |tried| && forall k :: 0 <= k < |tried| ==> scores[k] == Energized(board, tried[k]) && !Jams(board, tried[k])
  }

  /** One `scores.push(illuminate_board(…))`. */
  method Attempt(board: Board, e: Beam, ghost tried: seq<Beam>, scores: seq<nat>) returns (jam: bool, more: seq<nat>)
    requires Scored(board, tried, scores)
    ensures jam ==> Jams(board, e)
    ensures !jam ==> Scored(board, tried + [e], more)
  {
    var score := IlluminateBoard(board, e);
    if score.Panic? {
      return true, scores;
    }
    jam, more := false, scores + [score.value];
    assert forall k :: 0 <= k < |tried| ==> (tried + [e])[k] == tried[k] && more[k] == scores[k];
  }

  /** The largest score is the energy of one tried entry and at least that
      of every other, none of which jams. */
  lemma BestScore(board: Board, tried: seq<Beam>, scores: seq<nat>)
    requires Scored(board, tried, scores) && scores != []
    ensures forall e :: e in tried ==> !Jams(board, e) && Energized(board, e) <= Largest(scores).value
    ensures exists e :: e in tried && Largest(scores).value == Energized(board, e)
  {
    var k :| 0 <= k < |scores| && scores[k] == Largest(scores).value;
    assert tried[k] in tried;
  }

  /** The first `for` of `solution`: every row, from both sides. */
  method ScoreRows(board: Board, cols: nat) returns (jam: bool, scores: seq<nat>, ghost tried: seq<Beam>)
    ensures jam ==> exists e :: e in RowEntries(|board|, cols) && Jams(board, e)
    ensures !jam ==> tried == RowEntries(|board|, cols) && Scored(board, tried, scores)
  {
    tried, scores, jam := [], [], false;
    for i := 0 to |board|
      invariant tried == RowEntries(i, cols) && Scored(board, tried, scores)
    {
      var east, west := Beam(Coord(i, 0), East), Beam(Coord(i, cols - 1), West);
      RowEntriesHold(|board|, cols, i);
      jam, scores := Attempt(board, east, tried, scores);
      if jam {
        return;
      }
      jam, scores := Attempt(board, west, tried + [east], scores);
      if jam {
        return;
      }
      tried := tried + [east] + [west];
    }
  }

  /** The second `for` of `solution`: every column, from the top and the
      bottom, after the row scores `before`. */
  method ScoreCols(board: Board, cols: nat, ghost prior: seq<Beam>, before: seq<nat>)
    returns (jam: bool, scores: seq<nat>, ghost tried: seq<Beam>)
    requires Scored(board, prior, before)
    ensures jam ==> exists e :: e in ColEntries(cols, |board|) && Jams(board, e)
    ensures !jam ==> tried == prior + ColEntries(cols, |board|) && Scored(board, tried, scores)
  {
    tried, scores, jam := prior, before, false;
    for j := 0 to cols
      invariant tried == prior + ColEntries(j, |board|) && Scored(board, tried, scores)
    {
      var south, north := Beam(Coord(0, j), South), Beam(Coord(|board| - 1, j), North);
      ColEntriesHold(cols, |board|, j);
      jam, scores := Attempt(board, south, tried, scores);
      if jam {
        return;
      }
      jam, scores := Attempt(board, north, tried + [south], scores);
      if jam {
        return;
      }
      tried := tried + [south] + [north];
    }
  }

  /** Rust's `solution`: the best edge entry. */
  method Solution(board: Board) returns (r: Result<nat>)
    ensures r.Panic? <==> board == [] || exists e :: e in Edges(board) && Jams(board, e)
    ensures r.Ok? ==> exists e :: e in Edges(board) && r.value == Energized(board, e)
    ensures r.Ok? ==> forall e :: e in Edges(board) ==> Energized(board, e) <= r.value
  {
    if board == [] {
      return Panic;
    }
    var cols := |board[0]|;
    var jam, scores;
    ghost var tried;
    jam, scores, tried := ScoreRows(board, cols);
    if jam {
      return Panic;
    }
    jam, scores, tried := ScoreCols(board, cols, tried, scores);
    if jam {
      return Panic;
    }
    var best := Largest(scores);
    BestScore(board, tried, scores);
    r := Ok(best.value);
  }
}
