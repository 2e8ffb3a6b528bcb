/** Day 18: the lagoon dug along a plan of straight runs. Its size, edge
    included, is the shoelace area of the polygon through the ends of the
    runs, plus half the perimeter, plus one. This version reads each line's
    direction letter and run length; the colour after them is not used. */
module Day18b {
  import opened Common

  datatype Coord = Coord(row: int, col: int)

  datatype Dir = North | East | South | West

  const Origin := Coord(0, 0)

  /** `Dir::from(&str)`: the plan's letters; any other text panics. */
  function ParseDir(s: string): (r: Result<Dir>)
    ensures r.Ok? <==> s == "U" || s == "R" || s == "D" || s == "L"
  {
    if s == "U" then Ok(North)
    else if s == "R" then Ok(East)
    else if s == "D" then Ok(South)
    else if s == "L" then Ok(West)
    else Panic
  }

  /** The plan's letter for a direction. */
  function Letter(d: Dir): string
  {
    match d
    case North => "U"
    case East => "R"
    case South => "D"
    case West => "L"
  }

  /** Every direction is read back from its letter, and every letter read is
      the letter of what it is read as. */
  lemma LetterRoundTrip(d: Dir, s: string)
    ensures ParseDir(Letter(d)) == Ok(d)
    ensures ParseDir(s).Ok? ==> Letter(ParseDir(s).value) == s
  {
  }

  /** `Coord + Dir`: one step. */
  function Add(c: Coord, d: Dir): Coord
  {
    match d
    case North => Coord(c.row - 1, c.col)
    case East => Coord(c.row, c.col + 1)
    case South => Coord(c.row + 1, c.col)
    case West => Coord(c.row, c.col - 1)
  }

  /** A direction with a number of steps. */
  datatype SteppedDir = SteppedDir(dir: Dir, step: nat)

  /** `From<Dir> for SteppedDir`: a single step. */
  function Unit(d: Dir): SteppedDir
  {
    SteppedDir(d, 1)
  }

  /** `SteppedDir * usize`: the steps multiplied. */
  function Scale(s: SteppedDir, k: nat): (r: SteppedDir)
    ensures r.dir == s.dir && r.step == s.step * k
  {
    SteppedDir(s.dir, s.step * k)
  }

  /** `Dir * usize`: `k` steps that way. */
  function Times(d: Dir, k: nat): SteppedDir
  {
    SteppedDir(d, k)
  }

  /** `Coord + SteppedDir`: `step` cells along the direction at once. */
  function Move(c: Coord, s: SteppedDir): Coord
  {
    match s.dir
    case North => Coord(c.row - s.step, c.col)
    case East => Coord(c.row, c.col + s.step)
    case South => Coord(c.row + s.step, c.col)
    case West => Coord(c.row, c.col - s.step)
  }

  /** `k` single steps one after the other. */
  function Walk(c: Coord, d: Dir, k: nat): Coord
  {
    if k == 0 then c else Add(Walk(c, d, k - 1), d)
  }

  /** One stepped move is the same as that many single steps; in particular
      a unit move is a single step, and scaling a unit gives `Times`. */
  lemma {:induction false} MoveIsWalk(c: Coord, d: Dir, k: nat)
    ensures Move(c, Times(d, k)) == Walk(c, d, k)
    ensures Move(c, Unit(d)) == Add(c, d)
    ensures Scale(Unit(d), k) == Times(d, k)
  {
    if k > 0 {
      MoveIsWalk(c, d, k - 1);
    }
  }

  /** Two runs the same way make one run of the combined length. */
  lemma MoveJoins(c: Coord, d: Dir, a: nat, b: nat)
    ensures Move(Move(c, Times(d, a)), Times(d, b)) == Move(c, Times(d, a + b))
  {
  }

  // ---------------------------------------------------------------------
  // Reading the plan

  /** One plan line: `split(' ')`, the direction letter, then the run length
      parsed as a `usize`; a missing piece, a bad letter or a bad number
      panics. */
  function ParseLine(l: string): Result<SteppedDir>
  {
    var parts := Split(l, " ");
    if |parts| < 2 then Panic
    else
      match ParseUnsigned(parts[1], UsizeLimit)
      case Panic => Panic
      case Ok(n) =>
        match ParseDir(parts[0])
        case Panic => Panic
        case Ok(d) => Ok(Times(d, n))
  }

  /** A piece without a space is split off the front whole. */
  lemma SplitFirst(a: string, rest: string)
    requires Avoids(a, " ")
    ensures Split(a + " " + rest, " ") == [a] + Split(rest, " ")
  {
    var l := a + " " + rest;
    IndexOfAfter(a, " ", rest);
    SplitFound(l, " ", |a|);
    assert l[..|a|] == a && l[|a| + 1..] == rest;
  }

  /** The first two space-separated pieces of `a b rest`, when neither
      `a` nor `b` holds a space. */
  lemma SplitPlanLine(a: string, b: string, colour: string)
    requires Avoids(a, " ") && Avoids(b, " ")
    ensures var parts := Split(a + " " + b + " " + colour, " "); |parts| >= 2 && parts[0] == a && parts[1] == b
  {
    assert a + " " + b + " " + colour == a + " " + (b + " " + colour);
    SplitFirst(a, b + " " + colour);
    SplitFirst(b, colour);
  }

  /** A line of the plan's form, whatever colour follows, reads as its run. */
  lemma ParsePlanLine(d: Dir, n: nat, colour: string)
    requires n < UsizeLimit
    ensures ParseLine(Letter(d) + " " + Decimal(n) + " " + colour) == Ok(Times(d, n))
  {
    var num := Decimal(n);
    assert Avoids(num, " ") by {
      forall i | 0 <= i < |num|
        ensures num[i] !in " "
      {
        assert IsDigit(num[i]);
      }
    }
    SplitPlanLine(Letter(d), num, colour);
    ParseDecimal(n, UsizeLimit);
    LetterRoundTrip(d, "");
  }

  /** A line with a single piece panics. */
  lemma ParseLineShort(l: string)
    requires Avoids(l, " ")
    ensures ParseLine(l) == Panic
  {
    NotFoundIn(l, " ");
  }

  /** The plan: every line read, or a panic. */
  function Directions(lines: seq<string>): Result<seq<SteppedDir>>
  {
    Collect(seq(|lines|, i requires 0 <= i < |lines| => ParseLine(lines[i])))
  }

  // ---------------------------------------------------------------------
  // The polygon

  /** The perimeter: all run lengths added up. */
  function Perimeter(ds: seq<SteppedDir>): nat
  {
    if ds == [] then 0 else Perimeter(ds[..|ds| - 1]) + ds[|ds| - 1].step
  }

  /** The `fold` that lists the corners: the origin, then for each run the
      point it ends at, counting from the previous point. */
  function Points(ds: seq<SteppedDir>): (r: seq<Coord>)
    ensures |r| == |ds| + 1 && r[0] == Origin
    ensures forall i :: 0 <= i < |ds| ==> r[i + 1] == Move(r[i], ds[i])
  {
    if ds == [] then [Origin]
    else
      var p := Points(ds[..|ds| - 1]);
      p + [Move(p[|p| - 1], ds[|ds| - 1])]
  }

  /** The term of the shoelace sum for the edge from `p` to `q`. */
  function Trapezoid(p: Coord, q: Coord): int
  {
    (p.row + q.row) * (p.col - q.col)
  }

  /** The index after `i` going round `n` vertices. */
  function Next(i: nat, n: nat): (r: nat)
    requires i < n
    ensures r < n && r == (i + 1) % n
  {
    if i + 1 < n then i + 1 else 0
  }

  /** The shoelace sum over the vertices taken cyclically: each vertex with
      the next, the last with the first (`zip` with `cycle().skip(1)`). */
  function CyclicSum(vs: seq<Coord>): int
  {
    Sum(seq(|vs|, i requires 0 <= i < |vs| => Trapezoid(vs[i], vs[Next(i, |vs|)])))
  }

  /** The shoelace sum along consecutive points of an open chain. */
  function ChainSum(ps: seq<Coord>): int
  {
    if |ps| <= 1 then 0 else ChainSum(ps[..|ps| - 1]) + Trapezoid(ps[|ps| - 2], ps[|ps| - 1])
  }

  /** The textbook shoelace sum: the cross products of consecutive points. */
  function CrossSum(ps: seq<Coord>): int
  {
    if |ps| <= 1 then 0
    else
      var p, q := ps[|ps| - 2], ps[|ps| - 1];
      CrossSum(ps[..|ps| - 1]) + (p.row * q.col - q.row * p.col)
  }

  function Abs(x: int): nat
  {
    if x < 0 then -x else x
  }

  /** Each trapezoid term is minus the cross product, plus a term that
      telescopes. */
  lemma TrapezoidCross(p: Coord, q: Coord)
    ensures Trapezoid(p, q) == -(p.row * q.col - q.row * p.col) + (p.row * p.col - q.row * q.col)
  {
    assert (p.row + q.row) * (p.col - q.col) == p.row * p.col - p.row * q.col + q.row * p.col - q.row * q.col;
  }

  /** Along a chain, the trapezoid sum is minus the cross-product sum plus
      the difference of the end terms. */
  lemma {:induction false} ChainCross(ps: seq<Coord>)
    requires |ps| >= 1
    ensures ChainSum(ps) == -CrossSum(ps) + (ps[0].row * ps[0].col - ps[|ps| - 1].row * ps[|ps| - 1].col)
  {
    if |ps| > 1 {
      var init := ps[..|ps| - 1];
      ChainCross(init);
      TrapezoidCross(ps[|ps| - 2], ps[|ps| - 1]);
    }
  }

  /** The cyclic sum over the corners without the closing copy is the chain
      sum over the closed list of points. */
  lemma {:induction false} CyclicIsChain(ps: seq<Coord>)
    requires |ps| >= 1 && ps[0] == ps[|ps| - 1]
    ensures CyclicSum(ps[..|ps| - 1]) == ChainSum(ps)
  {
    var vs := ps[..|ps| - 1];
    var n := |vs|;
    var terms := seq(n, i requires 0 <= i < n => Trapezoid(vs[i], vs[Next(i, n)]));
    var chain := seq(n, i requires 0 <= i < n => Trapezoid(ps[i], ps[i + 1]));
    assert terms == chain;
    ChainTerms(ps);
  }

  /** The chain sum is the sum of its edge terms. */
  lemma {:induction false} ChainTerms(ps: seq<Coord>)
    requires |ps| >= 1
    ensures ChainSum(ps) == Sum(seq(|ps| - 1, i requires 0 <= i < |ps| - 1 => Trapezoid(ps[i], ps[i + 1])))
  {
    var n := |ps| - 1;
    var terms := seq(n, i requires 0 <= i < n => Trapezoid(ps[i], ps[i + 1]));
    if n > 0 {
      var init := ps[..n];
      ChainTerms(init);
      var before := seq(n - 1, i requires 0 <= i < n - 1 => Trapezoid(init[i], init[i + 1]));
      assert terms == before + [Trapezoid(ps[n - 1], ps[n])];
      SumAppend(before, [Trapezoid(ps[n - 1], ps[n])]);
      assert Sum([Trapezoid(ps[n - 1], ps[n])]) == Trapezoid(ps[n - 1], ps[n]) + Sum([]);
    }
  }

  /** The dug area for a plan: the trapezoid form of the shoelace formula
      over the corners, halved, plus half the perimeter and one. The plan
      must come back to where it started (`assert_eq!`), or it panics. */
  function Area(ds: seq<SteppedDir>): (r: Result<nat>)
    ensures r.Panic? <==> Points(ds)[|ds|] != Origin
  {
    var ps := Points(ds);
    if ps[0] != ps[|ps| - 1] then Panic
    else Ok(Abs(CyclicSum(ps[..|ps| - 1])) / 2 + Perimeter(ds) / 2 + 1)
  }

  /** Rust's `solution`: it panics on an unreadable line or a plan that
      does not close, and otherwise is the shoelace area of the plan read. */
  function Solution(lines: seq<string>): (r: Result<nat>)
    ensures r.Panic? <==> Directions(lines).Panic? || Points(Directions(lines).value)[|Directions(lines).value|] != Origin
    ensures r.Ok? ==> r.value == Abs(CrossSum(Points(Directions(lines).value))) / 2 + Perimeter(Directions(lines).value) / 2 + 1
  {
    match Directions(lines)
    case Panic => Panic
    case Ok(ds) =>
      AreaIsShoelace(ds);
      Area(ds)
  }

  /** The area panics exactly when the plan does not close, and is otherwise
      the textbook shoelace area (half the absolute cross-product sum) plus
      half the perimeter plus one. */
  lemma AreaIsShoelace(ds: seq<SteppedDir>)
    ensures Area(ds).Panic? <==> Points(ds)[|ds|] != Origin
    ensures Area(ds).Ok? ==> Area(ds).value == Abs(CrossSum(Points(ds))) / 2 + Perimeter(ds) / 2 + 1
  {
    var ps := Points(ds);
    if ps[0] == ps[|ps| - 1] {
      CyclicIsChain(ps);
      ChainCross(ps);
    }
  }

  lemma SumOfFour(w: int, x: int, y: int, z: int)
    ensures Sum([w, x, y, z]) == w + x + y + z
  {
    assert Sum([w]) == w by { assert [w][..0] == []; }
    assert Sum([w, x]) == w + x by { assert [w, x][..1] == [w]; }
    assert Sum([w, x, y]) == w + x + y by { assert [w, x, y][..2] == [w, x]; }
    assert [w, x, y, z][..3] == [w, x, y];
  }

  lemma RectangleSum(a: nat, b: nat)
    ensures CyclicSum([Coord(0, 0), Coord(0, a), Coord(b, a), Coord(b, 0)]) == 2 * a * b
  {
    var vs := [Coord(0, 0), Coord(0, a), Coord(b, a), Coord(b, 0)];
    var terms := seq(4, i requires 0 <= i < 4 => Trapezoid(vs[i], vs[Next(i, 4)]));
    assert terms == [Trapezoid(vs[0], vs[1]), Trapezoid(vs[1], vs[2]), Trapezoid(vs[2], vs[3]), Trapezoid(vs[3], vs[0])];
    assert Trapezoid(vs[0], vs[1]) == 0 && Trapezoid(vs[1], vs[2]) == 0 && Trapezoid(vs[3], vs[0]) == 0;
    assert Trapezoid(vs[2], vs[3]) == (b + b) * a;
    SumOfFour(0, 0, (b + b) * a, 0);
  }

  lemma RectanglePerimeter(a: nat, b: nat)
    ensures Perimeter([Times(East, a), Times(South, b), Times(West, a), Times(North, b)]) == 2 * a + 2 * b
  {
    var ds := [Times(East, a), Times(South, b), Times(West, a), Times(North, b)];
    var d1, d2, d3 := ds[..1], ds[..2], ds[..3];
    assert Perimeter(d1) == a by { assert d1[..0] == []; }
    assert Perimeter(d2) == a + b by { assert d2[..1] == d1; }
    assert Perimeter(d3) == 2 * a + b by { assert d3[..2] == d2; }
    assert ds[..3] == d3;
  }

  /** An `a` by `b` rectangle dug right, down, left and up encloses
      `(a + 1) * (b + 1)` cells. */
  lemma Rectangle(a: nat, b: nat)
    ensures Area([Times(East, a), Times(South, b), Times(West, a), Times(North, b)]) == Ok((a + 1) * (b + 1))
  {
    var ds := [Times(East, a), Times(South, b), Times(West, a), Times(North, b)];
    var ps := Points(ds);
    assert ps[1] == Move(ps[0], ds[0]) == Coord(0, a);
    assert ps[2] == Move(ps[1], ds[1]) == Coord(b, a);
    assert ps[3] == Move(ps[2], ds[2]) == Coord(b, 0);
    assert ps[4] == Move(ps[3], ds[3]) == Origin;
    assert ps[..4] == [Coord(0, 0), Coord(0, a), Coord(b, a), Coord(b, 0)];
    RectangleSum(a, b);
    RectanglePerimeter(a, b);
    var ab := a * b;
    assert Abs(CyclicSum(ps[..4])) / 2 == ab by { assert CyclicSum(ps[..4]) == 2 * ab; }
    assert Perimeter(ds) / 2 == a + b;
    assert Area(ds) == Ok(ab + a + b + 1);
    assert (a + 1) * (b + 1) == ab + a + b + 1;
  }
}
