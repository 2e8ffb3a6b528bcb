/** Day 3, part two: a gear is a '*' next to exactly two numbers, and its
    ratio is the product of those two. The scan records, for every '*' in
    the box of some number, how many numbers touch it and the product of
    their values; the answer is the sum of the ratios of the gears. */
module Day03b {
  import opened Common
  import opened Day03a

  predicate StarAt(schematic: seq<string>, row: int, col: int)
  {
    Cell(schematic, row, col) == Some('*')
  }

  /** The '*' cells in the box of `p` that the row-by-row walk of the box
      visits before (row, col). */
  ghost function StarsBefore(schematic: seq<string>, p: Part, row: int, col: int): set<(int, int)>
  {
    set r: int, c: int | p.line - 1 <= r <= p.line + 1 && p.col - 1 <= c <= p.col + p.length
      && (r < row || (r == row && c < col)) && StarAt(schematic, r, c) :: (r, c)
  }

  /** All '*' cells in the box of `p`. */
  ghost function StarsInBox(schematic: seq<string>, p: Part): set<(int, int)>
  {
    StarsBefore(schematic, p, p.line + 2, p.col - 1)
  }

  lemma InStarsInBox(schematic: seq<string>, p: Part, row: int, col: int)
    ensures (row, col) in StarsInBox(schematic, p) <==> InBox(p, row, col) && StarAt(schematic, row, col)
  {
  }

  /** The entry of `pos` after one more number of value `val` touches it:
      a first touch records (1, val), a later one counts it and multiplies
      the product. */
  function Bumped(gears: map<(int, int), (nat, nat)>, pos: (int, int), val: nat): (nat, nat)
  {
    if pos in gears then (gears[pos].0 + 1, gears[pos].1 * val) else (1, val)
  }

  /** The table after a number of value `val` touched every cell of `s`. */
  ghost function Touched(gears: map<(int, int), (nat, nat)>, s: set<(int, int)>, val: nat): map<(int, int), (nat, nat)>
  {
    map pos | pos in gears.Keys + s :: if pos in s then Bumped(gears, pos, val) else gears[pos]
  }

  lemma TouchedStep(gears: map<(int, int), (nat, nat)>, s: set<(int, int)>, val: nat, pos: (int, int))
    requires pos !in s
    ensures Touched(gears, s + {pos}, val) == Touched(gears, s, val)[pos := Bumped(Touched(gears, s, val), pos, val)]
  {
  }

  /** The table after every number of `parts` touched the '*' cells of its
      box. */
  ghost function GearsOf(schematic: seq<string>, parts: seq<Part>): map<(int, int), (nat, nat)>
  {
    if parts == [] then map[]
    else
      var p := parts[|parts| - 1];
      Touched(GearsOf(schematic, parts[..|parts| - 1]), StarsInBox(schematic, p), p.val)
  }

  /** The number of parts whose box holds `pos`, a '*' cell. */
  ghost function CountIn(schematic: seq<string>, parts: seq<Part>, pos: (int, int)): nat
  {
    if parts == [] then 0
    else CountIn(schematic, parts[..|parts| - 1], pos) + (if pos in StarsInBox(schematic, parts[|parts| - 1]) then 1 else 0)
  }

  /** The product of the values of those parts. */
  ghost function ProdIn(schematic: seq<string>, parts: seq<Part>, pos: (int, int)): nat
  {
    if parts == [] then 1
    else ProdIn(schematic, parts[..|parts| - 1], pos) * (if pos in StarsInBox(schematic, parts[|parts| - 1]) then parts[|parts| - 1].val else 1)
  }

  /** A cell is in the table exactly when it is a '*' cell in the box of
      some part; its entry is the number of such parts and the product of
      their values. */
  lemma {:induction false} GearsClosed(schematic: seq<string>, parts: seq<Part>, pos: (int, int))
    ensures pos in GearsOf(schematic, parts) <==> CountIn(schematic, parts, pos) > 0
    ensures pos in GearsOf(schematic, parts) ==> GearsOf(schematic, parts)[pos] == (CountIn(schematic, parts, pos), ProdIn(schematic, parts, pos))
  {
    if parts != [] {
      GearsClosed(schematic, parts[..|parts| - 1], pos);
      UntouchedProduct(schematic, parts[..|parts| - 1], pos);
    }
  }

  lemma {:induction false} UntouchedProduct(schematic: seq<string>, parts: seq<Part>, pos: (int, int))
    ensures CountIn(schematic, parts, pos) == 0 ==> ProdIn(schematic, parts, pos) == 1
  {
    if parts != [] {
      UntouchedProduct(schematic, parts[..|parts| - 1], pos);
    }
  }

  /** The count is the number of parts whose box holds the '*' cell. */
  lemma {:induction false} CountInCounts(schematic: seq<string>, parts: seq<Part>, pos: (int, int))
    ensures CountIn(schematic, parts, pos) == |set k | 0 <= k < |parts| && pos in StarsInBox(schematic, parts[k])|
  {
    if parts != [] {
      var init := parts[..|parts| - 1];
      CountInCounts(schematic, init, pos);
      var before := set k | 0 <= k < |init| && pos in StarsInBox(schematic, init[k]);
      var all := set k | 0 <= k < |parts| && pos in StarsInBox(schematic, parts[k]);
      if pos in StarsInBox(schematic, parts[|parts| - 1]) {
        assert all == before + {|parts| - 1};
      } else {
        assert all == before;
      }
    }
  }

  /** The walk over the box of one part, bumping the entry of every '*'
      cell it meets. */
  method AddPart(schematic: seq<string>, gears: map<(int, int), (nat, nat)>, p: Part) returns (gears': map<(int, int), (nat, nat)>)
    ensures gears' == Touched(gears, StarsInBox(schematic, p), p.val)
  {
    gears' := gears;
    assert StarsBefore(schematic, p, p.line - 1, p.col - 1) == {};
    assert Touched(gears, {}, p.val) == gears;
    for row := p.line - 1 to p.line + 2
      invariant gears' == Touched(gears, StarsBefore(schematic, p, row, p.col - 1), p.val)
    {
      gears' := AddRow(schematic, gears', p, row, gears);
    }
  }

  /** One row of the walk over the box. */
  method AddRow(schematic: seq<string>, gears: map<(int, int), (nat, nat)>, p: Part, row: int, ghost base: map<(int, int), (nat, nat)>)
    returns (gears': map<(int, int), (nat, nat)>)
    requires p.line - 1 <= row <= p.line + 1
    requires gears == Touched(base, StarsBefore(schematic, p, row, p.col - 1), p.val)
    ensures gears' == Touched(base, StarsBefore(schematic, p, row + 1, p.col - 1), p.val)
  {
    gears' := gears;
    for col := p.col - 1 to p.col + p.length + 1
      invariant gears' == Touched(base, StarsBefore(schematic, p, row, col), p.val)
    {
      if Cell(schematic, row, col) == Some('*') {
        StarsStep(schematic, p, row, col);
        TouchedStep(base, StarsBefore(schematic, p, row, col), p.val, (row, col));
        gears' := gears'[(row, col) := Bumped(gears', (row, col), p.val)];
      } else {
        StarsSkip(schematic, p, row, col);
      }
    }
    StarsRowDone(schematic, p, row);
  }

  lemma StarsStep(schematic: seq<string>, p: Part, row: int, col: int)
    requires p.line - 1 <= row <= p.line + 1 && p.col - 1 <= col <= p.col + p.length && StarAt(schematic, row, col)
    ensures (row, col) !in StarsBefore(schematic, p, row, col)
    ensures StarsBefore(schematic, p, row, col + 1) == StarsBefore(schematic, p, row, col) + {(row, col)}
  {
  }

  lemma StarsSkip(schematic: seq<string>, p: Part, row: int, col: int)
    requires !StarAt(schematic, row, col)
    ensures StarsBefore(schematic, p, row, col + 1) == StarsBefore(schematic, p, row, col)
  {
  }

  lemma StarsRowDone(schematic: seq<string>, p: Part, row: int)
    ensures StarsBefore(schematic, p, row, p.col + p.length + 1) == StarsBefore(schematic, p, row + 1, p.col - 1)
  {
  }

  /** The loop over the parts, filling the table. */
  method FillGears(schematic: seq<string>, parts: seq<Part>) returns (gears: map<(int, int), (nat, nat)>)
    ensures gears == GearsOf(schematic, parts)
  {
    gears := map[];
    for i := 0 to |parts|
      invariant gears == GearsOf(schematic, parts[..i])
    {
      assert parts[..i + 1][..i] == parts[..i];
      gears := AddPart(schematic, gears, parts[i]);
    }
    assert parts[..|parts|] == parts;
  }

  /** What an entry adds to the answer: its product when exactly two
      numbers touch it. */
  function RatioOf(gears: map<(int, int), (nat, nat)>): ((int, int)) -> int
  {
    pos => if pos in gears && gears[pos].0 == 2 then gears[pos].1 else 0
  }

  /** A '*' cell adds the product of its two numbers when exactly two
      touch it, and nothing otherwise. */
  lemma RatioOfGear(schematic: seq<string>, parts: seq<Part>, pos: (int, int))
    ensures RatioOf(GearsOf(schematic, parts))(pos) ==
      if CountIn(schematic, parts, pos) == 2 then ProdIn(schematic, parts, pos) else 0
  {
    GearsClosed(schematic, parts, pos);
  }

  /** The `filter_map` and `sum` over the table, visiting its entries in
      whatever order the map yields them. */
  method SumRatios(gears: map<(int, int), (nat, nat)>) returns (total: int)
    ensures total == SumOver(gears.Keys, RatioOf(gears))
  {
    var f := RatioOf(gears);
    total := 0;
    var remaining := gears.Keys;
    while remaining != {}
      invariant remaining <= gears.Keys
      invariant total + SumOver(remaining, f) == SumOver(gears.Keys, f)
      decreases remaining
    {
      var pos :| pos in remaining;
      SumOverRemove(remaining, f, pos);
      if gears[pos].0 == 2 {
        total := total + gears[pos].1;
      }
      remaining := remaining - {pos};
    }
  }

  /** The answer: the sum of the gear ratios. */
  ghost function SolutionValue(schematic: seq<string>): Result<int>
  {
    match AllParts(schematic)
    case Ok(parts) => Ok(SumOver(GearsOf(schematic, parts).Keys, RatioOf(GearsOf(schematic, parts))))
    case Panic => Panic
  }

  /** Rust's `solution`. */
  method Solution(schematic: seq<string>) returns (r: Result<int>)
    ensures r == SolutionValue(schematic)
  {
    var parts := FindParts(schematic);
    if parts.Panic? {
      return Panic;
    }
    var gears := FillGears(schematic, parts.value);
    var total := SumRatios(gears);
    r := Ok(total);
  }
}
