/** Day 11, part one: galaxies ('#') in an image of space. Every row and
    every column without a galaxy is doubled; the answer is the sum of the
    Manhattan distances over all pairs of galaxies after the expansion. */
module Day11a {
  import opened Common

  /** A galaxy as (row, column). */
  type Galaxy = (nat, nat)

  /** The galaxies of one line, left to right: every cell that is not '.'. */
  function RowGalaxies(line: string, y: nat): seq<Galaxy>
  {
    if line == [] then []
    else RowGalaxies(line[..|line| - 1], y) + (if line[|line| - 1] != '.' then [(y, |line| - 1)] else [])
  }

  /** The `flat_map` over the lines: the galaxies in reading order. */
  function Galaxies(lines: seq<string>): seq<Galaxy>
  {
    if lines == [] then []
    else Galaxies(lines[..|lines| - 1]) + RowGalaxies(lines[|lines| - 1], |lines| - 1)
  }

  predicate IsGalaxy(lines: seq<string>, g: Galaxy)
  {
    g.0 < |lines| && g.1 < |lines[g.0]| && lines[g.0][g.1] != '.'
  }

  /** Reading order: by row, then by column. */
  predicate Precedes(a: Galaxy, b: Galaxy)
  {
    a.0 < b.0 || (a.0 == b.0 && a.1 < b.1)
  }

  predicate InReadingOrder(gs: seq<Galaxy>)
  {
    forall i, j :: 0 <= i < j < |gs| ==> Precedes(gs[i], gs[j])
  }

  lemma {:induction false} RowGalaxiesExact(line: string, y: nat)
    ensures forall g :: g in RowGalaxies(line, y) <==> g.0 == y && g.1 < |line| && line[g.1] != '.'
    ensures InReadingOrder(RowGalaxies(line, y))
  {
    if line != [] {
      var init := line[..|line| - 1];
      RowGalaxiesExact(init, y);
      forall g: Galaxy | g.0 == y && g.1 < |init| && init[g.1] != '.'
        ensures line[g.1] != '.'
      {
        assert init[g.1] == line[g.1];
      }
      var r := RowGalaxies(line, y);
      var front := RowGalaxies(init, y);
      assert r == front + (if line[|line| - 1] != '.' then [(y, |line| - 1)] else []);
      forall i, j | 0 <= i < j < |r|
        ensures Precedes(r[i], r[j])
      {
        if j >= |front| {
          assert r[i] in front;
        }
      }
    }
  }

  /** Exactly the cells that are not '.' are galaxies, listed in reading
      order. */
  lemma {:induction false} GalaxiesExact(lines: seq<string>)
    ensures forall g :: g in Galaxies(lines) <==> IsGalaxy(lines, g)
    ensures InReadingOrder(Galaxies(lines))
  {
    if lines != [] {
      var n := |lines| - 1;
      var init := lines[..n];
      GalaxiesExact(init);
      RowGalaxiesExact(lines[n], n);
      forall g: Galaxy | IsGalaxy(init, g)
        ensures IsGalaxy(lines, g)
      {
        assert init[g.0] == lines[g.0];
      }
      forall g: Galaxy | IsGalaxy(lines, g) && g.0 < n
        ensures IsGalaxy(init, g)
      {
        assert init[g.0] == lines[g.0];
      }
      var r := Galaxies(lines);
      var front := Galaxies(init);
      forall i, j | 0 <= i < j < |r|
        ensures Precedes(r[i], r[j])
      {
        if i < |front| && j >= |front| {
          assert r[i] in front && IsGalaxy(init, r[i]);
          assert r[j] in RowGalaxies(lines[n], n);
        } else if i >= |front| {
          assert r[i] == RowGalaxies(lines[n], n)[i - |front|];
          assert r[j] == RowGalaxies(lines[n], n)[j - |front|];
        }
      }
    }
  }

  /** `(0..n).collect()`. */
  function Upto(n: nat): (s: set<nat>)
    ensures forall r: nat :: r in s <==> r < n
  {
    if n == 0 then {} else Upto(n - 1) + {n - 1}
  }

  function Rows(gs: seq<Galaxy>): set<nat>
  {
    set g | g in gs :: g.0
  }

  function Cols(gs: seq<Galaxy>): set<nat>
  {
    set g | g in gs :: g.1
  }

  /** The empty rows and columns: `(0..n).collect()` and then one removal
      per galaxy. Only the width of the first line counts. */
  method EmptyLines(galaxies: seq<Galaxy>, num_rows: nat, num_cols: nat) returns (empty_rows: set<nat>, empty_cols: set<nat>)
    ensures empty_rows == Upto(num_rows) - Rows(galaxies) && empty_cols == Upto(num_cols) - Cols(galaxies)
    ensures forall r: nat :: r in empty_rows <==> r < num_rows && forall g :: g in galaxies ==> g.0 != r
    ensures forall c: nat :: c in empty_cols <==> c < num_cols && forall g :: g in galaxies ==> g.1 != c
  {
    empty_rows := Upto(num_rows);
    empty_cols := Upto(num_cols);
    for i := 0 to |galaxies|
      invariant empty_rows == Upto(num_rows) - Rows(galaxies[..i])
      invariant empty_cols == Upto(num_cols) - Cols(galaxies[..i])
    {
      assert galaxies[..i + 1] == galaxies[..i] + [galaxies[i]];
      assert Rows(galaxies[..i + 1]) == Rows(galaxies[..i]) + {galaxies[i].0};
      assert Cols(galaxies[..i + 1]) == Cols(galaxies[..i]) + {galaxies[i].1};
      empty_rows := empty_rows - {galaxies[i].0};
      empty_cols := empty_cols - {galaxies[i].1};
    }
    assert galaxies[..|galaxies|] == galaxies;
  }

  /** The number of empty lines strictly before index v. */
  function EmptyBefore(empty: set<nat>, v: nat): nat
  {
    |set r | r in empty && r < v|
  }

  /** Part one's coordinate growth: one extra line per empty line before. */
  function Grow(v: nat, empty: set<nat>): nat
  {
    v + EmptyBefore(empty, v)
  }

  /** Expanded position of a galaxy. */
  function Expanded(g: Galaxy, empty_rows: set<nat>, empty_cols: set<nat>): Galaxy
  {
    (Grow(g.0, empty_rows), Grow(g.1, empty_cols))
  }

  /** The empty lines before b are those before a and those from a up to
      b. */
  lemma EmptyBetween(empty: set<nat>, a: nat, b: nat)
    requires a <= b
    ensures EmptyBefore(empty, b) == EmptyBefore(empty, a) + |set r | r in empty && a <= r < b|
  {
    var lo := set r | r in empty && r < a;
    var mid := set r | r in empty && a <= r < b;
    assert (set r | r in empty && r < b) == lo + mid;
    assert lo !! mid;
  }

  /** In the expanded image, the gap between two lines grows by one for
      every empty line between them; in particular growth keeps the order
      of the lines strictly. */
  lemma GrowGap(empty: set<nat>, a: nat, b: nat)
    requires a <= b
    ensures Grow(b, empty) - Grow(a, empty) == (b - a) + |set r | r in empty && a <= r < b|
    ensures a < b ==> Grow(a, empty) < Grow(b, empty)
  {
    EmptyBetween(empty, a, b);
  }

  /** The `iter_mut().for_each` that grows every galaxy in place. */
  method ExpandAll(galaxies: seq<Galaxy>, empty_rows: set<nat>, empty_cols: set<nat>) returns (expanded: seq<Galaxy>)
    ensures |expanded| == |galaxies|
    ensures forall i :: 0 <= i < |galaxies| ==> expanded[i] == Expanded(galaxies[i], empty_rows, empty_cols)
  {
    expanded := galaxies;
    for i := 0 to |expanded|
      invariant |expanded| == |galaxies|
      invariant forall k :: 0 <= k < |galaxies| ==> expanded[k] == if k < i then Expanded(galaxies[k], empty_rows, empty_cols) else galaxies[k]
    {
      var (row, col) := expanded[i];
      var empty_rows_before := |set r | r in empty_rows && r < row|;
      var empty_cols_before := |set c | c in empty_cols && c < col|;
      expanded := expanded[i := (row + empty_rows_before, col + empty_cols_before)];
    }
  }

  /** `abs_diff` on both coordinates. */
  function Distance(a: Galaxy, b: Galaxy): (d: nat)
    ensures d == 0 <==> a == b
  {
    (if a.0 >= b.0 then a.0 - b.0 else b.0 - a.0) + (if a.1 >= b.1 then a.1 - b.1 else b.1 - a.1)
  }

  /** Distances from galaxy i to galaxies lo, ..., hi - 1. */
  function DistancesTo(gs: seq<Galaxy>, i: nat, lo: nat, hi: nat): nat
    requires i < |gs| && hi <= |gs|
    decreases hi
  {
    if hi <= lo then 0 else DistancesTo(gs, i, lo, hi - 1) + Distance(gs[i], gs[hi - 1])
  }

  /** The sum of the distances over the pairs i <= j with i < n. */
  function PairSum(gs: seq<Galaxy>, n: nat): nat
    requires n <= |gs|
  {
    if n == 0 then 0 else PairSum(gs, n - 1) + DistancesTo(gs, n - 1, n - 1, |gs|)
  }

  /** The sum over unordered pairs of distinct indices, i < j: the `j in
      i..` loop also visits i == j, which adds nothing. */
  function StrictPairSum(gs: seq<Galaxy>, n: nat): nat
    requires n <= |gs|
  {
    if n == 0 then 0 else StrictPairSum(gs, n - 1) + DistancesTo(gs, n - 1, n, |gs|)
  }

  lemma {:induction false} SkipSelf(gs: seq<Galaxy>, i: nat, hi: nat)
    requires i < hi <= |gs|
    ensures DistancesTo(gs, i, i, hi) == DistancesTo(gs, i, i + 1, hi)
    decreases hi
  {
    if hi > i + 1 {
      SkipSelf(gs, i, hi - 1);
    }
  }

  lemma {:induction false} PairSumStrict(gs: seq<Galaxy>, n: nat)
    requires n <= |gs|
    ensures PairSum(gs, n) == StrictPairSum(gs, n)
  {
    if n > 0 {
      PairSumStrict(gs, n - 1);
      SkipSelf(gs, n - 1, |gs|);
    }
  }

  /** The empty lines between two indices, whichever comes first. */
  function Between(empty: set<nat>, a: nat, b: nat): nat
  {
    if a <= b then |set r | r in empty && a <= r < b| else |set r | r in empty && b <= r < a|
  }

  /** After growth, the distance of two galaxies is their distance in the
      image plus one for every empty row and every empty column between
      them. */
  lemma ExpandedDistance(a: Galaxy, b: Galaxy, empty_rows: set<nat>, empty_cols: set<nat>)
    ensures Distance(Expanded(a, empty_rows, empty_cols), Expanded(b, empty_rows, empty_cols))
      == Distance(a, b) + Between(empty_rows, a.0, b.0) + Between(empty_cols, a.1, b.1)
  {
    if a.0 <= b.0 { GrowGap(empty_rows, a.0, b.0); } else { GrowGap(empty_rows, b.0, a.0); }
    if a.1 <= b.1 { GrowGap(empty_cols, a.1, b.1); } else { GrowGap(empty_cols, b.1, a.1); }
  }

  /** The nested loops accumulating `total_distance`. */
  method TotalDistance(galaxies: seq<Galaxy>) returns (total_distance: nat)
    ensures total_distance == PairSum(galaxies, |galaxies|)
  {
    total_distance := 0;
    for i := 0 to |galaxies|
      invariant total_distance == PairSum(galaxies, i)
    {
      ghost var row_start := total_distance;
      for j := i to |galaxies|
        invariant total_distance == row_start + DistancesTo(galaxies, i, i, j)
      {
        var a := galaxies[i];
        var b := galaxies[j];
        total_distance := total_distance + Distance(a, b);
      }
    }
  }

  /** The expanded galaxies of the image, the empty lines taken from the
      galaxies parsed and the width of the first line. */
  ghost function ExpandedGalaxies(lines: seq<string>): seq<Galaxy>
    requires lines != []
  {
    var gs := Galaxies(lines);
    var rows := Upto(|lines|) - Rows(gs);
    var cols := Upto(|lines[0]|) - Cols(gs);
    seq(|gs|, i requires 0 <= i < |gs| => Expanded(gs[i], rows, cols))
  }

  /** Rust's `solution`: galaxies, empty lines, growth, pairwise sum; an
      empty input panics on the first line's `unwrap`. */
  method Solution(lines: seq<string>) returns (r: Result<nat>)
    ensures r.Panic? <==> lines == []
    ensures r.Ok? ==> r.value == PairSum(ExpandedGalaxies(lines), |Galaxies(lines)|)
  {
    if lines == [] {
      return Panic;
    }
    var galaxies := Galaxies(lines);
    var num_rows := |lines|;
    var num_cols := |lines[0]|;
    var empty_rows, empty_cols := EmptyLines(galaxies, num_rows, num_cols);
    galaxies := ExpandAll(galaxies, empty_rows, empty_cols);
    assert galaxies == ExpandedGalaxies(lines);
    var total := TotalDistance(galaxies);
    r := Ok(total);
  }
}
