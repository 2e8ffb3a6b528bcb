/** Day 11, part two: the same image, but every empty row and column is
    replaced by `expansion_factor` of them. */
module Day11b {
  import opened Common
  import opened Day11a

  /** Part two's coordinate growth: `expansion_factor - 1` extra lines per
      empty line before. */
  function GrowBy(v: nat, empty: set<nat>, factor: nat): nat
    requires factor >= 1
  {
    v + EmptyBefore(empty, v) * (factor - 1)
  }

  function ExpandedBy(g: Galaxy, empty_rows: set<nat>, empty_cols: set<nat>, factor: nat): Galaxy
    requires factor >= 1
  {
    (GrowBy(g.0, empty_rows, factor), GrowBy(g.1, empty_cols, factor))
  }

  /** Factor 1 leaves every coordinate where it is; factor 2 is part one. */
  lemma GrowByOneOrTwo(v: nat, empty: set<nat>)
    ensures GrowBy(v, empty, 1) == v
    ensures GrowBy(v, empty, 2) == Grow(v, empty)
  {
  }

  /** The gap between two lines grows by `factor - 1` for every empty line
      between them, so growth keeps the order of the lines. */
  lemma GrowByGap(empty: set<nat>, a: nat, b: nat, factor: nat)
    requires a <= b && factor >= 1
    ensures GrowBy(b, empty, factor) - GrowBy(a, empty, factor) == (b - a) + |set r | r in empty && a <= r < b| * (factor - 1)
    ensures a < b ==> GrowBy(a, empty, factor) < GrowBy(b, empty, factor)
  {
    EmptyBetween(empty, a, b);
    var m := |set r | r in empty && a <= r < b|;
    assert EmptyBefore(empty, b) * (factor - 1) == EmptyBefore(empty, a) * (factor - 1) + m * (factor - 1);
  }

  function Gap(x: nat, y: nat): nat
  {
    if x >= y then x - y else y - x
  }

  /** One axis of the growth: the gap grows by `factor - 1` per empty line
      between. */
  lemma AxisGap(empty: set<nat>, x: nat, y: nat, factor: nat)
    requires factor >= 1
    ensures Gap(GrowBy(x, empty, factor), GrowBy(y, empty, factor)) == Gap(x, y) + Between(empty, x, y) * (factor - 1)
  {
    if x <= y { GrowByGap(empty, x, y, factor); } else { GrowByGap(empty, y, x, factor); }
  }

  /** After growth, the distance of two galaxies is their distance in the
      image plus `factor - 1` for every empty row and column between them. */
  lemma ExpandedByDistance(a: Galaxy, b: Galaxy, empty_rows: set<nat>, empty_cols: set<nat>, factor: nat)
    requires factor >= 1
    ensures Distance(ExpandedBy(a, empty_rows, empty_cols, factor), ExpandedBy(b, empty_rows, empty_cols, factor))
      == Distance(a, b) + (Between(empty_rows, a.0, b.0) + Between(empty_cols, a.1, b.1)) * (factor - 1)
  {
    var ea, eb := ExpandedBy(a, empty_rows, empty_cols, factor), ExpandedBy(b, empty_rows, empty_cols, factor);
    AxisGap(empty_rows, a.0, b.0, factor);
    AxisGap(empty_cols, a.1, b.1, factor);
    assert Distance(ea, eb) == Gap(ea.0, eb.0) + Gap(ea.1, eb.1);
    assert Distance(a, b) == Gap(a.0, b.0) + Gap(a.1, b.1);
    Distribute(Between(empty_rows, a.0, b.0), Between(empty_cols, a.1, b.1), factor - 1);
  }

  lemma Distribute(x: nat, y: nat, k: nat)
    ensures (x + y) * k == x * k + y * k
  {
  }

  /** The in-place growth with the factor; `expansion_factor - 1`
      underflows, and panics, for factor 0 as soon as there is a galaxy. */
  method ExpandAllBy(galaxies: seq<Galaxy>, empty_rows: set<nat>, empty_cols: set<nat>, factor: nat) returns (r: Result<seq<Galaxy>>)
    ensures r.Panic? <==> factor == 0 && galaxies != []
    ensures r.Ok? && factor >= 1 ==> |r.value| == |galaxies|
    ensures r.Ok? && factor >= 1 ==> forall i :: 0 <= i < |galaxies| ==> r.value[i] == ExpandedBy(galaxies[i], empty_rows, empty_cols, factor)
    ensures r.Ok? && factor == 0 ==> r.value == []
  {
    var expanded := galaxies;
    for i := 0 to |expanded|
      invariant |expanded| == |galaxies|
      invariant i > 0 ==> factor >= 1
      invariant forall k :: 0 <= k < |galaxies| ==> expanded[k] == if k < i then ExpandedBy(galaxies[k], empty_rows, empty_cols, factor) else galaxies[k]
    {
      if factor == 0 {
        return Panic;
      }
      var (row, col) := expanded[i];
      var empty_rows_before := |set r | r in empty_rows && r < row|;
      var empty_cols_before := |set c | c in empty_cols && c < col|;
      expanded := expanded[i := (row + empty_rows_before * (factor - 1), col + empty_cols_before * (factor - 1))];
    }
    r := Ok(expanded);
  }

  /** The expanded galaxies of the image for a factor of at least 1. */
  ghost function ExpandedGalaxiesBy(lines: seq<string>, factor: nat): seq<Galaxy>
    requires lines != [] && factor >= 1
  {
    var gs := Galaxies(lines);
    var rows := Upto(|lines|) - Rows(gs);
    var cols := Upto(|lines[0]|) - Cols(gs);
    seq(|gs|, i requires 0 <= i < |gs| => ExpandedBy(gs[i], rows, cols, factor))
  }

  /** With factor 2 the expansion is that of part one. */
  lemma FactorTwo(lines: seq<string>)
    requires lines != []
    ensures ExpandedGalaxiesBy(lines, 2) == ExpandedGalaxies(lines)
  {
  }

  /** With factor 1 nothing moves. */
  lemma FactorOne(lines: seq<string>)
    requires lines != []
    ensures ExpandedGalaxiesBy(lines, 1) == Galaxies(lines)
  {
  }

  /** Rust's `solution` for part two. */
  method Solution(lines: seq<string>, expansion_factor: nat) returns (r: Result<nat>)
    ensures r.Panic? <==> lines == [] || (expansion_factor == 0 && Galaxies(lines) != [])
    ensures r.Ok? && expansion_factor >= 1 ==> r.value == PairSum(ExpandedGalaxiesBy(lines, expansion_factor), |Galaxies(lines)|)
    ensures r.Ok? && expansion_factor == 0 ==> r.value == 0
  {
    if lines == [] {
      return Panic;
    }
    var galaxies := Galaxies(lines);
    var num_rows := |lines|;
    var num_cols := |lines[0]|;
    var empty_rows, empty_cols := EmptyLines(galaxies, num_rows, num_cols);
    var expanded := ExpandAllBy(galaxies, empty_rows, empty_cols, expansion_factor);
    if expanded.Panic? {
      return Panic;
    }
    if expansion_factor >= 1 {
      assert expanded.value == ExpandedGalaxiesBy(lines, expansion_factor);
    }
    var total := TotalDistance(expanded.value);
    r := Ok(total);
  }
}
