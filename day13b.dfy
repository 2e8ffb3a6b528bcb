/** Day 13, part two: every block has one smudge, a cell whose change moves
    the line of reflection. The search of part one gains a budget of one
    differing bit per candidate, and a line equal to the one found without
    smudges, in the same orientation, is passed over. */
module Day13b {
  import opened Common
  import Day13a

  // ---------------------------------------------------------------------
  // Differing bits

  /** `(a ^ b).count_ones()`: the number of binary digits in which `a` and
      `b` differ. */
  function PopXor(a: nat, b: nat): nat
    decreases a + b
  {
    if a == 0 && b == 0 then 0
    else (if a % 2 != b % 2 then 1 else 0) + PopXor(a / 2, b / 2)
  }

  /** No differing bit exactly when the numbers are equal. */
  lemma {:induction false} PopXorZero(a: nat, b: nat)
    ensures PopXor(a, b) == 0 <==> a == b
    decreases a + b
  {
    if !(a == 0 && b == 0) {
      PopXorZero(a / 2, b / 2);
      if a % 2 == b % 2 && a / 2 == b / 2 {
        DivModUnique(a, 2, a / 2, a % 2);
        DivModUnique(b, 2, b / 2, b % 2);
      }
    }
  }

  lemma {:induction false} PopXorSymmetric(a: nat, b: nat)
    ensures PopXor(a, b) == PopXor(b, a)
    decreases a + b
  {
    if !(a == 0 && b == 0) {
      PopXorSymmetric(a / 2, b / 2);
    }
  }

  /** The number of cells in which two lines differ in being a rock. */
  function Differing(x: string, y: string): nat
    requires |x| == |y|
  {
    if x == [] then 0
    else Differing(x[..|x| - 1], y[..|y| - 1]) + (if Day13a.Bit(x[|x| - 1]) != Day13a.Bit(y[|y| - 1]) then 1 else 0)
  }

  /** The differing bits of two line numbers are the differing cells of
      the two lines, so one differing bit is one smudge. */
  lemma {:induction false} PopXorCounts(x: string, y: string)
    requires |x| == |y|
    ensures PopXor(Day13a.Hash(x), Day13a.Hash(y)) == Differing(x, y)
  {
    if x != [] {
      var n := |x| - 1;
      var hx, hy := Day13a.Hash(x), Day13a.Hash(y);
      PopXorCounts(x[..n], y[..n]);
      DivModUnique(hx, 2, Day13a.Hash(x[..n]), Day13a.Bit(x[n]));
      DivModUnique(hy, 2, Day13a.Hash(y[..n]), Day13a.Bit(y[n]));
      assert !(hx == 0 && hy == 0) || Day13a.Bit(x[n]) == Day13a.Bit(y[n]);
      if hx == 0 && hy == 0 {
        assert PopXor(hx / 2, hy / 2) == 0;
      }
    }
  }

  // ---------------------------------------------------------------------
  // Smudge-tolerant offset palindromes

  /** The differing bits of the outermost `u` pairs of the suffix from `s`:
      `items[s + t]` against `items[len - 1 - t]` for `t < u`. */
  function Spent(items: seq<nat>, s: nat, u: nat): nat
    requires s + u <= |items| && u <= |items|
  {
    if u == 0 then 0 else Spent(items, s, u - 1) + PopXor(items[s + u - 1], items[|items| - u])
  }

  /** The suffix from `s` is an even palindrome (of at least two items) up
      to `budget` differing bits in all. */
  predicate Accepts(items: seq<nat>, s: nat, budget: nat)
  {
    s + 2 <= |items| && (|items| - s) % 2 == 0 && Spent(items, s, (|items| - s) / 2) <= budget
  }

  /** The only candidates `detect_offset_palindrome` rejects outright: with
      smudges allowed, an axis equal to a non-zero `ignore_num`. */
  predicate Ignored(items: seq<nat>, s: nat, allow_smudges: bool, ignore_num: nat)
  {
    allow_smudges && ignore_num != 0 && (s + |items|) / 2 == ignore_num
  }

  function Budget(allow_smudges: bool): nat
  {
    if allow_smudges then 1 else 0
  }

  /** The axis of the first accepted and not ignored suffix from `from` on. */
  function Axis(items: seq<nat>, allow_smudges: bool, ignore_num: nat, from: nat): Option<nat>
    decreases |items| - from
  {
    if from + 2 > |items| then None
    else if Accepts(items, from, Budget(allow_smudges)) && !Ignored(items, from, allow_smudges, ignore_num) then Some((from + |items|) / 2)
    else Axis(items, allow_smudges, ignore_num, from + 1)
  }

  /** A line found is the axis of an accepted, not ignored suffix from
      `from` on, and lies in the second half of the sequence. */
  lemma {:induction false} AxisSound(items: seq<nat>, allow_smudges: bool, ignore_num: nat, from: nat)
    ensures Axis(items, allow_smudges, ignore_num, from).Some? ==>
      exists s :: from <= s && Accepts(items, s, Budget(allow_smudges)) && !Ignored(items, s, allow_smudges, ignore_num)
        && Axis(items, allow_smudges, ignore_num, from).value == (s + |items|) / 2
    ensures Axis(items, allow_smudges, ignore_num, from).Some? ==>
      |items| <= 2 * Axis(items, allow_smudges, ignore_num, from).value < 2 * |items|
    decreases |items| - from
  {
    if from + 2 <= |items| && !(Accepts(items, from, Budget(allow_smudges)) && !Ignored(items, from, allow_smudges, ignore_num)) {
      AxisSound(items, allow_smudges, ignore_num, from + 1);
    }
  }

  /** No suffix that qualifies is passed over. */
  lemma {:induction false} AxisLeast(items: seq<nat>, allow_smudges: bool, ignore_num: nat, from: nat, s: nat)
    requires from <= s && Accepts(items, s, Budget(allow_smudges)) && !Ignored(items, s, allow_smudges, ignore_num)
    ensures Axis(items, allow_smudges, ignore_num, from).Some?
    ensures Axis(items, allow_smudges, ignore_num, from).value <= (s + |items|) / 2
    decreases |items| - from
  {
    if from < s && !(Accepts(items, from, Budget(allow_smudges)) && !Ignored(items, from, allow_smudges, ignore_num)) {
      AxisLeast(items, allow_smudges, ignore_num, from + 1, s);
    }
  }

  /** The outer `u` pairs of the suffix from `s` are equal. */
  predicate PairsEqual(items: seq<nat>, s: nat, u: nat)
  {
    forall a, b :: s <= a < s + u && s <= b < |items| && a + b == s + |items| - 1 ==> items[a] == items[b]
  }

  /** No differing bit in the outer pairs is equality of those pairs. */
  lemma {:induction false} SpentZero(items: seq<nat>, s: nat, u: nat)
    requires s + 2 * u <= |items|
    ensures Spent(items, s, u) == 0 <==> PairsEqual(items, s, u)
  {
    if u > 0 {
      SpentZero(items, s, u - 1);
      PopXorZero(items[s + u - 1], items[|items| - u]);
      PairsStep(items, s, u);
    }
  }

  lemma PairsStep(items: seq<nat>, s: nat, u: nat)
    requires 0 < u && s + 2 * u <= |items|
    ensures PairsEqual(items, s, u) <==> PairsEqual(items, s, u - 1) && items[s + u - 1] == items[|items| - u]
  {
    if PairsEqual(items, s, u - 1) && items[s + u - 1] == items[|items| - u] {
      forall a, b | s <= a < s + u && s <= b < |items| && a + b == s + |items| - 1
        ensures items[a] == items[b]
      {
        if a == s + u - 1 {
          assert b == |items| - u;
        }
      }
    }
  }

  /** Without smudges a suffix is accepted exactly when it mirrors. */
  lemma AcceptsExactly(items: seq<nat>, s: nat)
    ensures Accepts(items, s, 0) <==> Day13a.Mirrored(items, s)
  {
    var n := |items|;
    if s + 2 <= n && (n - s) % 2 == 0 {
      var m := (n - s) / 2;
      SpentZero(items, s, m);
      assert PairsEqual(items, s, m) <==> Day13a.Mirrored(items, s);
    }
  }

  /** With smudges off the search is part one's: bit-identical pairs, and
      `ignore_num` never consulted. */
  lemma {:induction false} NoSmudges(items: seq<nat>, ignore_num: nat, from: nat)
    ensures Axis(items, false, ignore_num, from) == Day13a.Axis(items, from)
    decreases |items| - from
  {
    if from + 2 <= |items| {
      AcceptsExactly(items, from);
      NoSmudges(items, ignore_num, from + 1);
    }
  }

  /** The examples of the tests, with smudges off: a palindrome, an
      offset palindrome and none. */
  lemma ExampleEven()
    ensures Axis([3, 2, 2, 3], false, 0, 0) == Some(2)
  {
    Day13a.Examples();
    NoSmudges([3, 2, 2, 3], 0, 0);
  }

  lemma ExampleOffset()
    ensures Axis([3, 2, 3, 2, 2, 3], false, 0, 0) == Some(4)
  {
    Day13a.Examples();
    NoSmudges([3, 2, 3, 2, 2, 3], 0, 0);
  }

  lemma ExampleNone()
    ensures Axis([3, 2, 3, 2, 3], false, 0, 0) == None
  {
    Day13a.Examples();
    NoSmudges([3, 2, 3, 2, 3], 0, 0);
  }

  /** One differing bit: a smudge, accepted only when smudges are allowed,
      and passed over when its line is the one to ignore. */
  lemma ExampleSmudge()
    ensures PopXor(3, 2) == 1
    ensures Axis([3, 2], true, 0, 0) == Some(1)
    ensures Axis([3, 2], false, 0, 0) == None
    ensures Axis([3, 2], true, 1, 0) == None
  {
    assert PopXor(1, 1) == 0;
  }

  /** A longer walk has spent at least as much. */
  lemma {:induction false} SpentGrows(items: seq<nat>, s: nat, u: nat, w: nat)
    requires u <= w && s + w <= |items| && w <= |items|
    ensures Spent(items, s, u) <= Spent(items, s, w)
    decreases w - u
  {
    if u < w {
      SpentGrows(items, s, u, w - 1);
    }
  }

  /** The pointers of one candidate: `i` and `j` have each moved the same
      number of steps, and the budget left is the budget less what the
      pairs passed used. */
  ghost predicate Walked(items: seq<nat>, start: nat, i: int, j: int, left: nat, budget: nat)
  {
    start <= i <= j + 1 && j < |items| && i - start == |items| - 1 - j
    && i - start <= |items| && Spent(items, start, i - start) + left == budget
  }

  /** `detect_offset_palindrome` with smudges: `smudge_count` is set to 1
      when smudges are allowed, to 0 otherwise, for every candidate start,
      and a pair that differs in one bit uses it up. */
  method DetectOffsetPalindrome(items: seq<nat>, allow_smudges: bool, ignore_num: nat) returns (r: Result<Option<nat>>)
    ensures r.Panic? <==> items == []
    ensures r.Ok? ==> r.value == Axis(items, allow_smudges, ignore_num, 0)
  {
    if |items| == 0 {
      return Panic;
    }
    var n := |items|;
    var smudge_count := if allow_smudges then 1 else 0;
    var i_start := 0;
    var j := n - 1;
    while PopXor(items[i_start], items[j]) > smudge_count && i_start < j
      invariant 0 <= i_start <= j == n - 1 && smudge_count == Budget(allow_smudges)
      invariant Axis(items, allow_smudges, ignore_num, 0) == Axis(items, allow_smudges, ignore_num, i_start)
      decreases j - i_start
    {
      OuterPairTooFar(items, i_start, smudge_count);
      AxisSkip(items, allow_smudges, ignore_num, i_start);
      i_start := i_start + 1;
    }
    if i_start == j {
      AxisEnd(items, allow_smudges, ignore_num, i_start);
      return Ok(None);
    }
    while i_start < j
      invariant j == n - 1 && 0 <= i_start <= j && smudge_count == Budget(allow_smudges)
      invariant Axis(items, allow_smudges, ignore_num, 0) == Axis(items, allow_smudges, ignore_num, i_start)
      decreases j - i_start
    {
      var i;
      i, j, smudge_count := Walk(items, i_start, smudge_count);
      if i > j && (!allow_smudges || (ignore_num == 0 || i != ignore_num)) {
        Crossed(items, i_start, i, smudge_count, Budget(allow_smudges));
        AxisFound(items, allow_smudges, ignore_num, i_start);
        return Ok(Some(i));
      }
      if i > j {
        Crossed(items, i_start, i, smudge_count, Budget(allow_smudges));
      } else {
        Stopped(items, i_start, i, j, smudge_count, Budget(allow_smudges));
      }
      AxisSkip(items, allow_smudges, ignore_num, i_start);
      j := n - 1;
      i_start := i_start + 1;
      smudge_count := if allow_smudges then 1 else 0;
    }
    AxisEnd(items, allow_smudges, ignore_num, i_start);
    return Ok(None);
  }

  /** The inner loop: `i` up and `j` down while the pair differs in no
      more bits than the budget left, a differing bit using it up. */
  method Walk(items: seq<nat>, start: nat, budget: nat) returns (i: int, j: int, left: nat)
    requires start + 1 < |items| && budget <= 1
    ensures Walked(items, start, i, j, left, budget)
    ensures i == j + 1 || (i <= j && (i == j || PopXor(items[i], items[j]) > left))
  {
    i, j, left := start, |items| - 1, budget;
    while PopXor(items[i], items[j]) <= left && i < j
      invariant Walked(items, start, i, j, left, budget) && left <= 1
      decreases j - i
    {
      if PopXor(items[i], items[j]) == 1 {
        left := 0;
      }
      i := i + 1;
      j := j - 1;
    }
  }

  /** A start that is not accepted, or whose line is ignored, is skipped. */
  lemma AxisSkip(items: seq<nat>, allow_smudges: bool, ignore_num: nat, from: nat)
    requires from + 2 <= |items|
    requires !Accepts(items, from, Budget(allow_smudges)) || Ignored(items, from, allow_smudges, ignore_num)
    ensures Axis(items, allow_smudges, ignore_num, from) == Axis(items, allow_smudges, ignore_num, from + 1)
  {
  }

  lemma AxisEnd(items: seq<nat>, allow_smudges: bool, ignore_num: nat, from: nat)
    requires from + 2 > |items|
    ensures Axis(items, allow_smudges, ignore_num, from) == None
  {
  }

  /** The outermost pair alone needs more than the budget. */
  lemma OuterPairTooFar(items: seq<nat>, s: nat, budget: nat)
    requires s + 1 < |items| && PopXor(items[s], items[|items| - 1]) > budget
    ensures !Accepts(items, s, budget)
  {
    if s + 2 <= |items| && (|items| - s) % 2 == 0 {
      SpentGrows(items, s, 1, (|items| - s) / 2);
    }
  }

  lemma AxisFound(items: seq<nat>, allow_smudges: bool, ignore_num: nat, from: nat)
    requires Accepts(items, from, Budget(allow_smudges)) && !Ignored(items, from, allow_smudges, ignore_num)
    ensures Axis(items, allow_smudges, ignore_num, from) == Some((from + |items|) / 2)
  {
  }

  /** The pointers crossed: the suffix is accepted, with the axis at `i`. */
  lemma Crossed(items: seq<nat>, start: nat, i: int, left: nat, budget: nat)
    requires Walked(items, start, i, i - 1, left, budget) && start < i
    ensures Accepts(items, start, budget) && i == (start + |items|) / 2
  {
  }

  /** The pointers stopped before crossing: the suffix is odd, or the pair
      they stopped at needs more than the budget left. */
  lemma Stopped(items: seq<nat>, start: nat, i: int, j: int, left: nat, budget: nat)
    requires Walked(items, start, i, j, left, budget) && i <= j
    requires i == j || PopXor(items[i], items[j]) > left
    ensures !Accepts(items, start, budget)
  {
    var n := |items|;
    if i < j && (n - start) % 2 == 0 {
      var u := i - start;
      assert Spent(items, start, u + 1) > budget;
      SpentGrows(items, start, u + 1, (n - start) / 2);
    }
  }

  // ---------------------------------------------------------------------
  // Choosing the smudged line

  datatype DetectedBy = Rows | RowsReversed | Cols | ColsReversed

  /** `to_check`, in the order it is searched. */
  const Orientations: seq<DetectedBy> := [Rows, RowsReversed, Cols, ColsReversed]

  function Data(dir: DetectedBy, rows: seq<nat>, cols: seq<nat>): seq<nat>
  {
    match dir
    case Rows => rows
    case RowsReversed => Reverse(rows)
    case Cols => cols
    case ColsReversed => Reverse(cols)
  }

  /** The score of a line found in one orientation. */
  function Scored(dir: DetectedBy, num: nat, data: seq<nat>): nat
  {
    match dir
    case Rows => num * 100
    case RowsReversed => (if num <= |data| then |data| - num else 0) * 100
    case Cols => num
    case ColsReversed => if num <= |data| then |data| - num else 0
  }

  /** The first orientation from `from` on whose smudgeless search finds a
      line, with that line; none at all fails the `expect`, and an empty
      sequence underflows. */
  function Smudgeless(rows: seq<nat>, cols: seq<nat>, from: nat): (r: Result<(DetectedBy, nat)>)
    requires from <= 4
    decreases 4 - from
  {
    if from == 4 then Panic
    else
      var data := Data(Orientations[from], rows, cols);
      if data == [] then Panic
      else match Axis(data, false, 0, 0)
        case Some(num) => Ok((Orientations[from], num))
        case None => Smudgeless(rows, cols, from + 1)
  }

  /** The first orientation from `from` on whose smudged search finds a
      line other than the smudgeless one, with its score. */
  function Smudged(rows: seq<nat>, cols: seq<nat>, dir: DetectedBy, num: nat, from: nat): (r: Result<nat>)
    requires from <= 4
    decreases 4 - from
  {
    if from == 4 then Panic
    else
      var here := Orientations[from];
      var data := Data(here, rows, cols);
      if data == [] then Panic
      else match Axis(data, true, if here == dir then num else 0, 0)
        case Some(found) =>
          if here == dir && found == num then Smudged(rows, cols, dir, num, from + 1)
          else Ok(Scored(here, found, data))
        case None => Smudged(rows, cols, dir, num, from + 1)
  }

  function BlockScore(rows: seq<nat>, cols: seq<nat>): Result<nat>
  {
    match Smudgeless(rows, cols, 0)
    case Panic => Panic
    case Ok((dir, num)) => Smudged(rows, cols, dir, num, 0)
  }

  /** Orientation `o` holds a smudged line other than the smudgeless one,
      and `score` is its score. */
  predicate SmudgedIn(rows: seq<nat>, cols: seq<nat>, dir: DetectedBy, num: nat, o: nat, score: nat)
  {
    o < 4
    && var here := Orientations[o];
    var data := Data(here, rows, cols);
    var found := Axis(data, true, if here == dir then num else 0, 0);
    data != [] && found.Some? && (here == dir ==> found.value != num)
    && score == Scored(here, found.value, data)
  }

  /** A line found by the smudged search lies in the first orientation from
      `from` on whose smudge-tolerant search finds a line other than the
      smudgeless one. */
  lemma {:induction false} SmudgedLine(rows: seq<nat>, cols: seq<nat>, dir: DetectedBy, num: nat, from: nat)
    requires from <= 4 && Smudged(rows, cols, dir, num, from).Ok?
    ensures exists o :: from <= o && SmudgedIn(rows, cols, dir, num, o, Smudged(rows, cols, dir, num, from).value)
    decreases 4 - from
  {
    var here := Orientations[from];
    var data := Data(here, rows, cols);
    var ignore := if here == dir then num else 0;
    if Axis(data, true, ignore, 0).Some? && !(here == dir && Axis(data, true, ignore, 0).value == num) {
      assert SmudgedIn(rows, cols, dir, num, from, Smudged(rows, cols, dir, num, from).value);
    } else {
      SmudgedLine(rows, cols, dir, num, from + 1);
    }
  }

  /** The smudgeless line is a line of reflection of its orientation's
      sequence, in the sense of part one, and is never 0. */
  lemma {:induction false} SmudgelessLine(rows: seq<nat>, cols: seq<nat>, from: nat)
    requires from <= 4 && Smudgeless(rows, cols, from).Ok?
    ensures Day13a.ReflectsAt(Data(Smudgeless(rows, cols, from).value.0, rows, cols), Smudgeless(rows, cols, from).value.1)
    ensures Smudgeless(rows, cols, from).value.1 != 0
    decreases 4 - from
  {
    var data := Data(Orientations[from], rows, cols);
    NoSmudges(data, 0, 0);
    if Axis(data, false, 0, 0).None? {
      SmudgelessLine(rows, cols, from + 1);
    }
  }

  /** The smudged search never returns the line it was told to ignore,
      except through `continue`, which is therefore never taken. */
  lemma IgnoredNeverFound(data: seq<nat>, num: nat)
    requires num != 0
    ensures Axis(data, true, num, 0) != Some(num)
  {
    AxisSound(data, true, num, 0);
    if Axis(data, true, num, 0).Some? {
      var s :| 0 <= s && Accepts(data, s, 1) && !Ignored(data, s, true, num) && Axis(data, true, num, 0).value == (s + |data|) / 2;
    }
  }

  /** The first search of the block, over the four orientations. */
  method FindSmudgeless(rows: seq<nat>, cols: seq<nat>) returns (r: Result<(DetectedBy, nat)>)
    ensures r == Smudgeless(rows, cols, 0)
  {
    var k := 0;
    while k < 4
      invariant 0 <= k <= 4
      invariant Smudgeless(rows, cols, 0) == Smudgeless(rows, cols, k)
    {
      var data := Data(Orientations[k], rows, cols);
      var found := DetectOffsetPalindrome(data, false, 0);
      if found.Panic? {
        return Panic;
      }
      if found.value.Some? {
        return Ok((Orientations[k], found.value.value));
      }
      k := k + 1;
    }
    return Panic;
  }

  /** The second search, which passes over the smudgeless line. */
  method FindSmudged(rows: seq<nat>, cols: seq<nat>, dir: DetectedBy, num: nat) returns (r: Result<nat>)
    ensures r == Smudged(rows, cols, dir, num, 0)
  {
    var k := 0;
    while k < 4
      invariant 0 <= k <= 4
      invariant Smudged(rows, cols, dir, num, 0) == Smudged(rows, cols, dir, num, k)
    {
      var detected_by := Orientations[k];
      var data := Data(detected_by, rows, cols);
      var value_to_ignore := if detected_by == dir then num else 0;
      var found := DetectOffsetPalindrome(data, true, value_to_ignore);
      if found.Panic? {
        return Panic;
      }
      if found.value.Some? {
        if !(detected_by == dir && found.value.value == num) {
          return Ok(Scored(detected_by, found.value.value, data));
        }
      }
      k := k + 1;
    }
    return Panic;
  }

  method Score(rows: seq<nat>, cols: seq<nat>) returns (r: Result<nat>)
    ensures r == BlockScore(rows, cols)
  {
    var smudgeless := FindSmudgeless(rows, cols);
    if smudgeless.Panic? {
      return Panic;
    }
    var (dir, num) := smudgeless.value;
    r := FindSmudged(rows, cols, dir, num);
  }

  /** The score of one block of lines; fewer than two lines panic at
      `nth(1).unwrap()`. */
  function BlockValue(block: seq<string>): Result<nat>
    requires |block| >= 2 ==> Day13a.Rectangular(block)
  {
    if |block| < 2 then Panic else BlockScore(Day13a.RowNumbers(block), Day13a.ColumnNumbers(block))
  }

  /** Rust's `solution` for part two over the blocks. */
  method Solution(blocks: seq<seq<string>>) returns (r: Result<nat>)
    requires forall b :: 0 <= b < |blocks| && |blocks[b]| >= 2 ==> Day13a.Rectangular(blocks[b])
    ensures r.Ok? <==> forall b :: 0 <= b < |blocks| ==> BlockValue(blocks[b]).Ok?
    ensures r.Ok? ==> r.value == Sum(seq(|blocks|, b requires 0 <= b < |blocks| && BlockValue(blocks[b]).Ok? => BlockValue(blocks[b]).value))
  {
    var total: nat := 0;
    ghost var scores: seq<nat> := [];
    for b := 0 to |blocks|
      invariant |scores| == b
      invariant forall c :: 0 <= c < b ==> BlockValue(blocks[c]) == Ok(scores[c])
      invariant total == Sum(scores)
    {
      if |blocks[b]| < 2 {
        return Panic;
      }
      var score := Score(Day13a.RowNumbers(blocks[b]), Day13a.ColumnNumbers(blocks[b]));
      if score.Panic? {
        return Panic;
      }
      SumAppend(scores, [score.value]);
      scores := scores + [score.value];
      total := total + score.value;
    }
    assert scores == seq(|blocks|, b requires 0 <= b < |blocks| && BlockValue(blocks[b]).Ok? => BlockValue(blocks[b]).value);
    r := Ok(total);
  }
}
