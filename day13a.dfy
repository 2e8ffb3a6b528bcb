/** Day 13, part one: blocks of ash '.' and rocks '#'. Every row and every
    column is read as a binary number ('#' a 1), and a line of reflection
    is searched for among the rows, then the columns, as an "offset
    palindrome": an even-length run of numbers that mirrors itself and
    reaches one end of the sequence. */
module Day13a {
  import opened Common

  // ---------------------------------------------------------------------
  // Rows and columns as numbers

  function Bit(c: char): nat
  {
    if c == '#' then 1 else 0
  }

  /** `fold(0, |accum, c| (accum << 1) + bit)`: the row read as a binary
      numeral, most significant cell first. */
  function Hash(line: string): nat
  {
    if line == [] then 0 else 2 * Hash(line[..|line| - 1]) + Bit(line[|line| - 1])
  }

  /** Equally long lines with the same number have rocks in the same
      places, so comparing numbers compares lines. */
  lemma {:induction false} HashInjective(a: string, b: string)
    requires |a| == |b| && Hash(a) == Hash(b)
    ensures forall i :: 0 <= i < |a| ==> Bit(a[i]) == Bit(b[i])
  {
    if a != [] {
      var n := |a| - 1;
      DivModUnique(Hash(a), 2, Hash(a[..n]), Bit(a[n]));
      DivModUnique(Hash(b), 2, Hash(b[..n]), Bit(b[n]));
      HashInjective(a[..n], b[..n]);
      forall i | 0 <= i < |a|
        ensures Bit(a[i]) == Bit(b[i])
      {
        if i < n {
          assert a[..n][i] == a[i] && b[..n][i] == b[i];
        }
      }
    }
  }

  /** All lines of a block have the width of its second line, which the
      column reading takes as the width of the block. */
  predicate Rectangular(block: seq<string>)
  {
    |block| >= 2 && forall i :: 0 <= i < |block| ==> |block[i]| == |block[1]|
  }

  function Column(block: seq<string>, j: nat): string
    requires Rectangular(block) && j < |block[1]|
  {
    seq(|block|, i requires 0 <= i < |block| => block[i][j])
  }

  function RowNumbers(block: seq<string>): (r: seq<nat>)
    ensures |r| == |block| && forall i :: 0 <= i < |block| ==> r[i] == Hash(block[i])
  {
    seq(|block|, i requires 0 <= i < |block| => Hash(block[i]))
  }

  function ColumnNumbers(block: seq<string>): (r: seq<nat>)
    requires Rectangular(block)
    ensures |r| == |block[1]| && forall j :: 0 <= j < |block[1]| ==> r[j] == Hash(Column(block, j))
  {
    seq(|block[1]|, j requires 0 <= j < |block[1]| => Hash(Column(block, j)))
  }

  // ---------------------------------------------------------------------
  // Reflections

  /** A line of reflection between items `k - 1` and `k`: every pair of
      items at the same distance from it, as far as both exist, is equal. */
  predicate ReflectsAt<T(==)>(items: seq<T>, k: nat)
  {
    0 < k < |items| && forall a, b :: 0 <= a < |items| && 0 <= b < |items| && a < b && a + b == 2 * k - 1 ==> items[a] == items[b]
  }

  /** `items[s..]` is an even palindrome of at least two items. */
  predicate Mirrored<T(==)>(items: seq<T>, s: nat)
  {
    s + 2 <= |items| && (|items| - s) % 2 == 0
    && forall a, b :: s <= a < |items| && s <= b < |items| && a < b && a + b == s + |items| - 1 ==> items[a] == items[b]
  }

  /** The palindromic suffix from `s` has its axis half-way along it. */
  lemma MirroredReflects<T>(items: seq<T>, s: nat)
    requires Mirrored(items, s)
    ensures ReflectsAt(items, (s + |items|) / 2)
  {
  }

  /** A reflection in the right half of the items is the axis of a
      palindromic suffix. */
  lemma ReflectsMirrored<T>(items: seq<T>, k: nat)
    requires ReflectsAt(items, k) && |items| <= 2 * k
    ensures Mirrored(items, 2 * k - |items|)
  {
  }

  /** The axis of the first palindromic suffix starting at `from` or
      later, counted as the number of items before it. */
  function Axis<T(==)>(items: seq<T>, from: nat): (r: Option<nat>)
    ensures r.Some? ==> ReflectsAt(items, r.value) && from + |items| <= 2 * r.value
    decreases |items| - from
  {
    if from + 2 > |items| then None
    else if Mirrored(items, from) then
      MirroredReflects(items, from);
      Some((from + |items|) / 2)
    else Axis(items, from + 1)
  }

  /** No reflection in the right half is passed over: the axis found is
      the one nearest the middle (the longest palindromic suffix). */
  lemma {:induction false} AxisLeast<T>(items: seq<T>, from: nat, k: nat)
    requires ReflectsAt(items, k) && from + |items| <= 2 * k
    ensures Axis(items, from).Some? && Axis(items, from).value <= k
    decreases |items| - from
  {
    ReflectsMirrored(items, k);
    if from < 2 * k - |items| && !Mirrored(items, from) {
      AxisLeast(items, from + 1, k);
    }
  }

  /** The left-offset search: a palindromic suffix of the reversed items
      is a palindromic prefix of the items, and the answer `len - num`
      names the same line. */
  lemma ReverseReflects<T>(items: seq<T>, k: nat)
    requires k <= |items|
    ensures ReflectsAt(Reverse(items), k) <==> ReflectsAt(items, |items| - k)
  {
    var n, r := |items|, Reverse(items);
    if ReflectsAt(r, k) {
      forall a, b | 0 <= a < b < n && a + b == 2 * (n - k) - 1
        ensures items[a] == items[b]
      {
        assert r[n - 1 - b] == r[n - 1 - a];
      }
    }
    if ReflectsAt(items, n - k) {
      forall a, b | 0 <= a < b < n && a + b == 2 * k - 1
        ensures r[a] == r[b]
      {
        assert items[n - 1 - b] == items[n - 1 - a];
      }
    }
  }

  /** The pointers of one candidate start: `i` has walked up from `start`
      and `j` down from the end by the same number of steps, every pair
      passed agreeing. */
  ghost predicate Walked(items: seq<nat>, start: nat, i: int, j: int)
  {
    start <= i <= j + 1 && j < |items| && i - start == |items| - 1 - j
    && forall a, b :: start <= a < i && j < b < |items| && a + b == start + |items| - 1 ==> items[a] == items[b]
  }

  /** `detect_offset_palindrome`: the first loop skips the starts whose item
      differs from the last one, the second tries each start in turn,
      walking `i` up and `j` down while the items agree, and accepts when
      the two pointers cross. An empty slice underflows `len - 1`. */
  method DetectOffsetPalindrome(items: seq<nat>) returns (r: Result<Option<nat>>)
    ensures r.Panic? <==> items == []
    ensures r.Ok? ==> r.value == Axis(items, 0)
  {
    if |items| == 0 {
      return Panic;
    }
    var n := |items|;
    var i_start := 0;
    var j := n - 1;
    while items[i_start] != items[j] && i_start < j
      invariant 0 <= i_start <= j == n - 1
      invariant Axis(items, 0) == Axis(items, i_start)
      decreases j - i_start
    {
      assert !Mirrored(items, i_start);
      i_start := i_start + 1;
    }
    if i_start == j {
      return Ok(None);
    }
    while i_start < j
      invariant j == n - 1 && 0 <= i_start <= j
      invariant Axis(items, 0) == Axis(items, i_start)
      decreases j - i_start
    {
      var i := i_start;
      while items[i] == items[j] && i < j
        invariant Walked(items, i_start, i, j)
        decreases j - i
      {
        WalkStep(items, i_start, i, j);
        i := i + 1;
        j := j - 1;
      }
      if i > j {
        HalvesMirror(items, i_start, i);
        return Ok(Some(i));
      }
      UnequalPair(items, i_start, i, j);
      j := n - 1;
      i_start := i_start + 1;
    }
    return Ok(None);
  }

  lemma WalkStep(items: seq<nat>, start: nat, i: int, j: int)
    requires Walked(items, start, i, j) && i < j && items[i] == items[j]
    ensures Walked(items, start, i + 1, j - 1)
  {
  }

  /** The pointers crossed: the whole suffix from `start` mirrors. */
  lemma HalvesMirror(items: seq<nat>, start: nat, i: int)
    requires Walked(items, start, i, i - 1) && start < i
    ensures Mirrored(items, start) && i == (start + |items|) / 2
  {
  }

  /** The pointers stopped before crossing: the suffix from `start` does
      not mirror (it is odd, or a pair differs). */
  lemma UnequalPair(items: seq<nat>, start: nat, i: int, j: int)
    requires Walked(items, start, i, j) && i <= j
    requires i == j || items[i] != items[j]
    ensures !Mirrored(items, start)
  {
    if i == j {
      assert (|items| - start) % 2 == 1;
    }
  }

  lemma Examples()
    ensures Axis([3, 2, 2, 3], 0) == Some(2)
    ensures Axis([3, 2, 3, 2, 2, 3], 0) == Some(4)
    ensures Axis([3, 2, 3, 2, 3], 0) == None
  {
    var a := [3, 2, 2, 3];
    assert Mirrored(a, 0);
    var b := [3, 2, 3, 2, 2, 3];
    assert !Mirrored(b, 0) by { assert b[2] != b[3]; }
    assert !Mirrored(b, 1);
    assert Mirrored(b, 2);
    var c := [3, 2, 3, 2, 3];
    assert !Mirrored(c, 1) by { assert c[1] != c[4]; }
    assert !Mirrored(c, 3) by { assert c[3] != c[4]; }
  }

  // ---------------------------------------------------------------------
  // Scoring a block

  /** The four searches in order: rows, reversed rows, columns, reversed
      columns; a row line counts 100 per row above it, a column line 1 per
      column left of it. */
  function BlockScore(rows: seq<nat>, cols: seq<nat>): Result<nat>
  {
    if rows == [] then Panic
    else if Axis(rows, 0).Some? then Ok(Axis(rows, 0).value * 100)
    else if Axis(Reverse(rows), 0).Some? then Ok((|rows| - Axis(Reverse(rows), 0).value) * 100)
    else if cols == [] then Panic
    else if Axis(cols, 0).Some? then Ok(Axis(cols, 0).value)
    else if Axis(Reverse(cols), 0).Some? then Ok(|cols| - Axis(Reverse(cols), 0).value)
    else Panic
  }

  ghost predicate HasReflection(items: seq<nat>)
  {
    exists k: nat :: k < |items| && ReflectsAt(items, k)
  }

  /** Every reflection is found by one of the two searches over its
      sequence. */
  lemma FoundEitherWay(items: seq<nat>)
    ensures HasReflection(items) <==> Axis(items, 0).Some? || Axis(Reverse(items), 0).Some?
  {
    var n := |items|;
    if HasReflection(items) {
      var k: nat :| k < |items| && ReflectsAt(items, k);
      if n <= 2 * k {
        AxisLeast(items, 0, k);
      } else {
        ReverseReflects(items, n - k);
        AxisLeast(Reverse(items), 0, n - k);
      }
    }
    if Axis(items, 0).Some? {
      assert ReflectsAt(items, Axis(items, 0).value);
    } else if Axis(Reverse(items), 0).Some? {
      var k := Axis(Reverse(items), 0).value;
      ReverseReflects(items, k);
      assert ReflectsAt(items, n - k);
    }
  }

  /** The score names a true line of reflection (a row line times 100, or
      a column line), and the block panics exactly when it has none. */
  lemma ScoreReflects(rows: seq<nat>, cols: seq<nat>)
    ensures BlockScore(rows, cols).Panic? <==> rows == [] || (!HasReflection(rows) && !HasReflection(cols))
    ensures BlockScore(rows, cols).Ok? ==>
      (exists k: nat :: k < |rows| && ReflectsAt(rows, k) && BlockScore(rows, cols).value == 100 * k)
      || (!HasReflection(rows) && ReflectsAt(cols, BlockScore(rows, cols).value))
  {
    FoundEitherWay(rows);
    FoundEitherWay(cols);
    if Axis(rows, 0).Some? {
      assert ReflectsAt(rows, Axis(rows, 0).value);
    } else if Axis(Reverse(rows), 0).Some? {
      ReverseReflects(rows, Axis(Reverse(rows), 0).value);
      assert ReflectsAt(rows, |rows| - Axis(Reverse(rows), 0).value);
    } else if Axis(Reverse(cols), 0).Some? && Axis(cols, 0).None? {
      ReverseReflects(cols, Axis(Reverse(cols), 0).value);
    }
  }

  /** The block's score: the four detections in turn. */
  method Score(rows: seq<nat>, cols: seq<nat>) returns (r: Result<nat>)
    ensures r == BlockScore(rows, cols)
  {
    var found := DetectOffsetPalindrome(rows);
    if found.Panic? {
      return Panic;
    }
    if found.value.Some? {
      return Ok(found.value.value * 100);
    }
    var reversed := DetectOffsetPalindrome(Reverse(rows));
    if reversed.value.Some? {
      return Ok((|rows| - reversed.value.value) * 100);
    }
    found := DetectOffsetPalindrome(cols);
    if found.Panic? {
      return Panic;
    }
    if found.value.Some? {
      return Ok(found.value.value);
    }
    reversed := DetectOffsetPalindrome(Reverse(cols));
    if reversed.value.Some? {
      return Ok(|cols| - reversed.value.value);
    }
    return Panic;
  }

  /** Rust's `solution` over the blocks (each a list of lines): a block
      with fewer than two lines panics at `nth(1).unwrap()`. */
  method Solution(blocks: seq<seq<string>>) returns (r: Result<nat>)
    requires forall b :: 0 <= b < |blocks| && |blocks[b]| >= 2 ==> Rectangular(blocks[b])
    ensures r.Ok? <==> forall b :: 0 <= b < |blocks| ==> |blocks[b]| >= 2 && BlockScore(RowNumbers(blocks[b]), ColumnNumbers(blocks[b])).Ok?
    ensures r.Ok? ==> r.value == Sum(seq(|blocks|, b requires 0 <= b < |blocks| && Rectangular(blocks[b]) => BlockScore(RowNumbers(blocks[b]), ColumnNumbers(blocks[b])).value))
  {
    var total: nat := 0;
    ghost var scores: seq<nat> := [];
    for b := 0 to |blocks|
      invariant |scores| == b
      invariant forall c :: 0 <= c < b ==> |blocks[c]| >= 2 && BlockScore(RowNumbers(blocks[c]), ColumnNumbers(blocks[c])) == Ok(scores[c])
      invariant total == Sum(scores)
    {
      if |blocks[b]| < 2 {
        return Panic;
      }
      var score := Score(RowNumbers(blocks[b]), ColumnNumbers(blocks[b]));
      if score.Panic? {
        return Panic;
      }
      SumAppend(scores, [score.value]);
      scores := scores + [score.value];
      total := total + score.value;
    }
    assert scores == seq(|blocks|, b requires 0 <= b < |blocks| && Rectangular(blocks[b]) => BlockScore(RowNumbers(blocks[b]), ColumnNumbers(blocks[b])).value);
    r := Ok(total);
  }
}
