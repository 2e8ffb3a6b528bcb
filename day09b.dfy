/** Day 9, part two: each sequence is extrapolated backwards. The program
    reverses the parsed row, takes its differences the other way round
    (`earlier - later`) and back-fills by subtraction; the value it finds
    is the one that precedes the row's first value. */
module Day09b {
  import opened Common
  import opened Day09a

  function Negate(s: seq<int>): (r: seq<int>)
    ensures |r| == |s| && forall i :: 0 <= i < |s| ==> r[i] == -s[i]
  {
    seq(|s|, i requires 0 <= i < |s| => -s[i])
  }

  /** The row of swapped differences `row[i - 1] - row[i]`. */
  function BackDifferences(row: seq<int>): (d: seq<int>)
    ensures |d| == if row == [] then 0 else |row| - 1
  {
    if row == [] then [] else seq(|row| - 1, i requires 0 <= i < |row| - 1 => row[i] - row[i + 1])
  }

  /** What the back-fill yields for a (reversed) row: its last value minus
      that of the row below, 0 below an all-zero row. */
  function BackNext(row: seq<int>): int
    requires row != []
    decreases |row|
  {
    var d := BackDifferences(row);
    if AllZero(d) then Last(row) - 0 else Last(row) - BackNext(d)
  }

  /** The value before the first of a non-empty row: the first value minus
      the value before the first of the difference row. */
  function Prev(row: seq<int>): int
    requires row != []
    decreases |row|
  {
    var d := Differences(row);
    if AllZero(d) then row[0] - 0 else row[0] - Prev(d)
  }

  /** `history` is the start of the swapped history of `row`. */
  predicate BackHistoryOf(history: seq<seq<int>>, row: seq<int>)
  {
    && |history| >= 1 && history[0] == row
    && (forall j, k :: 0 <= j < |history| && k == j + 1 && k < |history| ==> history[k] == BackDifferences(history[j]))
    && (forall j :: 1 <= j < |history| - 1 ==> !AllZero(history[j]))
  }

  predicate FullBackHistory(history: seq<seq<int>>, row: seq<int>)
  {
    BackHistoryOf(history, row) && |history| >= 2 && AllZero(history[|history| - 1])
  }

  lemma BackNextOfRow(history: seq<seq<int>>, row: seq<int>, k: nat)
    requires row != [] && FullBackHistory(history, row) && k < |history| - 1
    ensures history[k] != []
    ensures BackNext(history[k]) == Last(history[k]) - if k + 1 < |history| - 1 then BackNext(history[k + 1]) else 0
  {
    if k > 0 {
      assert !AllZero(history[k]);
    }
    if k + 1 < |history| - 1 {
      assert !AllZero(history[k + 1]);
    }
  }

  /** The `loop` of the closure, with the swapped subtraction. */
  method BuildHistory(row: seq<int>) returns (history: seq<seq<int>>)
    requires row != []
    ensures FullBackHistory(history, row)
  {
    history := [row];
    while true
      invariant BackHistoryOf(history, row) && history[|history| - 1] != []
      invariant |history| >= 2 ==> !AllZero(history[|history| - 1])
      decreases |history[|history| - 1]|
    {
      var last := history[|history| - 1];
      var differences := BackDifferences(last);
      var all_zeros := AllZero(differences);
      history := history + [differences];
      if all_zeros {
        break;
      }
    }
  }

  /** The closure of `solution` for one (already reversed) line: a 0 is
      pushed onto the all-zero row and every row above gets its last value
      minus the new last value of the row below. */
  method Extrapolate(row: seq<int>) returns (next: int)
    requires row != []
    ensures next == BackNext(row)
  {
    var history := BuildHistory(row);
    ghost var full := history;
    var n := |history|;
    history := history[n - 1 := history[n - 1] + [0]];
    var i := n - 2;
    while i >= 0
      invariant -1 <= i <= n - 2 && |history| == n
      invariant forall j :: 0 <= j <= i ==> history[j] == full[j]
      invariant forall j :: i < j < n - 1 ==> full[j] != [] && history[j] == full[j] + [BackNext(full[j])]
      invariant history[n - 1] == full[n - 1] + [0]
    {
      BackNextOfRow(full, row, i);
      var next_val := Last(history[i]) - Last(history[i + 1]);
      assert next_val == BackNext(full[i]);
      history := history[i := history[i] + [next_val]];
      i := i - 1;
    }
    next := Last(history[0]);
  }

  /** The swapped differences are the negated differences. */
  lemma BackIsNegated(row: seq<int>)
    ensures BackDifferences(row) == Negate(Differences(row))
  {
  }

  /** Negating a row negates its differences. */
  lemma NegatedDifferences(row: seq<int>)
    ensures Differences(Negate(row)) == Negate(Differences(row))
  {
  }

  /** Reversing a row reverses and negates its differences. */
  lemma ReversedDifferences(row: seq<int>)
    ensures Differences(Reverse(row)) == Negate(Reverse(Differences(row)))
  {
    var e, d := Differences(Reverse(row)), Differences(row);
    var r := Negate(Reverse(d));
    assert |e| == |r|;
    forall i | 0 <= i < |e|
      ensures e[i] == r[i]
    {
      var n := |row|;
      assert e[i] == Reverse(row)[i + 1] - Reverse(row)[i];
      assert Reverse(row)[i + 1] == row[n - 2 - i] && Reverse(row)[i] == row[n - 1 - i];
      assert Reverse(d)[i] == d[n - 2 - i];
    }
  }

  lemma AllZeroNegate(s: seq<int>)
    ensures AllZero(Negate(s)) <==> AllZero(s)
  {
    if !AllZero(s) {
      var i :| 0 <= i < |s| && s[i] != 0;
      assert Negate(s)[i] != 0;
    }
  }

  lemma AllZeroReverse(s: seq<int>)
    ensures AllZero(Reverse(s)) <==> AllZero(s)
  {
    if !AllZero(s) {
      var i :| 0 <= i < |s| && s[i] != 0;
      assert Reverse(s)[|s| - 1 - i] != 0;
    }
  }

  /** The forward prediction of a negated row is the negated prediction. */
  lemma {:induction false} NextNegate(row: seq<int>)
    requires row != []
    ensures Next(Negate(row)) == -Next(row)
    decreases |row|
  {
    var d := Differences(row);
    NegatedDifferences(row);
    AllZeroNegate(d);
    if !AllZero(d) {
      NextNegate(d);
    }
  }

  /** The two swaps cancel: the back-fill with swapped differences computes
      the forward prediction of part one. */
  lemma {:induction false} BackNextIsNext(row: seq<int>)
    requires row != []
    ensures BackNext(row) == Next(row)
    decreases |row|
  {
    var d := Differences(row);
    BackIsNegated(row);
    AllZeroNegate(d);
    if !AllZero(d) {
      BackNextIsNext(Negate(d));
      NextNegate(d);
    }
  }

  /** Predicting forwards on the reversed row is predicting backwards on
      the row. */
  lemma {:induction false} ReversedIsPrev(row: seq<int>)
    requires row != []
    ensures Next(Reverse(row)) == Prev(row)
    decreases |row|
  {
    var d := Differences(row);
    ReversedDifferences(row);
    AllZeroReverse(d);
    AllZeroNegate(Reverse(d));
    if !AllZero(d) {
      NextNegate(Reverse(d));
      ReversedIsPrev(d);
    }
  }

  /** The program's answer for one line is the value before its first. */
  lemma ProgramIsPrev(row: seq<int>)
    requires row != []
    ensures BackNext(Reverse(row)) == Prev(row)
  {
    BackNextIsNext(Reverse(row));
    ReversedIsPrev(row);
  }

  /** The value found keeps the history consistent: put in front of the row,
      it puts the difference row's own preceding value in front of the
      difference row (0 for an all-zero row). */
  lemma PrependedDifferences(row: seq<int>)
    requires row != []
    ensures Differences([Prev(row)] + row) ==
      [if AllZero(Differences(row)) then 0 else Prev(Differences(row))] + Differences(row)
  {
    PrependDifference(row, Prev(row));
  }

  lemma PrependDifference(row: seq<int>, x: int)
    requires row != []
    ensures Differences([x] + row) == [row[0] - x] + Differences(row)
  {
    var e, d := Differences([x] + row), Differences(row);
    assert |e| == |d| + 1;
    forall i | 0 <= i < |e|
      ensures e[i] == ([row[0] - x] + d)[i]
    {
      assert ([x] + row)[i + 1] == row[i];
    }
  }

  /** The sum of the values before the rows. */
  function Total(rows: seq<seq<int>>): int
    requires forall i :: 0 <= i < |rows| ==> rows[i] != []
  {
    if rows == [] then 0 else Total(rows[..|rows| - 1]) + Prev(rows[|rows| - 1])
  }

  /** The answer for the lines: the sum of the values before each row, or
      a panic when some line does not parse. */
  function Answer(lines: seq<string>): Result<int>
  {
    match Rows(lines)
    case Ok(rows) => Ok(Total(rows))
    case Panic => Panic
  }

  /** Rust's `solution` for part two. */
  method Solution(lines: seq<string>) returns (r: Result<int>)
    ensures r == Answer(lines)
  {
    var total := 0;
    ghost var rows: seq<seq<int>> := [];
    for k := 0 to |lines|
      invariant Rows(lines[..k]) == Ok(rows) && total == Total(rows)
    {
      assert lines[..k + 1][..k] == lines[..k];
      var row := ParseRow(lines[k]);
      if row.Panic? {
        PanicStays(lines, k + 1);
        return Panic;
      }
      var next := Extrapolate(Reverse(row.value));
      ProgramIsPrev(row.value);
      total := total + next;
      rows := rows + [row.value];
      assert rows[..|rows| - 1] == rows[..k];
    }
    assert lines[..|lines|] == lines;
    r := Ok(total);
  }

  /** The puzzle's example: the values before the three rows are -3, 0 and
      5, 2 in all. */
  lemma ExampleFirst()
    ensures Prev([0, 3, 6, 9, 12, 15]) == -3
  {
    var d := Differences([0, 3, 6, 9, 12, 15]);
    assert d == [3, 3, 3, 3, 3];
    assert AllZero(Differences(d));
    assert d[0] != 0;
  }

  lemma ExampleSecond()
    ensures Prev([1, 3, 6, 10, 15, 21]) == 0
  {
    var d := Differences([1, 3, 6, 10, 15, 21]);
    assert d == [2, 3, 4, 5, 6];
    var d2 := Differences(d);
    assert d2 == [1, 1, 1, 1];
    assert AllZero(Differences(d2));
    assert d[0] != d[1] && d2[0] != 0;
  }

  lemma ExampleThird()
    ensures Prev([10, 13, 16, 21, 30, 45]) == 5
  {
    var d := Differences([10, 13, 16, 21, 30, 45]);
    assert d == [3, 3, 5, 9, 15];
    var d2 := Differences(d);
    assert d2 == [0, 2, 4, 6];
    var d3 := Differences(d2);
    assert d3 == [2, 2, 2];
    assert AllZero(Differences(d3));
    assert d2[1] != 0 && d3[0] != 0 && Differences(d)[1] != 0;
  }
}
