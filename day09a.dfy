/** Day 9, part one: each line is a sequence of integers. Its rows of
    successive differences are taken until a row is all zero; the next
    value of each row, from the bottom up, is its last value plus the next
    value of the row below. The answer is the sum of the predictions. */
module Day09a {
  import opened Common

  /** `str::parse::<i32>` followed by `unwrap`: an optional sign and at
      least one digit, within -2^31 .. 2^31-1; anything else panics. */
  function ParseI32(s: string): (r: Result<int>)
    ensures r.Ok? ==> -0x8000_0000 <= r.value < 0x8000_0000
  {
    if |s| > 0 && s[0] == '-' then
      var digits := s[1..];
      if digits != [] && AllDigits(digits) && DecimalValue(digits) <= 0x8000_0000 then var v: int := DecimalValue(digits); Ok(-v)
      else Panic
    else
      match ParseUnsigned(s, 0x8000_0000)
      case Ok(v) => Ok(v)
      case Panic => Panic
  }

  /** Every i32 written in decimal, with a minus sign when negative, is
      read back. */
  lemma ParseI32RoundTrip(n: int)
    requires -0x8000_0000 <= n < 0x8000_0000
    ensures n >= 0 ==> ParseI32(Decimal(n)) == Ok(n)
    ensures n < 0 ==> ParseI32("-" + Decimal(-n)) == Ok(n)
  {
    if n >= 0 {
      ParseDecimal(n, 0x8000_0000);
    } else {
      DecimalRoundTrip(-n);
      assert ("-" + Decimal(-n))[1..] == Decimal(-n);
    }
  }

  /** A lone minus sign, or one before a number beyond -2^31, panics. */
  lemma ParseI32Rejects(n: nat)
    ensures ParseI32("-") == Panic
    ensures n > 0x8000_0000 ==> ParseI32("-" + Decimal(n)) == Panic
  {
    DecimalRoundTrip(n);
    assert ("-" + Decimal(n))[1..] == Decimal(n);
  }

  /** The numbers of a line split at single spaces; one piece that is no
      number panics. */
  function ParseRow(line: string): (r: Result<seq<int>>)
    ensures r.Ok? ==> r.value != []
  {
    ParseAll(Split(line, " "))
  }

  /** Each piece parsed in turn (`collect` of `unwrap`s). */
  function ParseAll(pieces: seq<string>): (r: Result<seq<int>>)
    ensures r.Ok? <==> forall i :: 0 <= i < |pieces| ==> ParseI32(pieces[i]).Ok?
    ensures r.Ok? ==> |r.value| == |pieces| && forall i :: 0 <= i < |pieces| ==> r.value[i] == ParseI32(pieces[i]).value
  {
    if pieces == [] then Ok([])
    else
      match (ParseI32(pieces[0]), ParseAll(pieces[1..]))
      case (Ok(v), Ok(rest)) => Ok([v] + rest)
      case _ => Panic
  }

  predicate AllZero(s: seq<int>)
  {
    forall i :: 0 <= i < |s| ==> s[i] == 0
  }

  function Last(s: seq<int>): int
    requires s != []
  {
    s[|s| - 1]
  }

  /** The row of successive differences `row[i] - row[i - 1]`, one
      shorter than `row` (empty for a row of at most one value). */
  function Differences(row: seq<int>): (d: seq<int>)
    ensures |d| == if row == [] then 0 else |row| - 1
  {
    if row == [] then [] else seq(|row| - 1, i requires 0 <= i < |row| - 1 => row[i + 1] - row[i])
  }

  /** The prediction of a non-empty row: its last value plus the next
      value of its difference row, that of an all-zero row being 0. */
  function Next(row: seq<int>): int
    requires row != []
    decreases |row|
  {
    var d := Differences(row);
    if AllZero(d) then Last(row) + 0 else Last(row) + Next(d)
  }

  /** `history` is the start of the history of `row`: the row itself, then
      each row the difference row of the one above, none but the last all
      zero. */
  predicate HistoryOf(history: seq<seq<int>>, row: seq<int>)
  {
    && |history| >= 1 && history[0] == row
    && (forall j, k :: 0 <= j < |history| && k == j + 1 && k < |history| ==> history[k] == Differences(history[j]))
    && (forall j :: 1 <= j < |history| - 1 ==> !AllZero(history[j]))
  }

  /** The whole history: it ends with its first all-zero difference row. */
  predicate FullHistory(history: seq<seq<int>>, row: seq<int>)
  {
    HistoryOf(history, row) && |history| >= 2 && AllZero(history[|history| - 1])
  }

  /** The next value of a row of the history, in terms of the row below. */
  lemma NextOfRow(history: seq<seq<int>>, row: seq<int>, k: nat)
    requires row != [] && FullHistory(history, row) && k < |history| - 1
    ensures history[k] != []
    ensures Next(history[k]) == Last(history[k]) + if k + 1 < |history| - 1 then Next(history[k + 1]) else 0
  {
    if k > 0 {
      assert !AllZero(history[k]);
    }
    if k + 1 < |history| - 1 {
      assert !AllZero(history[k + 1]);
    }
  }

  /** The `loop` of the closure: the history is built row by row until a
      difference row is all zero. */
  method BuildHistory(row: seq<int>) returns (history: seq<seq<int>>)
    requires row != []
    ensures FullHistory(history, row)
  {
    history := [row];
    while true
      invariant HistoryOf(history, row) && history[|history| - 1] != []
      invariant |history| >= 2 ==> !AllZero(history[|history| - 1])
      decreases |history[|history| - 1]|
    {
      var last := history[|history| - 1];
      var differences := Differences(last);
      var all_zeros := AllZero(differences);
      history := history + [differences];
      if all_zeros {
        break;
      }
    }
  }

  /** The closure of `solution` for one line: after the history is built,
      a 0 is pushed onto its all-zero row, and every row above gets its
      last value plus the new last value of the row below. */
  method Extrapolate(row: seq<int>) returns (next: int)
    requires row != []
    ensures next == Next(row)
  {
    var history := BuildHistory(row);
    ghost var full := history;
    var n := |history|;
    history := history[n - 1 := history[n - 1] + [0]];
    var i := n - 2;
    while i >= 0
      invariant -1 <= i <= n - 2 && |history| == n
      invariant forall j :: 0 <= j <= i ==> history[j] == full[j]
      invariant forall j :: i < j < n - 1 ==> full[j] != [] && history[j] == full[j] + [Next(full[j])]
      invariant history[n - 1] == full[n - 1] + [0]
    {
      NextOfRow(full, row, i);
      var next_val := Last(history[i]) + Last(history[i + 1]);
      assert next_val == Next(full[i]);
      history := history[i := history[i] + [next_val]];
      i := i - 1;
    }
    next := Last(history[0]);
  }

  /** The last value of each row of a history, 0 for an empty row. */
  function LastValues(rows: seq<seq<int>>): (r: seq<int>)
    ensures |r| == |rows| && forall j :: 0 <= j < |rows| ==> r[j] == if rows[j] == [] then 0 else Last(rows[j])
  {
    seq(|rows|, j requires 0 <= j < |rows| => if rows[j] == [] then 0 else Last(rows[j]))
  }

  /** The prediction is the sum of the last values of all rows of the
      history (the all-zero row adding nothing). */
  lemma NextSumsLasts(history: seq<seq<int>>, row: seq<int>)
    requires row != [] && FullHistory(history, row)
    ensures Next(row) == Sum(LastValues(history))
  {
    RowSumsLasts(history, row, 0);
    assert history[0..] == history;
  }

  lemma {:induction false} RowSumsLasts(history: seq<seq<int>>, row: seq<int>, k: nat)
    requires row != [] && FullHistory(history, row) && k < |history| - 1
    ensures history[k] != [] && Next(history[k]) == Sum(LastValues(history[k..]))
    decreases |history| - k
  {
    NextOfRow(history, row, k);
    LastValuesCons(history[k..]);
    assert history[k..][1..] == history[k + 1..];
    if k + 1 < |history| - 1 {
      RowSumsLasts(history, row, k + 1);
    } else {
      LastValuesCons(history[k + 1..]);
      assert history[k + 1..][1..] == [];
    }
  }

  /** The sum of the last values of some rows: the first row's plus the
      rest's. */
  lemma LastValuesCons(rows: seq<seq<int>>)
    requires rows != []
    ensures Sum(LastValues(rows)) == (if rows[0] == [] then 0 else Last(rows[0])) + Sum(LastValues(rows[1..]))
  {
    var first := if rows[0] == [] then 0 else Last(rows[0]);
    assert LastValues(rows) == [first] + LastValues(rows[1..]);
    SumAppend([first], LastValues(rows[1..]));
    assert Sum([first]) == first by {
      assert [first][..0] == [];
    }
  }

  /** The prediction keeps the history consistent: appended to the row,
      it extends the difference row by the next value of that row (0 for
      an all-zero row). */
  lemma ExtendedDifferences(row: seq<int>)
    requires row != []
    ensures Differences(row + [Next(row)]) ==
      Differences(row) + [if AllZero(Differences(row)) then 0 else Next(Differences(row))]
  {
    AppendDifference(row, Next(row));
  }

  lemma AppendDifference(row: seq<int>, x: int)
    requires row != []
    ensures Differences(row + [x]) == Differences(row) + [x - Last(row)]
  {
    var e, d := Differences(row + [x]), Differences(row);
    assert |e| == |d| + 1;
    forall i | 0 <= i < |e|
      ensures e[i] == (d + [x - Last(row)])[i]
    {
      assert (row + [x])[i] == row[i];
    }
  }

  /** A constant row predicts its constant. */
  lemma ConstantRow(row: seq<int>, c: int)
    requires row != [] && forall i :: 0 <= i < |row| ==> row[i] == c
    ensures Next(row) == c
  {
    assert AllZero(Differences(row));
  }

  /** A row that rises by b at every step predicts its last value plus b. */
  lemma LinearRow(row: seq<int>, b: int)
    requires |row| >= 2 && forall i :: 0 <= i < |row| - 1 ==> row[i + 1] == row[i] + b
    ensures Next(row) == Last(row) + b
  {
    var d := Differences(row);
    assert forall i :: 0 <= i < |d| ==> d[i] == b;
    if b != 0 {
      assert d[0] != 0;
      ConstantRow(d, b);
    }
  }

  /** The rows of the lines, or a panic when some line does not parse. */
  function Rows(lines: seq<string>): (r: Result<seq<seq<int>>>)
    ensures r.Ok? ==> |r.value| == |lines| && forall i :: 0 <= i < |lines| ==> r.value[i] != []
  {
    if lines == [] then Ok([])
    else
      match (Rows(lines[..|lines| - 1]), ParseRow(lines[|lines| - 1]))
      case (Ok(init), Ok(row)) => Ok(init + [row])
      case _ => Panic
  }

  /** The sum of the predictions of the rows. */
  function Total(rows: seq<seq<int>>): int
    requires forall i :: 0 <= i < |rows| ==> rows[i] != []
  {
    if rows == [] then 0 else Total(rows[..|rows| - 1]) + Next(rows[|rows| - 1])
  }

  /** The answer for the lines: the sum of their predictions, or a panic
      when some line does not parse. */
  function Answer(lines: seq<string>): Result<int>
  {
    match Rows(lines)
    case Ok(rows) => Ok(Total(rows))
    case Panic => Panic
  }

  /** Rust's `solution`: the lines are taken in order and the predictions
      summed; the first line that does not parse panics. */
  method Solution(lines: seq<string>) returns (r: Result<int>)
    ensures r == Answer(lines)
  {
    var total := 0;
    ghost var rows: seq<seq<int>> := [];
    for k := 0 to |lines|
      invariant Rows(lines[..k]) == Ok(rows) && total == Total(rows)
    {
      assert lines[..k + 1][..k] == lines[..k];
      var row := ParseRow(lines[k]);
      if row.Panic? {
        PanicStays(lines, k + 1);
        return Panic;
      }
      var next := Extrapolate(row.value);
      total := total + next;
      rows := rows + [row.value];
      assert rows[..|rows| - 1] == rows[..k];
    }
    assert lines[..|lines|] == lines;
    r := Ok(total);
  }

  /** A panic in the first k lines is the panic of the whole input. */
  lemma {:induction false} PanicStays(lines: seq<string>, k: nat)
    requires k <= |lines| && Rows(lines[..k]).Panic?
    ensures Rows(lines).Panic?
    decreases |lines| - k
  {
    if k < |lines| {
      assert lines[..k + 1][..k] == lines[..k];
      PanicStays(lines, k + 1);
    } else {
      assert lines[..k] == lines;
    }
  }

  /** The lines parse exactly when each of them does ... */
  lemma {:induction false} RowsOfLines(lines: seq<string>)
    ensures Rows(lines).Ok? <==> forall i :: 0 <= i < |lines| ==> ParseRow(lines[i]).Ok?
  {
    if lines != [] {
      var init := lines[..|lines| - 1];
      RowsOfLines(init);
      assert Rows(lines).Ok? <==> Rows(init).Ok? && ParseRow(lines[|lines| - 1]).Ok?;
      assert forall i :: 0 <= i < |init| ==> init[i] == lines[i];
    }
  }

  /** ... and then the rows are the lines' own. */
  lemma {:induction false} RowsAreParsed(lines: seq<string>)
    requires Rows(lines).Ok?
    ensures forall i :: 0 <= i < |lines| ==> ParseRow(lines[i]).Ok? && Rows(lines).value[i] == ParseRow(lines[i]).value
  {
    if lines != [] {
      var init := lines[..|lines| - 1];
      RowsAreParsed(init);
      assert forall i :: 0 <= i < |init| ==> init[i] == lines[i];
    }
  }

  /** The puzzle's example: 0 3 6 9 12 15 predicts 18, 1 3 6 10 15 21
      predicts 28 and 10 13 16 21 30 45 predicts 68, 114 in all. */
  lemma ExampleFirst()
    ensures Next([0, 3, 6, 9, 12, 15]) == 18
  {
    LinearRow([0, 3, 6, 9, 12, 15], 3);
  }

  lemma ExampleSecond()
    ensures Next([1, 3, 6, 10, 15, 21]) == 28
  {
    var d := Differences([1, 3, 6, 10, 15, 21]);
    assert d == [2, 3, 4, 5, 6];
    LinearRow(d, 1);
    assert d[0] != d[1];
  }

  lemma ExampleThird()
    ensures Next([10, 13, 16, 21, 30, 45]) == 68
  {
    var d := Differences([10, 13, 16, 21, 30, 45]);
    assert d == [3, 3, 5, 9, 15];
    var d2 := Differences(d);
    assert d2 == [0, 2, 4, 6];
    LinearRow(d2, 2);
    assert d2[1] != 0;
    assert Differences(d2)[0] != 0;
  }
}
