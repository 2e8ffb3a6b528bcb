/** Day 14, part one (kept in the `day14b` crate): a platform of round rocks
    'O', cube rocks '#' and empty cells '.', tilted north so that every
    round rock rolls up until it meets a rock or the edge, and the load on
    the north beams afterwards. */
module Day14b {
  import opened Common

  type Board = seq<seq<char>>

  /** Every row has `width` cells. */
  predicate Rectangular(board: Board, width: nat)
  {
    forall i :: 0 <= i < |board| ==> |board[i]| == width
  }

  function Column(board: Board, width: nat, j: nat): (r: seq<char>)
    requires Rectangular(board, width) && j < width
    ensures |r| == |board| && forall i :: 0 <= i < |board| ==> r[i] == board[i][j]
  {
    seq(|board|, i requires 0 <= i < |board| => board[i][j])
  }

  function Dots(n: nat): (r: seq<char>)
    ensures |r| == n && forall i :: 0 <= i < n ==> r[i] == '.'
  {
    seq(n, _ => '.')
  }

  // ---------------------------------------------------------------------
  // One column, as a reference

  /** A round rock placed under the cells `above` (already settled) rolls
      up through the '.' cells at their bottom, leaving '.' behind, and
      stops under the first other cell or at the top. */
  function Drop(above: seq<char>): (r: seq<char>)
    ensures |r| == |above| + 1
  {
    if above == [] then ['O']
    else if above[|above| - 1] == '.' then Drop(above[..|above| - 1]) + ['.']
    else above + ['O']
  }

  /** The column tilted north, rock by rock from the top down. */
  function Tilt(col: seq<char>): (r: seq<char>)
    ensures |r| == |col|
  {
    if col == [] then []
    else
      var above := Tilt(col[..|col| - 1]);
      if col[|col| - 1] == 'O' then Drop(above) else above + [col[|col| - 1]]
  }

  /** A cell that takes part in rolling: a round rock or an empty cell. */
  predicate Rolls(c: char)
  {
    c == 'O' || c == '.'
  }

  /** No round rock has an empty cell directly above it. */
  predicate Settled(col: seq<char>)
  {
    forall i :: 0 < i < |col| && col[i] == 'O' ==> col[i - 1] != '.'
  }

  /** Dropping a rock keeps every other cell kind in place: the cell it
      ends in was empty, and the empty cells it passed move down by one. */
  lemma {:induction false} DropKeeps(above: seq<char>)
    ensures forall i :: 0 <= i < |above| ==> (Rolls(Drop(above)[i]) <==> Rolls(above[i]))
    ensures forall i :: 0 <= i < |above| && !Rolls(above[i]) ==> Drop(above)[i] == above[i]
    ensures Rolls(Drop(above)[|above|])
    ensures multiset(Drop(above)) == multiset(above) + multiset{'O'}
  {
    if above != [] && above[|above| - 1] == '.' {
      var rest := above[..|above| - 1];
      DropKeeps(rest);
      assert above == rest + ['.'];
    }
  }

  /** Tilting moves only round rocks, into empty cells: the cube rocks and
      all other cells stay where they are, and the column's contents (so
      its number of round rocks) are unchanged. */
  lemma {:induction false} TiltKeeps(col: seq<char>)
    ensures forall i :: 0 <= i < |col| ==> (Rolls(Tilt(col)[i]) <==> Rolls(col[i]))
    ensures forall i :: 0 <= i < |col| && !Rolls(col[i]) ==> Tilt(col)[i] == col[i]
    ensures multiset(Tilt(col)) == multiset(col)
  {
    if col != [] {
      var rest := col[..|col| - 1];
      TiltKeeps(rest);
      assert col == rest + [col[|col| - 1]];
      if col[|col| - 1] == 'O' {
        DropKeeps(Tilt(rest));
      }
    }
  }

  lemma SettledPrefix(col: seq<char>, k: nat)
    requires Settled(col) && k <= |col|
    ensures Settled(col[..k])
  {
  }

  lemma {:induction false} DropSettled(above: seq<char>)
    requires Settled(above)
    ensures Settled(Drop(above))
  {
    if above != [] && above[|above| - 1] == '.' {
      var rest := above[..|above| - 1];
      SettledPrefix(above, |rest|);
      DropSettled(rest);
    }
  }

  /** After the tilt no round rock has an empty cell above it. */
  lemma {:induction false} TiltSettled(col: seq<char>)
    ensures Settled(Tilt(col))
  {
    if col != [] {
      var rest := col[..|col| - 1];
      TiltSettled(rest);
      if col[|col| - 1] == 'O' {
        DropSettled(Tilt(rest));
      }
    }
  }

  /** A settled column does not change when tilted... */
  lemma {:induction false} SettledStays(col: seq<char>)
    requires Settled(col)
    ensures Tilt(col) == col
  {
    if col != [] {
      var rest := col[..|col| - 1];
      SettledPrefix(col, |rest|);
      SettledStays(rest);
      assert col == rest + [col[|col| - 1]];
    }
  }

  /** ... so tilting twice is tilting once. */
  lemma TiltIdempotent(col: seq<char>)
    ensures Tilt(Tilt(col)) == Tilt(col)
  {
    TiltSettled(col);
    SettledStays(Tilt(col));
  }

  /** Dropping under empty cells is dropping above them. */
  lemma {:induction false} DropThroughDots(above: seq<char>, k: nat)
    requires k <= |above| && forall t :: k <= t < |above| ==> above[t] == '.'
    ensures Drop(above) == Drop(above[..k]) + Dots(|above| - k)
    decreases |above| - k
  {
    if k < |above| {
      var rest := above[..|above| - 1];
      assert rest[..k] == above[..k];
      assert Drop(above) == Drop(rest) + ['.'];
      DropThroughDots(rest, k);
      assert Drop(rest) == Drop(above[..k]) + Dots(|rest| - k);
      assert Dots(|rest| - k) + ['.'] == Dots(|above| - k);
      assert Drop(above) == Drop(above[..k]) + (Dots(|rest| - k) + ['.']);
    } else {
      assert above[..k] == above;
    }
  }

  // ---------------------------------------------------------------------
  // The board

  /** The board tilted north, column by column. */
  function Tilted(board: Board, width: nat): (r: Board)
    requires Rectangular(board, width)
    ensures |r| == |board| && Rectangular(r, width)
  {
    seq(|board|, i requires 0 <= i < |board| => seq(width, j requires 0 <= j < width => Tilt(Column(board, width, j))[i]))
  }

  lemma TiltedColumn(board: Board, width: nat, j: nat)
    requires Rectangular(board, width) && j < width
    ensures Column(Tilted(board, width), width, j) == Tilt(Column(board, width, j))
  {
  }

  /** The tilted board: cube rocks and other cells in place, rolling cells
      only where there were rolling cells, the same contents in every
      column, and no round rock under an empty cell. */
  lemma TiltedBoard(board: Board, width: nat)
    requires Rectangular(board, width)
    ensures forall i, j :: 0 <= i < |board| && 0 <= j < width ==> (Rolls(Tilted(board, width)[i][j]) <==> Rolls(board[i][j]))
    ensures forall i, j :: 0 <= i < |board| && 0 <= j < width && !Rolls(board[i][j]) ==> Tilted(board, width)[i][j] == board[i][j]
    ensures forall j :: 0 <= j < width ==> multiset(Column(Tilted(board, width), width, j)) == multiset(Column(board, width, j))
    ensures forall j :: 0 <= j < width ==> Settled(Column(Tilted(board, width), width, j))
  {
    var t := Tilted(board, width);
    forall j | 0 <= j < width
      ensures forall i :: 0 <= i < |board| ==> (Rolls(t[i][j]) <==> Rolls(board[i][j]))
      ensures forall i :: 0 <= i < |board| && !Rolls(board[i][j]) ==> t[i][j] == board[i][j]
      ensures multiset(Column(t, width, j)) == multiset(Column(board, width, j))
      ensures Settled(Column(t, width, j))
    {
      TiltedColumn(board, width, j);
      TiltKeeps(Column(board, width, j));
      TiltSettled(Column(board, width, j));
    }
  }

  /** Tilting a tilted board changes nothing. */
  lemma TiltedTwice(board: Board, width: nat)
    requires Rectangular(board, width)
    ensures Tilted(Tilted(board, width), width) == Tilted(board, width)
  {
    var t := Tilted(board, width);
    forall j | 0 <= j < width
      ensures Column(Tilted(t, width), width, j) == Column(t, width, j)
    {
      TiltedColumn(board, width, j);
      TiltedColumn(t, width, j);
      TiltIdempotent(Column(board, width, j));
    }
    forall i | 0 <= i < |t|
      ensures Tilted(t, width)[i] == t[i]
    {
      forall j | 0 <= j < width
        ensures Tilted(t, width)[i][j] == t[i][j]
      {
        assert Tilted(t, width)[i][j] == Column(Tilted(t, width), width, j)[i];
      }
    }
  }

  // ---------------------------------------------------------------------
  // The tilt in place

  /** Board cell `(i, j)` set to `c`. */
  function SetCell(board: Board, i: nat, j: nat, c: char): (r: Board)
    requires i < |board| && j < |board[i]|
    ensures |r| == |board| && forall k :: 0 <= k < |board| ==> |r[k]| == |board[k]|
  {
    board[i := board[i][j := c]]
  }

  lemma SetCellColumns(board: Board, width: nat, i: nat, j: nat, c: char)
    requires Rectangular(board, width) && i < |board| && j < width
    ensures Rectangular(SetCell(board, i, j, c), width)
    ensures Column(SetCell(board, i, j, c), width, j) == Column(board, width, j)[i := c]
    ensures forall l :: 0 <= l < width && l != j ==> Column(SetCell(board, i, j, c), width, l) == Column(board, width, l)
  {
  }

  /** `(0..i).rev()` loop for the round rock at `(i, j)`: while the cell
      above is '.', the rock and that cell swap. */
  method Roll(board: Board, width: nat, i: nat, j: nat) returns (rolled: Board)
    requires Rectangular(board, width) && i < |board| && j < width && board[i][j] == 'O'
    ensures Rectangular(rolled, width) && |rolled| == |board|
    ensures Column(rolled, width, j) == Drop(Column(board, width, j)[..i]) + Column(board, width, j)[i + 1..]
    ensures forall l :: 0 <= l < width && l != j ==> Column(rolled, width, l) == Column(board, width, l)
  {
    ghost var col := Column(board, width, j);
    ghost var above := col[..i];
    rolled := board;
    var k := i;
    while k > 0
      invariant k <= i && Rectangular(rolled, width) && |rolled| == |board|
      invariant Column(rolled, width, j) == above[..k] + ['O'] + Dots(i - k) + col[i + 1..]
      invariant forall t :: k <= t < i ==> above[t] == '.'
      invariant forall l :: 0 <= l < width && l != j ==> Column(rolled, width, l) == Column(board, width, l)
    {
      if rolled[k - 1][j] != '.' {
        break;
      }
      ghost var before := rolled;
      rolled := SetCell(rolled, k, j, '.');
      SetCellColumns(before, width, k, j, '.');
      ghost var middle := rolled;
      rolled := SetCell(rolled, k - 1, j, 'O');
      SetCellColumns(middle, width, k - 1, j, 'O');
      RollStep(above, k, i, col[i + 1..], Column(before, width, j));
      k := k - 1;
    }
    RollDone(above, k, i, col[i + 1..], Column(rolled, width, j));
  }

  /** One swap of the rock with the empty cell above it. */
  lemma RollStep(above: seq<char>, k: nat, i: nat, below: seq<char>, col: seq<char>)
    requires 0 < k <= i == |above|
    requires col == above[..k] + ['O'] + Dots(i - k) + below
    requires col[k - 1] == '.'
    ensures above[k - 1] == '.'
    ensures col[k := '.'][k - 1 := 'O'] == above[..k - 1] + ['O'] + Dots(i - (k - 1)) + below
  {
    var lhs := col[k := '.'][k - 1 := 'O'];
    var rhs := above[..k - 1] + ['O'] + Dots(i - (k - 1)) + below;
    assert |lhs| == |rhs|;
    forall t | 0 <= t < |lhs|
      ensures lhs[t] == rhs[t]
    {
      if t < k - 1 {
        assert lhs[t] == col[t] == above[t];
      } else if t > k && t <= i {
        assert lhs[t] == col[t] == '.';
      } else if t > i {
        assert lhs[t] == col[t] == below[t - i - 1];
      }
    }
  }

  /** The rock stopped: at the top, or under a cell other than '.'. */
  lemma RollDone(above: seq<char>, k: nat, i: nat, below: seq<char>, col: seq<char>)
    requires k <= i == |above|
    requires col == above[..k] + ['O'] + Dots(i - k) + below
    requires forall t :: k <= t < i ==> above[t] == '.'
    requires k > 0 ==> col[k - 1] != '.'
    ensures col == Drop(above) + below
  {
    DropThroughDots(above, k);
    if k > 0 {
      assert above[..k][k - 1] == col[k - 1];
    }
  }

  /** The columns before `j` hold their first `i + 1` cells tilted, the
      others their first `i`, and the cells below are still the original
      ones. */
  ghost predicate TiltedUpTo(original: Board, board: Board, width: nat, i: nat, j: nat)
    requires Rectangular(original, width)
  {
    Rectangular(board, width) && |board| == |original| && i <= |original| && j <= width
    && forall l :: 0 <= l < width ==>
      var done := if l < j then i + 1 else i;
      done <= |original|
      && Column(board, width, l) == Tilt(Column(original, width, l)[..done]) + Column(original, width, l)[done..]
  }

  /** One cell of row `i`: a round rock rolls up, any other cell stays. */
  method TiltCell(original: Board, board: Board, width: nat, i: nat, j: nat) returns (next: Board)
    requires Rectangular(original, width) && i < |original| && j < width
    requires TiltedUpTo(original, board, width, i, j)
    ensures TiltedUpTo(original, next, width, i, j + 1)
  {
    ghost var col := Column(original, width, j);
    assert Column(board, width, j) == Tilt(col[..i]) + col[i..];
    assert board[i][j] == Column(board, width, j)[i] == col[i];
    assert col[..i + 1] == col[..i] + [col[i]];
    if board[i][j] == 'O' {
      next := Roll(board, width, i, j);
      assert Column(board, width, j)[..i] == Tilt(col[..i]);
      assert Column(board, width, j)[i + 1..] == col[i + 1..];
    } else {
      next := board;
      assert Tilt(col[..i + 1]) + col[i + 1..] == Tilt(col[..i]) + col[i..];
    }
  }

  /** The nested `for` loops of `solution`: every row from the top, every
      cell of the row from the left. */
  method TiltNorth(original: Board, width: nat) returns (board: Board)
    requires Rectangular(original, width)
    ensures board == Tilted(original, width)
  {
    board := original;
    for i := 0 to |original|
      invariant TiltedUpTo(original, board, width, i, 0)
    {
      for j := 0 to |board[i]|
        invariant TiltedUpTo(original, board, width, i, j)
        invariant |board[i]| == width
      {
        board := TiltCell(original, board, width, i, j);
      }
      assert TiltedUpTo(original, board, width, i + 1, 0);
    }
    TiltedAll(original, board, width);
  }

  lemma TiltedAll(original: Board, board: Board, width: nat)
    requires Rectangular(original, width) && TiltedUpTo(original, board, width, |original|, 0)
    ensures board == Tilted(original, width)
  {
    var t := Tilted(original, width);
    forall i | 0 <= i < |board|
      ensures board[i] == t[i]
    {
      forall j | 0 <= j < width
        ensures board[i][j] == t[i][j]
      {
        var col := Column(original, width, j);
        assert col[..|original|] == col;
        assert board[i][j] == Column(board, width, j)[i];
      }
    }
  }

  // ---------------------------------------------------------------------
  // The load

  function CountRocks(s: seq<char>): nat
  {
    if s == [] then 0 else CountRocks(s[..|s| - 1]) + (if s[|s| - 1] == 'O' then 1 else 0)
  }

  lemma {:induction false} CountRocksMultiset(s: seq<char>)
    ensures CountRocks(s) == multiset(s)['O']
  {
    if s != [] {
      CountRocksMultiset(s[..|s| - 1]);
      assert s == s[..|s| - 1] + [s[|s| - 1]];
    }
  }

  /** `rev().enumerate()`: the top row of `n` rows weighs `n`, the bottom
      one 1, and each round rock in a row adds the row's weight. */
  function Load(board: Board): nat
  {
    if board == [] then 0 else CountRocks(board[0]) * |board| + Load(board[1..])
  }

  /** The load of one column: each round rock weighs its distance from the
      south edge. */
  function ColumnLoad(col: seq<char>): nat
  {
    if col == [] then 0 else (if col[0] == 'O' then |col| else 0) + ColumnLoad(col[1..])
  }

  /** A cell added at the bottom weighs 1 and adds 1 to every rock above. */
  lemma {:induction false} ColumnLoadAppend(col: seq<char>, c: char)
    ensures ColumnLoad(col + [c]) == ColumnLoad(col) + CountRocks(col) + (if c == 'O' then 1 else 0)
  {
    if col != [] {
      ColumnLoadAppend(col[1..], c);
      assert (col + [c])[1..] == col[1..] + [c];
      CountRocksMultiset(col);
      CountRocksMultiset(col[1..]);
      assert col == [col[0]] + col[1..];
    }
  }

  /** The loads of the first `m` columns. */
  function ColumnsLoad(board: Board, width: nat, m: nat): nat
    requires Rectangular(board, width) && m <= width
  {
    if m == 0 then 0 else ColumnsLoad(board, width, m - 1) + ColumnLoad(Column(board, width, m - 1))
  }

  lemma {:induction false} ColumnsLoadTop(board: Board, width: nat, m: nat)
    requires Rectangular(board, width) && m <= width && board != []
    ensures ColumnsLoad(board, width, m) == ColumnsLoad(board[1..], width, m) + CountRocks(board[0][..m]) * |board|
  {
    if m > 0 {
      ColumnsLoadTop(board, width, m - 1);
      var col := Column(board, width, m - 1);
      assert col[1..] == Column(board[1..], width, m - 1);
      assert board[0][..m][..m - 1] == board[0][..m - 1];
      var r := CountRocks(board[0][..m - 1]);
      var n := |board|;
      assert (r + (if board[0][m - 1] == 'O' then 1 else 0)) * n == r * n + (if board[0][m - 1] == 'O' then n else 0);
    }
  }

  /** The row-by-row load is the sum of the column loads. */
  lemma {:induction false} LoadByColumns(board: Board, width: nat)
    requires Rectangular(board, width)
    ensures Load(board) == ColumnsLoad(board, width, width)
  {
    if board == [] {
      ColumnsEmpty(board, width, width);
    } else {
      LoadByColumns(board[1..], width);
      ColumnsLoadTop(board, width, width);
      assert board[0][..width] == board[0];
    }
  }

  lemma {:induction false} ColumnsEmpty(board: Board, width: nat, m: nat)
    requires board == [] && m <= width
    ensures ColumnsLoad(board, width, m) == 0
  {
    if m > 0 {
      ColumnsEmpty(board, width, m - 1);
    }
  }

  /** A dropped rock weighs at least as much as one left at the bottom. */
  lemma {:induction false} DropRaises(above: seq<char>)
    ensures ColumnLoad(Drop(above)) >= ColumnLoad(above + ['O'])
  {
    if above != [] && above[|above| - 1] == '.' {
      var rest := above[..|above| - 1];
      DropRaises(rest);
      assert above == rest + ['.'];
      ColumnLoadAppend(Drop(rest), '.');
      ColumnLoadAppend(rest, 'O');
      ColumnLoadAppend(rest, '.');
      ColumnLoadAppend(above, 'O');
      DropKeeps(rest);
      CountRocksMultiset(Drop(rest));
      CountRocksMultiset(rest);
      CountRocksMultiset(above);
    }
  }

  /** Tilting never lowers a column's load. */
  lemma {:induction false} TiltRaises(col: seq<char>)
    ensures ColumnLoad(Tilt(col)) >= ColumnLoad(col)
  {
    if col != [] {
      var rest := col[..|col| - 1];
      var c := col[|col| - 1];
      TiltRaises(rest);
      assert col == rest + [c];
      ColumnLoadAppend(rest, c);
      ColumnLoadAppend(Tilt(rest), c);
      TiltKeeps(rest);
      CountRocksMultiset(rest);
      CountRocksMultiset(Tilt(rest));
      if c == 'O' {
        DropRaises(Tilt(rest));
      }
    }
  }

  /** Column by column at least as much load is at least as much load. */
  lemma {:induction false} ColumnsRaise(board: Board, other: Board, width: nat, m: nat)
    requires Rectangular(board, width) && Rectangular(other, width) && m <= width
    requires forall j :: 0 <= j < m ==> ColumnLoad(Column(other, width, j)) >= ColumnLoad(Column(board, width, j))
    ensures ColumnsLoad(other, width, m) >= ColumnsLoad(board, width, m)
  {
    if m > 0 {
      ColumnsRaise(board, other, width, m - 1);
    }
  }

  /** Tilting north never lowers the load on the north beams. */
  lemma TiltedRaisesLoad(board: Board, width: nat)
    requires Rectangular(board, width)
    ensures Load(Tilted(board, width)) >= Load(board)
  {
    var t := Tilted(board, width);
    LoadByColumns(board, width);
    LoadByColumns(t, width);
    forall j | 0 <= j < width
      ensures ColumnLoad(Column(t, width, j)) >= ColumnLoad(Column(board, width, j))
    {
      TiltedColumn(board, width, j);
      TiltRaises(Column(board, width, j));
    }
    ColumnsRaise(board, t, width, width);
  }

  /** A column with a cube rock: each round rock stops under the rock or
      the edge above it, and the load rises from 5 to 7. */
  lemma ExampleColumn()
    ensures Tilt(".O#.O") == "O.#O."
    ensures ColumnLoad(".O#.O") == 5 && ColumnLoad("O.#O.") == 7
  {
    assert ".O#.O"[..4] == ".O#.";
    assert ".O#."[..3] == ".O#";
    assert ".O#"[..2] == ".O";
    assert ".O"[..1] == ".";
    assert "O.#"[..2] == "O.";
    assert "O."[..1] == "O";
    assert Tilt(".") == ".";
    assert Tilt(".O") == "O.";
    assert Tilt(".O#") == "O.#";
    assert Tilt(".O#.") == "O.#.";
    assert Drop("O.#.") == Drop("O.#") + ".";
  }

  /** Rust's `solution`: the lines as a board, tilted in place, and the
      load of the result. */
  method Solution(lines: seq<string>) returns (r: nat)
    requires lines == [] || Rectangular(lines, |lines[0]|)
    ensures lines != [] ==> r == Load(Tilted(lines, |lines[0]|)) && r >= Load(lines)
    ensures lines == [] ==> r == 0
  {
    if lines == [] {
      return 0;
    }
    var board := TiltNorth(lines, |lines[0]|);
    TiltedRaisesLoad(lines, |lines[0]|);
    r := Load(board);
  }
}
