/** Day 3, part one: the engine schematic is a grid of characters; the
    numbers are the maximal runs of digits on a line, and a number is a part
    number when a symbol lies in the box around it. The answer is the sum
    of the part numbers. */
module Day03a {
  import opened Common

  predicate IsAlphabetic(c: char)
  {
    'a' <= c <= 'z' || 'A' <= c <= 'Z'
  }

  /** Rust's `is_symbol`: neither '.', a digit nor a letter. */
  predicate IsSymbol(c: char)
  {
    c != '.' && !IsDigit(c) && !IsAlphabetic(c)
  }

  /** A number found on the schematic: its line, the column it starts on,
      its number of digits and its value. */
  datatype Part = Part(line: int, col: int, length: nat, val: nat)

  // ---------------------------------------------------------------------
  // The digit runs of one line

  /** The column just past the run of digits starting at `c`. */
  function RunEnd(line: string, c: nat): (e: nat)
    requires c <= |line|
    ensures c <= e <= |line| && (e == |line| || !IsDigit(line[e]))
    ensures forall k :: c <= k < e ==> IsDigit(line[k])
    decreases |line| - c
  {
    if c < |line| && IsDigit(line[c]) then RunEnd(line, c + 1) else c
  }

  /** The digit runs of `line` from column `c` on, as (start, length), in
      the order the scan finds them. */
  function RunsFrom(line: string, c: nat): seq<(nat, nat)>
    requires c <= |line|
    decreases |line| - c
  {
    if c == |line| then []
    else if !IsDigit(line[c]) then RunsFrom(line, c + 1)
    else
      var e := RunEnd(line, c);
      [(c, e - c)] + RunsFrom(line, e)
  }

  /** Columns `s` to `s + n - 1` are digits and the run can be extended
      neither left nor right. */
  predicate MaximalRun(line: string, s: nat, n: nat)
  {
    && n > 0 && s + n <= |line|
    && (forall k :: s <= k < s + n ==> IsDigit(line[k]))
    && (s == 0 || !IsDigit(line[s - 1]))
    && (s + n == |line| || !IsDigit(line[s + n]))
  }

  /** Every run the scan finds is maximal and starts at or after `c`. */
  lemma {:induction false} RunsFromMaximal(line: string, c: nat, i: nat)
    requires c <= |line| && (c == 0 || c == |line| || !IsDigit(line[c - 1]) || !IsDigit(line[c]))
    requires i < |RunsFrom(line, c)|
    ensures RunsFrom(line, c)[i].0 >= c && MaximalRun(line, RunsFrom(line, c)[i].0, RunsFrom(line, c)[i].1)
    decreases |line| - c
  {
    if !IsDigit(line[c]) {
      RunsFromMaximal(line, c + 1, i);
    } else if i > 0 {
      RunsFromMaximal(line, RunEnd(line, c), i - 1);
    }
  }

  /** Every maximal run from `c` on is found. */
  lemma {:induction false} RunsFromComplete(line: string, c: nat, s: nat, n: nat)
    requires c <= s && MaximalRun(line, s, n)
    ensures (s, n) in RunsFrom(line, c)
    decreases |line| - c
  {
    if !IsDigit(line[c]) {
      RunsFromComplete(line, c + 1, s, n);
    } else if c == s {
      assert RunEnd(line, c) == s + n by {
        RunEndOfMaximal(line, c, s, n);
      }
    } else {
      RunEndBeforeGap(line, c, s);
      RunsFromComplete(line, RunEnd(line, c), s, n);
    }
  }

  lemma {:induction false} RunEndOfMaximal(line: string, c: nat, s: nat, n: nat)
    requires s <= c <= s + n && MaximalRun(line, s, n)
    ensures RunEnd(line, c) == s + n
    decreases s + n - c
  {
    if c < s + n {
      RunEndOfMaximal(line, c + 1, s, n);
    }
  }

  /** A run that starts before a non-digit ends before it. */
  lemma {:induction false} RunEndBeforeGap(line: string, c: nat, s: nat)
    requires c < s <= |line| && !IsDigit(line[s - 1])
    ensures RunEnd(line, c) < s
    decreases s - c
  {
    if c < s - 1 && IsDigit(line[c]) {
      RunEndBeforeGap(line, c + 1, s);
    }
  }

  /** Runs are found left to right, each ending before the next starts,
      with at least one non-digit in between. */
  lemma {:induction false} RunsFromOrdered(line: string, c: nat, i: nat)
    requires c <= |line| && i + 1 < |RunsFrom(line, c)|
    ensures RunsFrom(line, c)[i].0 + RunsFrom(line, c)[i].1 < RunsFrom(line, c)[i + 1].0
    decreases |line| - c
  {
    if !IsDigit(line[c]) {
      RunsFromOrdered(line, c + 1, i);
    } else if i > 0 {
      RunsFromOrdered(line, RunEnd(line, c), i - 1);
    } else {
      var e := RunEnd(line, c);
      RunsFromMaximal(line, e, 0);
      if RunsFrom(line, e)[0].0 == e {
        assert !IsDigit(line[e]);
      }
    }
  }

  // ---------------------------------------------------------------------
  // The numbers found by the scan

  /** The number a run denotes; `parse::<u32>().unwrap()` panics when it
      does not fit in 32 bits. */
  function PartOf(lineno: nat, line: string, run: (nat, nat)): Result<Part>
    requires run.0 + run.1 <= |line|
  {
    match ParseUnsigned(line[run.0..run.0 + run.1], U32Limit)
    case Ok(v) => Ok(Part(lineno, run.0, run.1, v))
    case Panic => Panic
  }

  lemma RunsFromInside(line: string, c: nat, i: nat)
    requires c <= |line| && i < |RunsFrom(line, c)|
    ensures RunsFrom(line, c)[i].0 + RunsFrom(line, c)[i].1 <= |line|
  {
    RunsInside(line, c);
  }

  lemma {:induction false} RunsInside(line: string, c: nat)
    requires c <= |line|
    ensures forall i :: 0 <= i < |RunsFrom(line, c)| ==> RunsFrom(line, c)[i].0 + RunsFrom(line, c)[i].1 <= |line|
    decreases |line| - c
  {
    if c < |line| {
      if !IsDigit(line[c]) {
        RunsInside(line, c + 1);
      } else {
        RunsInside(line, RunEnd(line, c));
      }
    }
  }

  /** The numbers of the runs from column `c` on, in scan order, or a
      panic at the first one that does not fit. */
  function PartsFrom(lineno: nat, line: string, c: nat): Result<seq<Part>>
    requires c <= |line|
    decreases |line| - c
  {
    if c == |line| then Ok([])
    else if !IsDigit(line[c]) then PartsFrom(lineno, line, c + 1)
    else
      var e := RunEnd(line, c);
      match (PartOf(lineno, line, (c, e - c)), PartsFrom(lineno, line, e))
      case (Ok(p), Ok(rest)) => Ok([p] + rest)
      case _ => Panic
  }

  /** The numbers of one line. */
  function PartsOfLine(lineno: nat, line: string): Result<seq<Part>>
  {
    PartsFrom(lineno, line, 0)
  }

  predicate RunsInsideFrom(line: string, c: nat)
    requires c <= |line|
  {
    forall i :: 0 <= i < |RunsFrom(line, c)| ==> RunsFrom(line, c)[i].0 + RunsFrom(line, c)[i].1 <= |line|
  }

  /** One number per run. */
  lemma {:induction false} PartsFromLength(lineno: nat, line: string, c: nat)
    requires c <= |line| && PartsFrom(lineno, line, c).Ok?
    ensures |PartsFrom(lineno, line, c).value| == |RunsFrom(line, c)|
    decreases |line| - c
  {
    if c < |line| {
      if !IsDigit(line[c]) {
        PartsFromLength(lineno, line, c + 1);
      } else {
        PartsFromLength(lineno, line, RunEnd(line, c));
      }
    }
  }

  /** The `i`th number is the one of the `i`th run. */
  lemma {:induction false} PartsFromAt(lineno: nat, line: string, c: nat, i: nat)
    requires c <= |line| && PartsFrom(lineno, line, c).Ok? && i < |RunsFrom(line, c)|
    ensures RunsInsideFrom(line, c)
    ensures i < |PartsFrom(lineno, line, c).value| && PartOf(lineno, line, RunsFrom(line, c)[i]) == Ok(PartsFrom(lineno, line, c).value[i])
    decreases |line| - c
  {
    RunsInside(line, c);
    if !IsDigit(line[c]) {
      PartsFromAt(lineno, line, c + 1, i);
    } else if i > 0 {
      PartsFromAt(lineno, line, RunEnd(line, c), i - 1);
    }
  }

  /** A run whose value does not fit makes the scan panic. */
  lemma {:induction false} PartsFromPanicAt(lineno: nat, line: string, c: nat, i: nat)
    requires c <= |line| && i < |RunsFrom(line, c)|
    requires RunsFrom(line, c)[i].0 + RunsFrom(line, c)[i].1 <= |line| && PartOf(lineno, line, RunsFrom(line, c)[i]).Panic?
    ensures PartsFrom(lineno, line, c).Panic?
    decreases |line| - c
  {
    if !IsDigit(line[c]) {
      PartsFromPanicAt(lineno, line, c + 1, i);
    } else if i > 0 {
      PartsFromPanicAt(lineno, line, RunEnd(line, c), i - 1);
    }
  }

  /** When every run fits, the scan does not panic. */
  lemma {:induction false} PartsFromFit(lineno: nat, line: string, c: nat)
    requires c <= |line| && RunsInsideFrom(line, c)
    requires forall i :: 0 <= i < |RunsFrom(line, c)| ==> PartOf(lineno, line, RunsFrom(line, c)[i]).Ok?
    ensures PartsFrom(lineno, line, c).Ok?
    decreases |line| - c
  {
    if c < |line| {
      if !IsDigit(line[c]) {
        assert RunsFrom(line, c) == RunsFrom(line, c + 1);
        PartsFromFit(lineno, line, c + 1);
      } else {
        var e := RunEnd(line, c);
        var runs := RunsFrom(line, c);
        assert runs[0] == (c, e - c);
        assert forall i :: 0 <= i < |RunsFrom(line, e)| ==> RunsFrom(line, e)[i] == runs[i + 1];
        PartsFromFit(lineno, line, e);
      }
    }
  }

  /** A maximal run of digits is a number of its line, with the value its
      digits denote. */
  lemma MaximalRunIsPart(lineno: nat, line: string, s: nat, n: nat)
    requires MaximalRun(line, s, n) && PartsOfLine(lineno, line).Ok?
    ensures Part(lineno, s, n, DecimalValue(line[s..s + n])) in PartsOfLine(lineno, line).value
  {
    var runs := RunsFrom(line, 0);
    RunsFromComplete(line, 0, s, n);
    var i :| 0 <= i < |runs| && runs[i] == (s, n);
    PartsFromAt(lineno, line, 0, i);
    assert AllDigits(line[s..s + n]);
  }

  /** Every number of a line comes from a maximal run and carries the value
      its digits denote. */
  lemma PartIsMaximalRun(lineno: nat, line: string, i: nat)
    requires PartsOfLine(lineno, line).Ok? && i < |PartsOfLine(lineno, line).value|
    ensures var p := PartsOfLine(lineno, line).value[i];
      && p.line == lineno && p.col >= 0 && MaximalRun(line, p.col, p.length)
      && p.val == DecimalValue(line[p.col..p.col + p.length])
  {
    var runs := RunsFrom(line, 0);
    PartsFromLength(lineno, line, 0);
    RunsFromMaximal(line, 0, i);
    PartsFromAt(lineno, line, 0, i);
    assert AllDigits(line[runs[i].0..runs[i].0 + runs[i].1]);
  }

  /** A line's scan panics exactly when the digits of one of its runs
      denote a number that does not fit in 32 bits. */
  lemma LinePanics(lineno: nat, line: string)
    ensures RunsInsideFrom(line, 0)
    ensures PartsOfLine(lineno, line).Panic? <==>
      exists i :: 0 <= i < |RunsFrom(line, 0)| && PartOf(lineno, line, RunsFrom(line, 0)[i]).Panic?
  {
    RunsInside(line, 0);
    if exists i :: 0 <= i < |RunsFrom(line, 0)| && PartOf(lineno, line, RunsFrom(line, 0)[i]).Panic? {
      var i :| 0 <= i < |RunsFrom(line, 0)| && PartOf(lineno, line, RunsFrom(line, 0)[i]).Panic?;
      PartsFromPanicAt(lineno, line, 0, i);
    } else {
      PartsFromFit(lineno, line, 0);
    }
  }

  /** The numbers of every line, top to bottom. */
  function AllParts(schematic: seq<string>): Result<seq<Part>>
  {
    if schematic == [] then Ok([])
    else
      match (AllParts(schematic[..|schematic| - 1]), PartsOfLine(|schematic| - 1, schematic[|schematic| - 1]))
      case (Ok(above), Ok(here)) => Ok(above + here)
      case _ => Panic
  }

  /** `parts` followed by the numbers of `rest`, or a panic. */
  function Prepend(parts: seq<Part>, rest: Result<seq<Part>>): Result<seq<Part>>
  {
    match rest
    case Ok(ps) => Ok(parts + ps)
    case Panic => Panic
  }

  /** The scan of one line: skip non-digits, advance over a run, parse it
      and push a part. */
  method ScanLine(lineno: nat, line: string) returns (r: Result<seq<Part>>)
    ensures r == PartsOfLine(lineno, line)
  {
    var parts: seq<Part> := [];
    var colno := 0;
    assert Prepend(parts, PartsFrom(lineno, line, 0)) == PartsFrom(lineno, line, 0) by {
      if PartsFrom(lineno, line, 0).Ok? {
        assert parts + PartsFrom(lineno, line, 0).value == PartsFrom(lineno, line, 0).value;
      }
    }
    while colno < |line|
      invariant colno <= |line| && PartsOfLine(lineno, line) == Prepend(parts, PartsFrom(lineno, line, colno))
      decreases |line| - colno
    {
      if !IsDigit(line[colno]) {
        colno := colno + 1;
        continue;
      }
      var start := colno;
      colno := SkipRun(line, start);
      var part := PartOf(lineno, line, (start, colno - start));
      if part.Panic? {
        return Panic;
      }
      PrependStep(parts, part.value, PartsFrom(lineno, line, colno));
      parts := parts + [part.value];
    }
    assert parts + [] == parts;
    r := Ok(parts);
  }

  lemma PrependStep(parts: seq<Part>, p: Part, rest: Result<seq<Part>>)
    ensures Prepend(parts + [p], rest) == match rest case Ok(ps) => Prepend(parts, Ok([p] + ps)) case Panic => Panic
  {
    if rest.Ok? {
      assert parts + [p] + rest.value == parts + ([p] + rest.value);
    }
  }

  /** Advances past the digits starting at `start`. */
  method SkipRun(line: string, start: nat) returns (colno: nat)
    requires start <= |line|
    ensures colno == RunEnd(line, start)
  {
    colno := start;
    while colno < |line| && IsDigit(line[colno])
      invariant start <= colno <= |line| && RunEnd(line, colno) == RunEnd(line, start)
      decreases |line| - colno
    {
      colno := colno + 1;
    }
  }

  /** The scan of every line. */
  method FindParts(schematic: seq<string>) returns (r: Result<seq<Part>>)
    ensures r == AllParts(schematic)
  {
    var parts: seq<Part> := [];
    for lineno := 0 to |schematic|
      invariant AllParts(schematic[..lineno]) == Ok(parts)
    {
      assert schematic[..lineno + 1][..lineno] == schematic[..lineno];
      var here := ScanLine(lineno, schematic[lineno]);
      if here.Panic? {
        AllPartsPanicStays(schematic, lineno + 1);
        return Panic;
      }
      parts := parts + here.value;
    }
    assert schematic[..|schematic|] == schematic;
    r := Ok(parts);
  }

  lemma {:induction false} AllPartsPanicStays(schematic: seq<string>, i: nat)
    requires 0 < i <= |schematic| && AllParts(schematic[..i]).Panic?
    ensures AllParts(schematic).Panic?
    decreases |schematic| - i
  {
    if i < |schematic| {
      assert schematic[..i + 1][..i] == schematic[..i];
      AllPartsPanicStays(schematic, i + 1);
    } else {
      assert schematic[..i] == schematic;
    }
  }

  // ---------------------------------------------------------------------
  // Adjacency to a symbol

  /** The character at (row, col), or nothing off the schematic; negative
      indices, which Rust's `as usize` turns into huge ones, are off it. */
  function Cell(schematic: seq<string>, row: int, col: int): Option<char>
  {
    if 0 <= row < |schematic| && 0 <= col < |schematic[row]| then Some(schematic[row][col]) else None
  }

  predicate SymbolAt(schematic: seq<string>, row: int, col: int)
  {
    Cell(schematic, row, col).Some? && IsSymbol(Cell(schematic, row, col).value)
  }

  /** (row, col) lies in the box around the part: one line above to one
      below, one column before to one after. */
  predicate InBox(p: Part, row: int, col: int)
  {
    p.line - 1 <= row <= p.line + 1 && p.col - 1 <= col <= p.col + p.length
  }

  predicate Adjacent(schematic: seq<string>, p: Part)
  {
    exists row, col | p.line - 1 <= row <= p.line + 1 && p.col - 1 <= col <= p.col + p.length :: SymbolAt(schematic, row, col)
  }

  /** The closure given to `retain`: walks the box row by row and stops at
      the first symbol. */
  method NearSymbol(schematic: seq<string>, p: Part) returns (b: bool)
    ensures b <==> Adjacent(schematic, p)
  {
    for row := p.line - 1 to p.line + 2
      invariant forall r, c :: p.line - 1 <= r < row && InBox(p, r, c) ==> !SymbolAt(schematic, r, c)
    {
      for col := p.col - 1 to p.col + p.length + 1
        invariant forall c :: p.col - 1 <= c < col ==> !SymbolAt(schematic, row, c)
      {
        match Cell(schematic, row, col) {
          case Some(ch) =>
            if IsSymbol(ch) {
              assert InBox(p, row, col) && SymbolAt(schematic, row, col);
              return true;
            }
          case None =>
        }
      }
    }
    b := false;
  }

  /** The parts next to a symbol, in their order. */
  function Kept(schematic: seq<string>, parts: seq<Part>): seq<Part>
  {
    if parts == [] then []
    else
      Kept(schematic, parts[..|parts| - 1]) + (if Adjacent(schematic, parts[|parts| - 1]) then [parts[|parts| - 1]] else [])
  }

  /** A part is kept exactly when it lies next to a symbol. */
  lemma {:induction false} KeptExactly(schematic: seq<string>, parts: seq<Part>, p: Part)
    ensures p in Kept(schematic, parts) <==> p in parts && Adjacent(schematic, p)
  {
    if parts != [] {
      var init := parts[..|parts| - 1];
      KeptExactly(schematic, init, p);
      assert parts == init + [parts[|parts| - 1]];
    }
  }

  /** Rust's `retain`, as a loop over the parts keeping those next to a
      symbol. */
  method RetainNearSymbol(schematic: seq<string>, parts: seq<Part>) returns (kept: seq<Part>)
    ensures kept == Kept(schematic, parts)
  {
    kept := [];
    for i := 0 to |parts|
      invariant kept == Kept(schematic, parts[..i])
    {
      assert parts[..i + 1][..i] == parts[..i];
      var near := NearSymbol(schematic, parts[i]);
      if near {
        kept := kept + [parts[i]];
      }
    }
    assert parts[..|parts|] == parts;
  }

  function SumVals(parts: seq<Part>): nat
  {
    if parts == [] then 0 else SumVals(parts[..|parts| - 1]) + parts[|parts| - 1].val
  }

  /** The answer: the sum of the part numbers next to a symbol. */
  function SolutionValue(schematic: seq<string>): Result<nat>
  {
    match AllParts(schematic)
    case Ok(parts) => Ok(SumVals(Kept(schematic, parts)))
    case Panic => Panic
  }

  /** Rust's `solution`. */
  method Solution(schematic: seq<string>) returns (r: Result<nat>)
    ensures r == SolutionValue(schematic)
  {
    var parts := FindParts(schematic);
    if parts.Panic? {
      return Panic;
    }
    var kept := RetainNearSymbol(schematic, parts.value);
    var total := 0;
    for i := 0 to |kept|
      invariant total == SumVals(kept[..i])
    {
      assert kept[..i + 1][..i] == kept[..i];
      total := total + kept[i].val;
    }
    assert kept[..|kept|] == kept;
    r := Ok(total);
  }

  /** A schematic without symbols has no part numbers. */
  lemma {:induction false} NoSymbolNoParts(schematic: seq<string>, parts: seq<Part>)
    requires forall row, col :: !SymbolAt(schematic, row, col)
    ensures Kept(schematic, parts) == []
  {
    if parts != [] {
      NoSymbolNoParts(schematic, parts[..|parts| - 1]);
    }
  }
}
