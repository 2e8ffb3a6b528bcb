/** Day 12, part one: rows of springs, '.' working, '#' damaged and '?'
    unknown, each with the lengths of its runs of damaged springs. The
    program means to count the ways to fill in the unknowns, but as written
    its recursion slices one character past the end of every pattern it
    follows to the last character, so no line ever yields a count other
    than 0 or a panic. */
module Day12a {
  import opened Common

  /** `num_arrangements` of part one, as written: `current` is the
      character being looked at, `pattern` what follows it and `count` the
      length of the run of '#' just before. `&pattern[1..]` is taken before
      the match, so an empty `pattern` panics whatever `current` is;
      `runs[0]` panics on no runs; other characters are `unreachable!`.
      Every call with a character in hand therefore panics or finds 0: the
      base case that counts an arrangement is only reached with no
      character, and no call ever passes none. */
  function Arrangements(current: Option<char>, pattern: string, runs: seq<nat>, count: nat): (r: Result<nat>)
    ensures current.Some? ==> r in {Panic, Ok(0)}
    decreases |pattern|, if current == Some('?') then 1 else 0
  {
    if current.None? then Ok(if runs == [] then 1 else 0)
    else if pattern == [] then Panic
    else
      var next := Some(pattern[0]);
      var rest := pattern[1..];
      var c := current.value;
      if c == '#' then Arrangements(next, rest, runs, count + 1)
      else if c == '.' then
        if runs == [] then Panic
        else if count == runs[0] then Arrangements(next, rest, runs[1..], 0)
        else if count == 0 then Arrangements(next, rest, runs, 0)
        else Ok(0)
      else if c == '?' then
        match Arrangements(Some('.'), pattern, runs, count)
        case Panic => Panic
        case Ok(dot) =>
          match Arrangements(Some('#'), pattern, runs, count)
          case Panic => Panic
          case Ok(hash) => Ok(dot + hash)
      else Panic
  }

  /** Each piece parsed with `unwrap`, kept as a result. */
  function ParsedPieces(pieces: seq<string>): (r: seq<Result<nat>>)
    ensures |r| == |pieces|
    ensures forall i :: 0 <= i < |pieces| ==> r[i] == ParseUnsigned(pieces[i], UsizeLimit)
  {
    seq(|pieces|, i requires 0 <= i < |pieces| => ParseUnsigned(pieces[i], UsizeLimit))
  }

  /** The comma-separated run lengths, each parsed with `unwrap`. */
  function ParseRuns(text: string): Result<seq<nat>>
  {
    Collect(ParsedPieces(Split(text, ",")))
  }

  /** One line: `split_once(' ')`, the runs parsed from the comma-separated
      list, and the first character of the pattern. */
  function ParseLine(line: string): (r: Result<(string, seq<nat>)>)
    ensures r.Ok? ==> r.value.0 != []
  {
    match SplitOnce(line, " ")
    case None => Panic
    case Some((pattern, runs)) =>
      match ParseRuns(runs)
      case Panic => Panic
      case Ok(counts) => if pattern == [] then Panic else Ok((pattern, counts))
  }

  /** The count for one line. */
  function LineCount(line: string): Result<nat>
  {
    match ParseLine(line)
    case Panic => Panic
    case Ok((pattern, runs)) => Arrangements(Some(pattern[0]), pattern[1..], runs, 0)
  }

  /** Rust's `solution`: the sum of the line counts, which as written is
      0 or a panic whatever the input. */
  function Solution(lines: seq<string>): (r: Result<nat>)
    ensures r in {Panic, Ok(0)}
  {
    if lines == [] then Ok(0)
    else
      var init := lines[..|lines| - 1];
      var rest := Solution(init);
      var last := LineCount(lines[|lines| - 1]);
      if rest.Panic? || last.Panic? then Panic else Ok(rest.value + last.value)
  }

  /** The smallest witness: the line "# 1" has one arrangement, but the
      count for it panics on the slice past its only character. */
  lemma SingleDamaged()
    ensures ParseLine("# 1") == Ok(("#", [1]))
    ensures LineCount("# 1") == Panic
  {
    ParseSingle();
  }

  lemma ParseSingle()
    ensures ParseLine("# 1") == Ok(("#", [1]))
  {
    assert SplitOnce("# 1", " ") == Some(("#", "1")) by {
      assert "# 1" == "#" + " " + "1";
      SplitOnceAfter("#", " ", "1");
    }
    assert Split("1", ",") == ["1"] by {
      NotFoundIn("1", ",");
    }
    assert ParseUnsigned("1", UsizeLimit) == Ok(1) by {
      ParseDecimal(1, UsizeLimit);
      assert Decimal(1) == "1";
    }
    var collected := ParseRuns("1");
    assert collected.Ok? && |collected.value| == 1 && collected.value[0] == 1;
    assert collected.value == [1];
  }
}
