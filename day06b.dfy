/** Day 6, part two: the spaces between the numbers are a kerning mistake;
    each line holds one number, and the answer is the count of winning hold
    durations of that single race. */
module Day06b {
  import opened Common
  import opened Day06a

  /** `replace(' ', "")`: the text without its spaces. */
  function RemoveSpaces(s: string): (r: string)
    ensures forall i :: 0 <= i < |r| ==> r[i] != ' '
    ensures |r| <= |s|
  {
    if s == [] then []
    else (if s[0] == ' ' then [] else [s[0]]) + RemoveSpaces(s[1..])
  }

  /** Removing spaces keeps the other characters in order: from text
      without spaces nothing is removed, and it distributes over
      concatenation. */
  lemma {:induction false} RemoveSpacesAppend(a: string, b: string)
    ensures RemoveSpaces(a + b) == RemoveSpaces(a) + RemoveSpaces(b)
  {
    if a != [] {
      assert (a + b)[1..] == a[1..] + b;
      RemoveSpacesAppend(a[1..], b);
    } else {
      assert a + b == b;
    }
  }

  lemma {:induction false} RemoveSpacesKeeps(s: string)
    requires forall i :: 0 <= i < |s| ==> s[i] != ' '
    ensures RemoveSpaces(s) == s
  {
    if s != [] {
      RemoveSpacesKeeps(s[1..]);
    }
  }

  /** The number of a line: its text after the nine-character label with
      the spaces removed, parsed; a short line or anything but digits
      panics. */
  function LineNumber(line: string): Result<nat>
  {
    if |line| < 9 then Panic else ParseUnsigned(RemoveSpaces(line[9..]), UsizeLimit)
  }

  /** Digits split up by spaces are read as the one number they spell. */
  lemma KernedDigits(heading: string, pieces: seq<string>)
    requires |heading| == 9 && |pieces| >= 1
    requires forall k :: 0 <= k < |pieces| ==> AllDigits(pieces[k])
    ensures AllDigits(RemoveSpaces(Join(pieces, " ")))
    ensures RemoveSpaces(Join(pieces, " ")) != [] && DecimalValue(RemoveSpaces(Join(pieces, " "))) < UsizeLimit ==>
      LineNumber(heading + Join(pieces, " ")) == Ok(DecimalValue(RemoveSpaces(Join(pieces, " "))))
  {
    assert (heading + Join(pieces, " "))[9..] == Join(pieces, " ");
    JoinDigits(pieces);
    var digits := RemoveSpaces(Join(pieces, " "));
    if digits != [] && DecimalValue(digits) < UsizeLimit {
      ParseDigits(digits, UsizeLimit);
    }
  }

  lemma {:induction false} JoinDigits(pieces: seq<string>)
    requires forall k :: 0 <= k < |pieces| ==> AllDigits(pieces[k])
    ensures AllDigits(RemoveSpaces(Join(pieces, " ")))
  {
    if |pieces| == 1 {
      RemoveSpacesKeeps(pieces[0]);
    } else if |pieces| > 1 {
      var rest := Join(pieces[1..], " ");
      JoinDigits(pieces[1..]);
      assert Join(pieces, " ") == pieces[0] + (" " + rest);
      RemoveSpacesAppend(pieces[0], " " + rest);
      RemoveSpacesAppend(" ", rest);
      RemoveSpacesKeeps(pieces[0]);
      assert RemoveSpaces(" ") == [];
      assert RemoveSpaces(Join(pieces, " ")) == pieces[0] + RemoveSpaces(rest);
    }
  }

  /** Rust's `solution`: the time on the first line, the record on the
      second, and the count of winning durations. */
  function Solution(lines: seq<string>): (r: Result<nat>)
    ensures r.Ok? <==> |lines| >= 2 && LineNumber(lines[0]).Ok? && LineNumber(lines[1]).Ok?
    ensures r.Ok? ==> r.value == |set h | 0 <= h <= LineNumber(lines[0]).value && Wins(LineNumber(lines[0]).value, LineNumber(lines[1]).value, h)|
    ensures r.Ok? ==> r.value == 0 || r.value < LineNumber(lines[0]).value
  {
    if |lines| < 2 then Panic
    else
      match (LineNumber(lines[0]), LineNumber(lines[1]))
      case (Ok(time), Ok(distance)) =>
        WaysAtMost(time, distance);
        WaysIsSize(time, distance);
        Ok(Ways(time, distance))
      case _ => Panic
  }

  /** The example's single race, its numbers read with the spaces taken
      out: 71530 ms with record 940200 is won holding 14 to 71516 ms ... */
  lemma ExampleWins(h: nat)
    requires h <= 71530
    ensures Wins(71530, 940200, h) <==> 14 <= h <= 71516
  {
    var held, left := h, 71530 - h;
    if held < 14 {
      assert held * left <= 13 * left;
    } else if left < 14 {
      assert held * left <= held * 13;
    } else {
      assert (held - 14) * (left - 14) >= 0;
    }
  }

  /** ... so it has 71503 winning durations ... */
  lemma ExampleWays()
    ensures Ways(71530, 940200) == 71503
  {
    forall h | 0 <= h <= 71530
      ensures Wins(71530, 940200, h) <==> 14 <= h <= 71516
    {
      ExampleWins(h);
    }
    CountBelowInterval(71530, 940200, 14, 71516, 71531);
  }

  /** ... which is the answer for lines that read as those two numbers. */
  lemma ExampleSolution(lines: seq<string>)
    requires |lines| >= 2 && LineNumber(lines[0]) == Ok(71530) && LineNumber(lines[1]) == Ok(940200)
    ensures Solution(lines) == Ok(71503)
  {
    ExampleWays();
  }
}
