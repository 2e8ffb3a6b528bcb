/** Day 6, part one: holding the button of a toy boat for h of a race's t
    milliseconds makes it travel (t - h)·h millimetres; a race is won by
    beating its record distance, and the answer is the product over the
    races of the number of winning hold durations. */
module Day06a {
  import opened Common

  /** Holding for `h` beats the record `distance`. */
  predicate Wins(time: nat, distance: nat, h: nat)
    requires h <= time
  {
    (time - h) * h > distance
  }

  /** The winning hold durations among 0 .. n-1. */
  function CountBelow(time: nat, distance: nat, n: nat): (c: nat)
    requires n <= time + 1
    ensures c <= n
  {
    if n == 0 then 0 else CountBelow(time, distance, n - 1) + (if Wins(time, distance, n - 1) then 1 else 0)
  }

  /** The `(0..=time).filter_map(...).sum()` of a race. */
  function Ways(time: nat, distance: nat): nat
  {
    CountBelow(time, distance, time + 1)
  }

  /** The count is the number of winning durations. */
  lemma {:induction false} CountBelowIsSize(time: nat, distance: nat, n: nat)
    requires n <= time + 1
    ensures CountBelow(time, distance, n) == |set h | 0 <= h < n && Wins(time, distance, h)|
  {
    if n > 0 {
      CountBelowIsSize(time, distance, n - 1);
      var before := set h | 0 <= h < n - 1 && Wins(time, distance, h);
      var all := set h | 0 <= h < n && Wins(time, distance, h);
      if Wins(time, distance, n - 1) {
        assert all == before + {n - 1};
      } else {
        assert all == before;
      }
    }
  }

  lemma WaysIsSize(time: nat, distance: nat)
    ensures Ways(time, distance) == |set h | 0 <= h <= time && Wins(time, distance, h)|
  {
    CountBelowIsSize(time, distance, time + 1);
    assert (set h | 0 <= h <= time && Wins(time, distance, h)) == (set h | 0 <= h < time + 1 && Wins(time, distance, h));
  }

  /** Holding for h and for t - h travel the same distance, and neither
      not pressing nor pressing throughout moves the boat. */
  lemma Symmetric(time: nat, distance: nat, h: nat)
    requires h <= time
    ensures Wins(time, distance, h) <==> Wins(time, distance, time - h)
    ensures !Wins(time, distance, 0) && !Wins(time, distance, time)
  {
  }

  /** Durations 0 and t never win, so at most t - 1 durations do, and a
      race of length 0 is never won. */
  lemma WaysAtMost(time: nat, distance: nat)
    ensures time >= 1 ==> Ways(time, distance) <= time - 1
    ensures time == 0 ==> Ways(time, distance) == 0
  {
    if time >= 1 {
      CountBelowTail(time, distance, time);
    }
  }

  lemma {:induction false} CountBelowTail(time: nat, distance: nat, n: nat)
    requires 1 <= n <= time
    ensures CountBelow(time, distance, n) <= n - 1
  {
    if n > 1 {
      CountBelowTail(time, distance, n - 1);
    }
  }

  /** A larger record never has more ways to beat it. */
  lemma {:induction false} HigherRecordFewerWays(time: nat, distance: nat, distance': nat, n: nat)
    requires distance <= distance' && n <= time + 1
    ensures CountBelow(time, distance', n) <= CountBelow(time, distance, n)
  {
    if n > 0 {
      HigherRecordFewerWays(time, distance, distance', n - 1);
    }
  }

  /** `zip(times, distances)`: the races, paired by position and cut to the
      shorter list. */
  function Races(times: seq<nat>, distances: seq<nat>): (races: seq<(nat, nat)>)
    ensures |races| == if |times| <= |distances| then |times| else |distances|
    ensures forall i :: 0 <= i < |races| ==> races[i] == (times[i], distances[i])
  {
    if times == [] || distances == [] then []
    else [(times[0], distances[0])] + Races(times[1..], distances[1..])
  }

  /** The `product` of the races' counts. */
  function ProductOfWays(races: seq<(nat, nat)>): nat
  {
    if races == [] then 1 else ProductOfWays(races[..|races| - 1]) * Ways(races[|races| - 1].0, races[|races| - 1].1)
  }

  /** A race that cannot be won makes the answer 0. */
  lemma {:induction false} UnwinnableRaceZero(races: seq<(nat, nat)>, i: nat)
    requires i < |races| && Ways(races[i].0, races[i].1) == 0
    ensures ProductOfWays(races) == 0
  {
    if i < |races| - 1 {
      var init := races[..|races| - 1];
      assert init[i] == races[i];
      UnwinnableRaceZero(init, i);
    }
  }

  /** The numbers of a line after its nine-character label ("Time:" or
      "Distance:" padded); `line[9..]` panics on a shorter line. The
      `trim` is not modelled: a space it would remove only adds an empty
      piece, which does not parse (LeadingSpaceIgnored), but it also
      strips tabs and other whitespace, so a piece such as "\t7" at either
      end is read by the source and dropped here. */
  function LineNumbers(line: string): Result<seq<nat>>
  {
    if |line| < 9 then Panic else Ok(Numbers(line[9..], UsizeLimit))
  }

  /** Rust's `solution` over the input's lines: the times on the first,
      the distances on the second. */
  function Solution(lines: seq<string>): (r: Result<nat>)
    ensures |lines| < 2 ==> r.Panic?
  {
    if |lines| < 2 then Panic
    else
      match (LineNumbers(lines[0]), LineNumbers(lines[1]))
      case (Ok(times), Ok(distances)) => Ok(ProductOfWays(Races(times, distances)))
      case _ => Panic
  }

  /** With the times and distances written out after their labels, the
      answer is the product over the paired races. */
  lemma SolutionOfRaces(times: seq<nat>, distances: seq<nat>, rest: seq<string>)
    requires forall i :: 0 <= i < |times| ==> times[i] < UsizeLimit
    requires forall i :: 0 <= i < |distances| ==> distances[i] < UsizeLimit
    ensures Solution(["Time:    " + Join(Decimals(times), " "), "Distance:" + Join(Decimals(distances), " ")] + rest)
      == Ok(ProductOfWays(Races(times, distances)))
  {
    var t := "Time:    " + Join(Decimals(times), " ");
    var d := "Distance:" + Join(Decimals(distances), " ");
    assert t[9..] == Join(Decimals(times), " ");
    assert d[9..] == Join(Decimals(distances), " ");
    NumbersOfDecimals(times, UsizeLimit);
    NumbersOfDecimals(distances, UsizeLimit);
  }

  /** When the winning holds are exactly `lo..=hi`, the count below `n` is
      the part of that interval below `n`. */
  lemma {:induction false} CountBelowInterval(time: nat, distance: nat, lo: nat, hi: nat, n: nat)
    requires n <= time + 1 && lo <= hi + 1
    requires forall h :: 0 <= h <= time ==> (Wins(time, distance, h) <==> lo <= h <= hi)
    ensures CountBelow(time, distance, n) == if n <= lo then 0 else if n <= hi + 1 then n - lo else hi + 1 - lo
  {
    if n > 0 {
      CountBelowInterval(time, distance, lo, hi, n - 1);
    }
  }

  /** The races of the puzzle statement's example: 7 ms with record 9 is
      won holding 2 to 5 ms, 15 ms with record 40 holding 4 to 11 and 30 ms
      with record 200 holding 11 to 19 ... */
  lemma ExampleWays()
    ensures Ways(7, 9) == 4 && Ways(15, 40) == 8 && Ways(30, 200) == 9
  {
    assert forall h :: 0 <= h <= 7 ==> (Wins(7, 9, h) <==> 2 <= h <= 5);
    CountBelowInterval(7, 9, 2, 5, 8);
    assert forall h :: 0 <= h <= 15 ==> (Wins(15, 40, h) <==> 4 <= h <= 11);
    CountBelowInterval(15, 40, 4, 11, 16);
    assert forall h :: 0 <= h <= 30 ==> (Wins(30, 200, h) <==> 11 <= h <= 19);
    CountBelowInterval(30, 200, 11, 19, 31);
  }

  /** ... so the answer for the example is 4 · 8 · 9 = 288. */
  lemma ExampleSolution()
    ensures Solution(["Time:    " + Join(Decimals([7, 15, 30]), " "), "Distance:" + Join(Decimals([9, 40, 200]), " ")]) == Ok(288)
  {
    ExampleWays();
    var rs := Races([7, 15, 30], [9, 40, 200]);
    assert rs == [(7, 9), (15, 40), (30, 200)];
    var none: seq<(nat, nat)> := [];
    assert ProductOfWays(rs[..1]) == 4 by { assert rs[..1][..0] == none; }
    assert ProductOfWays(rs[..2]) == 32 by { assert rs[..2][..1] == rs[..1]; }
    assert rs[..3][..2] == rs[..2] && rs[..3] == rs;
    var none': seq<string> := [];
    SolutionOfRaces([7, 15, 30], [9, 40, 200], none');
    assert ["Time:    " + Join(Decimals([7, 15, 30]), " "), "Distance:" + Join(Decimals([9, 40, 200]), " ")] + none'
      == ["Time:    " + Join(Decimals([7, 15, 30]), " "), "Distance:" + Join(Decimals([9, 40, 200]), " ")];
  }

  /** Reading distributes over consecutive runs of pieces. */
  lemma {:induction false} ParsedAppend(a: seq<string>, b: seq<string>, limit: nat)
    ensures Parsed(a + b, limit) == Parsed(a, limit) + Parsed(b, limit)
  {
    if a != [] {
      assert (a + b)[0] == a[0] && (a + b)[1..] == a[1..] + b;
      ParsedAppend(a[1..], b, limit);
      var head := Parsed(a[..1], limit);
      assert a[..1][1..] == [];
      assert Parsed(a, limit) == head + Parsed(a[1..], limit);
      assert Parsed(a + b, limit) == head + Parsed(a[1..] + b, limit);
    } else {
      assert a + b == b;
    }
  }

  /** A space in front of a line's numbers is an empty piece, which does
      not parse and is dropped. */
  lemma LeadingSpaceIgnored(b: string)
    ensures Numbers(" " + b, UsizeLimit) == Numbers(b, UsizeLimit)
  {
    SplitAppend("", ' ', b);
    assert "" + [' '] + b == " " + b;
    assert Split("", " ") == [""] by {
      assert IndexOf("", " ") == None;
    }
    ParseRejects("", UsizeLimit);
    ParsedAppend([""], Split(b, " "), UsizeLimit);
  }

  /** Widening the gap between two numbers by one space adds an empty
      piece, which is dropped: column padding does not change what a line
      reads. */
  lemma WiderGapIgnored(a: string, b: string)
    ensures Numbers(a + "  " + b, UsizeLimit) == Numbers(a + " " + b, UsizeLimit)
  {
    SplitAppend(a, ' ', " " + b);
    SplitAppend(a, ' ', b);
    assert a + [' '] + (" " + b) == a + "  " + b;
    assert a + [' '] + b == a + " " + b;
    LeadingSpaceIgnored(b);
    ParsedAppend(Split(a, " "), Split(" " + b, " "), UsizeLimit);
    ParsedAppend(Split(a, " "), Split(b, " "), UsizeLimit);
  }
}
