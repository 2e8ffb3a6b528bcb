/** Day 5, part two: the seed line holds pairs (start, length), each
    standing for the seeds start .. start+length-1; they go through the
    same chain of maps, and the answer is again the lowest final value. */
module Day05b {
  import opened Common
  import opened Day05a

  /** The seeds start, start+1, ..., start+length-1. */
  function Span(start: nat, length: nat): (s: seq<nat>)
    ensures |s| == length && forall j :: 0 <= j < length ==> s[j] == start + j
  {
    seq(length, j requires 0 <= j < length => start + j)
  }

  /** The seeds of the first `n` pairs of `values`. */
  function Pairs(values: seq<nat>, n: nat): seq<nat>
    requires 2 * n <= |values|
  {
    if n == 0 then [] else Pairs(values, n - 1) + Span(values[2 * (n - 1)], values[2 * (n - 1) + 1])
  }

  /** The seeds the whole line stands for; a last value without a partner
      is not part of any pair. */
  function Seeds(values: seq<nat>): seq<nat>
  {
    Pairs(values, |values| / 2)
  }

  /** A seed is listed exactly when some pair's span holds it. */
  lemma {:induction false} InPairs(values: seq<nat>, n: nat, x: nat)
    requires 2 * n <= |values|
    ensures x in Pairs(values, n) <==> exists i :: 0 <= i < n && values[2 * i] <= x < values[2 * i] + values[2 * i + 1]
  {
    if n > 0 {
      InPairs(values, n - 1, x);
      var start, length := values[2 * (n - 1)], values[2 * (n - 1) + 1];
      assert x in Span(start, length) <==> start <= x < start + length by {
        if start <= x < start + length {
          assert Span(start, length)[x - start] == x;
        }
      }
    }
  }

  lemma InSeeds(values: seq<nat>, x: nat)
    ensures x in Seeds(values) <==> exists i :: 0 <= i < |values| / 2 && values[2 * i] <= x < values[2 * i] + values[2 * i + 1]
  {
    InPairs(values, |values| / 2, x);
  }

  /** Appending a value never changes the pairs before it. */
  lemma {:induction false} PairsOfLonger(values: seq<nat>, more: seq<nat>, n: nat)
    requires 2 * n <= |values|
    ensures Pairs(values + more, n) == Pairs(values, n)
  {
    if n > 0 {
      PairsOfLonger(values, more, n - 1);
      assert (values + more)[2 * (n - 1)] == values[2 * (n - 1)];
      assert (values + more)[2 * (n - 1) + 1] == values[2 * (n - 1) + 1];
    }
  }

  /** A trailing unpaired value is ignored. */
  lemma TrailingValueIgnored(values: seq<nat>, x: nat)
    requires |values| % 2 == 0
    ensures Seeds(values + [x]) == Seeds(values)
  {
    assert |values + [x]| / 2 == |values| / 2;
    PairsOfLonger(values, [x], |values| / 2);
  }

  /** The example's seed line `79 14 55 13` stands for 27 seeds, fewer
      than a hundred, so `solution` divides by zero on it. */
  lemma ExampleSeedCount()
    ensures |Seeds([79, 14, 55, 13])| == 27
  {
    var values: seq<nat> := [79, 14, 55, 13];
    assert Pairs(values, 1) == Span(79, 14);
    assert Pairs(values, 2) == Span(79, 14) + Span(55, 13);
  }

  /** The two nested loops that push every seed of every pair. */
  method ExpandSeeds(values: seq<nat>) returns (seeds: seq<nat>)
    ensures seeds == Seeds(values)
  {
    seeds := [];
    for i := 0 to |values| / 2
      invariant seeds == Pairs(values, i)
    {
      var range_start := values[i * 2];
      var range_length := values[i * 2 + 1];
      ghost var before := seeds;
      for j := 0 to range_length
        invariant seeds == before + Span(range_start, j)
      {
        assert Span(range_start, j + 1) == Span(range_start, j) + [range_start + j];
        seeds := seeds + [range_start + j];
      }
    }
  }

  /** Rust's `solution`: the expansion, then the lowest final value. The
      progress report evaluates `i % divs` with `divs = num_seeds / 100`,
      which divides by zero on the first seed when there are fewer than a
      hundred; with no seed at all `min().unwrap()` panics. */
  method Solution(values: seq<nat>, maps: seq<seq<Range>>) returns (r: Result<nat>)
    ensures r.Panic? <==> |Seeds(values)| < 100
    ensures r.Ok? ==> exists i :: 0 <= i < |Seeds(values)| && r.value == Through(maps, Seeds(values)[i])
    ensures r.Ok? ==> forall i :: 0 <= i < |Seeds(values)| ==> r.value <= Through(maps, Seeds(values)[i])
  {
    var seeds := ExpandSeeds(values);
    var num_seeds := |seeds|;
    var divs := num_seeds / 100;
    var best: Option<nat> := None;
    for i := 0 to |seeds|
      invariant i == 0 || divs > 0
      invariant best.None? <==> i == 0
      invariant best.Some? ==> exists j :: 0 <= j < i && best.value == Through(maps, seeds[j])
      invariant best.Some? ==> forall j :: 0 <= j < i ==> best.value <= Through(maps, seeds[j])
    {
      if divs == 0 {
        return Panic;
      }
      var loc := Locate(maps, seeds[i]);
      if best.None? || loc < best.value {
        best := Some(loc);
      }
    }
    if best.None? {
      return Panic;
    }
    r := Ok(best.value);
  }
}
