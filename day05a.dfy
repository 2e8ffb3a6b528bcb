/** Day 5, part one: every seed is sent through a chain of maps; each map is
    a list of ranges, the first range holding a value moves it by the
    range's offset, and a value no range holds passes through unchanged.
    The answer is the lowest final value. */
module Day05a {
  import opened Common

  /** A line `dest_start source_start length` of a map. */
  datatype Range = Range(dest_start: nat, source_start: nat, length: nat)

  predicate Holds(range: Range, v: nat)
  {
    range.source_start <= v < range.source_start + range.length
  }

  /** Where `range` sends a value it holds. */
  function Moved(range: Range, v: nat): nat
    requires Holds(range, v)
  {
    range.dest_start + (v - range.source_start)
  }

  /** Range `i` is the first that holds `v`. */
  predicate FirstHolder(ranges: seq<Range>, v: nat, i: int)
  {
    0 <= i < |ranges| && Holds(ranges[i], v) && forall j :: 0 <= j < i ==> !Holds(ranges[j], v)
  }

  /** The `find_map ... unwrap_or(source_val)` over one map: the first range
      holding `v` decides, and without one `v` stays. */
  function MapValue(ranges: seq<Range>, v: nat): (r: nat)
    ensures (forall i :: 0 <= i < |ranges| ==> !Holds(ranges[i], v)) ==> r == v
    ensures forall i :: FirstHolder(ranges, v, i) ==> r == Moved(ranges[i], v)
  {
    if ranges == [] then v
    else if Holds(ranges[0], v) then Moved(ranges[0], v)
    else
      assert forall i :: 1 <= i < |ranges| ==> ranges[1..][i - 1] == ranges[i];
      MapValue(ranges[1..], v)
  }

  /** Ranges after one that holds `v` never matter. */
  lemma LaterRangesIgnored(ranges: seq<Range>, more: seq<Range>, v: nat)
    requires exists i :: 0 <= i < |ranges| && Holds(ranges[i], v)
    ensures MapValue(ranges + more, v) == MapValue(ranges, v)
  {
    var i :| 0 <= i < |ranges| && Holds(ranges[i], v);
    var first := FirstHolding(ranges, v, i);
    assert forall j :: 0 <= j <= first ==> (ranges + more)[j] == ranges[j];
    assert FirstHolder(ranges + more, v, first);
  }

  /** The position of the first range holding `v`, at or before `i`. */
  lemma {:induction false} FirstHolding(ranges: seq<Range>, v: nat, i: nat) returns (first: nat)
    requires i < |ranges| && Holds(ranges[i], v)
    ensures first <= i && FirstHolder(ranges, v, first)
  {
    if exists j :: 0 <= j < i && Holds(ranges[j], v) {
      var j :| 0 <= j < i && Holds(ranges[j], v);
      first := FirstHolding(ranges, v, j);
    } else {
      first := i;
    }
  }

  /** The value after the maps `maps`, applied in order, each to the
      previous one's output. */
  function Through(maps: seq<seq<Range>>, v: nat): nat
  {
    if maps == [] then v else MapValue(maps[|maps| - 1], Through(maps[..|maps| - 1], v))
  }

  /** Running two chains one after the other is running their
      concatenation. */
  lemma {:induction false} ThroughComposes(a: seq<seq<Range>>, b: seq<seq<Range>>, v: nat)
    ensures Through(a + b, v) == Through(b, Through(a, v))
  {
    if b == [] {
      assert a + b == a;
    } else {
      assert (a + b)[..|a + b| - 1] == a + b[..|b| - 1];
      ThroughComposes(a, b[..|b| - 1], v);
    }
  }

  /** Maps whose ranges hold nothing leave every value alone. */
  lemma {:induction false} EmptyMapsIdentity(maps: seq<seq<Range>>, v: nat)
    requires forall k :: 0 <= k < |maps| ==> maps[k] == []
    ensures Through(maps, v) == v
  {
    if maps != [] {
      EmptyMapsIdentity(maps[..|maps| - 1], v);
    }
  }

  /** The loop `for map in maps.iter()` that updates `source_val`. */
  method Locate(maps: seq<seq<Range>>, seed: nat) returns (source_val: nat)
    ensures source_val == Through(maps, seed)
  {
    source_val := seed;
    for k := 0 to |maps|
      invariant source_val == Through(maps[..k], seed)
    {
      assert maps[..k + 1][..k] == maps[..k];
      source_val := MapValue(maps[k], source_val);
    }
    assert maps[..|maps|] == maps;
  }

  /** The seeds: the numbers after the seven-character "seeds: " prefix of
      the first line; a shorter line panics. */
  function SeedValues(line: string): Result<seq<nat>>
  {
    if |line| < 7 then Panic else Ok(Numbers(line[7..], UsizeLimit))
  }

  /** A line "seeds: " followed by space-separated numbers yields those
      numbers. */
  lemma SeedLine(nums: seq<nat>)
    requires forall i :: 0 <= i < |nums| ==> nums[i] < UsizeLimit
    ensures SeedValues("seeds: " + Join(Decimals(nums), " ")) == Ok(nums)
  {
    assert ("seeds: " + Join(Decimals(nums), " "))[7..] == Join(Decimals(nums), " ");
    NumbersOfDecimals(nums, UsizeLimit);
  }

  /** The lowest of the seeds' final values; `min().unwrap()` panics when
      there is no seed. */
  method Solution(seeds: seq<nat>, maps: seq<seq<Range>>) returns (r: Result<nat>)
    ensures r.Panic? <==> seeds == []
    ensures r.Ok? ==> exists i :: 0 <= i < |seeds| && r.value == Through(maps, seeds[i])
    ensures r.Ok? ==> forall i :: 0 <= i < |seeds| ==> r.value <= Through(maps, seeds[i])
  {
    if seeds == [] {
      return Panic;
    }
    var best := Locate(maps, seeds[0]);
    for i := 1 to |seeds|
      invariant exists j :: 0 <= j < i && best == Through(maps, seeds[j])
      invariant forall j :: 0 <= j < i ==> best <= Through(maps, seeds[j])
    {
      var loc := Locate(maps, seeds[i]);
      if loc < best {
        best := loc;
      }
    }
    r := Ok(best);
  }
}
