/** Day 12, part two: every line is unfolded (its pattern five times over,
    joined by '?', and its runs five times over) and the arrangements are
    counted by a recursion that caches what it has counted. Unlike part
    one, this recursion stops at the empty pattern, and it counts exactly
    the fillings of the unknowns whose runs of damaged springs are the
    given ones. */
module Day12b {
  import opened Common
  import Day12a

  // ---------------------------------------------------------------------
  // The count

  /** `num_arrangements` without its cache: `count` is the number of '#'
      just before `pattern`. An unknown '?' is tried as '.' and as '#'. */
  function Arrangements(pattern: string, runs: seq<nat>, count: nat): nat
    decreases |pattern|, 1
  {
    if pattern == [] then
      if |runs| == 1 && runs[0] == count then 1
      else if runs == [] && count == 0 then 1
      else 0
    else if pattern[0] == '?' then Branch('.', pattern[1..], runs, count) + Branch('#', pattern[1..], runs, count)
    else Branch(pattern[0], pattern[1..], runs, count)
  }

  /** One of the values tried for the first character, `rest` being what
      follows it: '#' extends the run, '.' closes a run that matches the
      first expected one or passes over no run, and anything else (the
      space that pads the pair of values) counts nothing. */
  function Branch(c: char, rest: string, runs: seq<nat>, count: nat): nat
    decreases |rest| + 1, 0
  {
    if c == '#' then Arrangements(rest, runs, count + 1)
    else if c == '.' then
      if runs != [] && count == runs[0] then Arrangements(rest, runs[1..], 0)
      else if count == 0 then Arrangements(rest, runs, 0)
      else 0
    else 0
  }

  // ---------------------------------------------------------------------
  // What the count means

  /** The lengths of the runs of '#' in `count` '#' followed by `s`, in
      order; every character other than '#' separates runs. */
  function Runs(s: string, count: nat): seq<nat>
    decreases |s|
  {
    if s == [] then (if count > 0 then [count] else [])
    else if s[0] == '#' then Runs(s[1..], count + 1)
    else (if count > 0 then [count] else []) + Runs(s[1..], 0)
  }

  /** A character of a filled-in row fits the character of the pattern. */
  predicate Fits(p: char, s: char)
  {
    if p == '?' then s == '.' || s == '#' else (p == '.' || p == '#') && s == p
  }

  /** `s` is `pattern` with every unknown replaced by '.' or '#'. */
  predicate Fills(pattern: string, s: string)
  {
    |s| == |pattern| && forall i :: 0 <= i < |s| ==> Fits(pattern[i], s[i])
  }

  function Prefix(c: char, ss: seq<string>): (r: seq<string>)
    ensures |r| == |ss| && forall i :: 0 <= i < |ss| ==> r[i] == [c] + ss[i]
  {
    seq(|ss|, i requires 0 <= i < |ss| => [c] + ss[i])
  }

  /** Every filling of `pattern`, each once; none when the pattern holds a
      character other than '.', '#' and '?'. */
  function Completions(pattern: string): seq<string>
    decreases |pattern|
  {
    if pattern == [] then [""]
    else
      var tails := Completions(pattern[1..]);
      if pattern[0] == '?' then Prefix('.', tails) + Prefix('#', tails)
      else if pattern[0] == '.' || pattern[0] == '#' then Prefix(pattern[0], tails)
      else []
  }

  /** The completions are fillings of the pattern. */
  lemma {:induction false} CompletionsFill(pattern: string)
    ensures forall i :: 0 <= i < |Completions(pattern)| ==> Fills(pattern, Completions(pattern)[i])
    decreases |pattern|
  {
    if pattern != [] {
      var rest := pattern[1..];
      CompletionsFill(rest);
      var cs := Completions(pattern);
      forall i | 0 <= i < |cs|
        ensures Fills(pattern, cs[i])
      {
        var tails := Completions(rest);
        var tail := if pattern[0] == '?' && i >= |tails| then tails[i - |tails|] else tails[i];
        assert cs[i] == [cs[i][0]] + tail;
        assert Fills(rest, tail);
        forall k | 0 <= k < |cs[i]|
          ensures Fits(pattern[k], cs[i][k])
        {
          if k > 0 {
            assert cs[i][k] == tail[k - 1] && pattern[k] == rest[k - 1];
          }
        }
      }
    }
  }

  /** Every filling of the pattern is among its completions. */
  lemma {:induction false} FillsCompleted(pattern: string, s: string)
    requires Fills(pattern, s)
    ensures s in Completions(pattern)
    decreases |pattern|
  {
    if pattern != [] {
      var rest := pattern[1..];
      assert Fills(rest, s[1..]) by {
        forall k | 0 <= k < |s[1..]|
          ensures Fits(rest[k], s[1..][k])
        {
          assert Fits(pattern[k + 1], s[k + 1]);
        }
      }
      FillsCompleted(rest, s[1..]);
      var tails := Completions(rest);
      var j :| 0 <= j < |tails| && tails[j] == s[1..];
      assert Fits(pattern[0], s[0]);
      assert s == [s[0]] + tails[j];
      if pattern[0] == '?' && s[0] == '#' {
        assert (Prefix('.', tails) + Prefix('#', tails))[|tails| + j] == s;
      } else {
        assert Prefix(s[0], tails)[j] == s;
      }
    }
  }

  predicate Distinct(ss: seq<string>)
  {
    forall i, j :: 0 <= i < j < |ss| ==> ss[i] != ss[j]
  }

  lemma PrefixDistinct(c: char, ss: seq<string>)
    requires Distinct(ss)
    ensures Distinct(Prefix(c, ss))
  {
    var ps := Prefix(c, ss);
    forall i, j | 0 <= i < j < |ps|
      ensures ps[i] != ps[j]
    {
      assert ps[i][1..] == ss[i] && ps[j][1..] == ss[j];
    }
  }

  /** Fillings starting '.' differ from those starting '#'. */
  lemma BothDistinct(ss: seq<string>)
    requires Distinct(ss)
    ensures Distinct(Prefix('.', ss) + Prefix('#', ss))
  {
    PrefixDistinct('.', ss);
    PrefixDistinct('#', ss);
    var dots, hashes := Prefix('.', ss), Prefix('#', ss);
    var both := dots + hashes;
    forall i, j | 0 <= i < j < |both|
      ensures both[i] != both[j]
    {
      if i < |dots| <= j {
        assert both[i][0] == '.' && both[j][0] == '#';
      } else if j < |dots| {
        assert both[i] == dots[i] && both[j] == dots[j];
      } else {
        assert both[i] == hashes[i - |dots|] && both[j] == hashes[j - |dots|];
      }
    }
  }

  /** No filling is listed twice. */
  lemma {:induction false} CompletionsDistinct(pattern: string)
    ensures Distinct(Completions(pattern))
    decreases |pattern|
  {
    if pattern != [] {
      var rest := pattern[1..];
      CompletionsDistinct(rest);
      if pattern[0] == '?' {
        BothDistinct(Completions(rest));
      } else if pattern[0] == '.' || pattern[0] == '#' {
        PrefixDistinct(pattern[0], Completions(rest));
      }
    }
  }

  /** The number of strings in `ss` whose runs after `count` '#' are
      `runs`. */
  function CountWhere(ss: seq<string>, runs: seq<nat>, count: nat): nat
  {
    if ss == [] then 0
    else (if Runs(ss[0], count) == runs then 1 else 0) + CountWhere(ss[1..], runs, count)
  }

  lemma {:induction false} CountAppend(a: seq<string>, b: seq<string>, runs: seq<nat>, count: nat)
    ensures CountWhere(a + b, runs, count) == CountWhere(a, runs, count) + CountWhere(b, runs, count)
  {
    if a == [] {
      assert a + b == b;
    } else {
      assert (a + b)[1..] == a[1..] + b;
      CountAppend(a[1..], b, runs, count);
    }
  }

  /** A '#' in front lengthens the run in progress. */
  lemma {:induction false} CountHash(ss: seq<string>, runs: seq<nat>, count: nat)
    ensures CountWhere(Prefix('#', ss), runs, count) == CountWhere(ss, runs, count + 1)
  {
    if ss != [] {
      var ps := Prefix('#', ss);
      assert ps[0][1..] == ss[0];
      assert ps[1..] == Prefix('#', ss[1..]);
      CountHash(ss[1..], runs, count);
    }
  }

  /** A '.' in front closes the run in progress, if any. */
  lemma {:induction false} CountDot(ss: seq<string>, runs: seq<nat>, count: nat)
    ensures count > 0 ==> CountWhere(Prefix('.', ss), runs, count) == if runs != [] && runs[0] == count then CountWhere(ss, runs[1..], 0) else 0
    ensures count == 0 ==> CountWhere(Prefix('.', ss), runs, count) == CountWhere(ss, runs, 0)
  {
    if ss != [] {
      var ps := Prefix('.', ss);
      assert ps[0][1..] == ss[0];
      assert ps[1..] == Prefix('.', ss[1..]);
      CountDot(ss[1..], runs, count);
      if count > 0 {
        assert Runs(ps[0], count) == [count] + Runs(ss[0], 0);
        if runs != [] && runs[0] == count {
          assert runs == [count] + runs[1..];
        }
      }
    }
  }

  /** No run is empty, as in every line of a puzzle. */
  predicate Positive(runs: seq<nat>)
  {
    forall i :: 0 <= i < |runs| ==> runs[i] > 0
  }

  /** The count is the number of fillings of the pattern whose runs of
      damaged springs, after the `count` just before it, are the given
      ones; each filling is counted once (CompletionsFill, FillsCompleted,
      CompletionsDistinct). A run of length 0 would not be a run of
      `Runs` at all, hence the condition. */
  lemma {:induction false} ArrangementsCount(pattern: string, runs: seq<nat>, count: nat)
    requires Positive(runs)
    ensures Arrangements(pattern, runs, count) == CountWhere(Completions(pattern), runs, count)
    decreases |pattern|, 1
  {
    if pattern == [] {
      assert CountWhere([""], runs, count) == if Runs("", count) == runs then 1 else 0;
    } else {
      var rest := pattern[1..];
      if pattern[0] == '?' {
        BranchCount('.', rest, runs, count);
        BranchCount('#', rest, runs, count);
        CountAppend(Prefix('.', Completions(rest)), Prefix('#', Completions(rest)), runs, count);
      } else if pattern[0] == '.' || pattern[0] == '#' {
        BranchCount(pattern[0], rest, runs, count);
      }
    }
  }

  lemma {:induction false} BranchCount(c: char, rest: string, runs: seq<nat>, count: nat)
    requires Positive(runs) && (c == '.' || c == '#')
    ensures Branch(c, rest, runs, count) == CountWhere(Prefix(c, Completions(rest)), runs, count)
    decreases |rest| + 1, 0
  {
    var tails := Completions(rest);
    if c == '#' {
      ArrangementsCount(rest, runs, count + 1);
      CountHash(tails, runs, count);
    } else {
      CountDot(tails, runs, count);
      if runs != [] && count == runs[0] {
        assert Positive(runs[1..]);
        ArrangementsCount(rest, runs[1..], 0);
      } else if count == 0 {
        ArrangementsCount(rest, runs, 0);
      }
    }
  }

  // ---------------------------------------------------------------------
  // The cached recursion

  type Key = (string, seq<nat>, nat)

  /** The cache, from pattern, runs and run in progress to the count. */
  type Memo = map<Key, nat>

  /** Every cached count is the count for its key. */
  ghost predicate Sound(memo: Memo)
  {
    forall key | key in memo :: memo[key] == Arrangements(key.0, key.1, key.2)
  }

  /** `num_arrangements`: the cache never changes the count, only grows,
      and holds the key asked for once the pattern is non-empty. */
  method Count(pattern: string, runs: seq<nat>, count: nat, memo: Memo) returns (r: nat, memo': Memo)
    requires Sound(memo)
    ensures r == Arrangements(pattern, runs, count)
    ensures Sound(memo') && memo.Keys <= memo'.Keys
    ensures pattern != [] ==> (pattern, runs, count) in memo'
    decreases |pattern|, 1
  {
    if (pattern, runs, count) in memo {
      return memo[(pattern, runs, count)], memo;
    }
    if pattern == [] {
      r := if |runs| == 1 && runs[0] == count then 1 else if runs == [] && count == 0 then 1 else 0;
      return r, memo;
    }
    var current := pattern[0];
    var rest := pattern[1..];
    var first, second := if current == '?' then '.' else current, if current == '?' then '#' else ' ';
    var a, b;
    a, memo' := Possibility(first, rest, runs, count, memo);
    b, memo' := Possibility(second, rest, runs, count, memo');
    r := a + b;
    memo' := memo'[(pattern, runs, count) := r];
  }

  /** The count for one of the values tried for the first character. */
  method Possibility(c: char, rest: string, runs: seq<nat>, count: nat, memo: Memo) returns (r: nat, memo': Memo)
    requires Sound(memo)
    ensures r == Branch(c, rest, runs, count)
    ensures Sound(memo') && memo.Keys <= memo'.Keys
    decreases |rest| + 1, 0
  {
    if c == '#' {
      r, memo' := Count(rest, runs, count + 1, memo);
    } else if c == '.' {
      if runs != [] && count == runs[0] {
        r, memo' := Count(rest, runs[1..], 0, memo);
      } else if count == 0 {
        r, memo' := Count(rest, runs, 0, memo);
      } else {
        r, memo' := 0, memo;
      }
    } else {
      r, memo' := 0, memo;
    }
  }

  // ---------------------------------------------------------------------
  // Unfolding

  function Repeat<T>(x: T, n: nat): (r: seq<T>)
    ensures |r| == n && forall i :: 0 <= i < n ==> r[i] == x
  {
    if n == 0 then [] else [x] + Repeat(x, n - 1)
  }

  /** `xs` written out `n` times in a row. */
  function Cycle<T>(xs: seq<T>, n: nat): seq<T>
  {
    if n == 0 then [] else xs + Cycle(xs, n - 1)
  }

  /** The pattern unfolded: five copies joined by '?'. */
  function Unfold(pattern: string): string
  {
    Join(Repeat(pattern, 5), "?")
  }

  /** Parsing the run list repeated and joined by ',' gives the runs
      repeated, and panics exactly when the list does. */
  lemma {:induction false} UnfoldRuns(text: string, n: nat)
    requires n >= 1
    ensures Day12a.ParseRuns(Join(Repeat(text, n), ",")) == match Day12a.ParseRuns(text) case Panic => Panic case Ok(rs) => Ok(Cycle(rs, n))
  {
    if n > 1 {
      UnfoldRuns(text, n - 1);
      ParseRunsJoined(text, Join(Repeat(text, n - 1), ","));
      assert Repeat(text, n) == [text] + Repeat(text, n - 1);
      JoinCons(text, Repeat(text, n - 1), ",");
    } else {
      assert Repeat(text, 1) == [text];
      match Day12a.ParseRuns(text)
      case Panic =>
      case Ok(rs) => assert Cycle(rs, 1) == rs;
    }
  }

  /** Two run lists joined by ',' parse to the two lists of runs. */
  lemma ParseRunsJoined(text: string, more: string)
    ensures Day12a.ParseRuns(text + "," + more) == if Day12a.ParseRuns(text).Ok? && Day12a.ParseRuns(more).Ok? then Ok(Day12a.ParseRuns(text).value + Day12a.ParseRuns(more).value) else Panic
  {
    SplitAppend(text, ',', more);
    var a, b := Split(text, ","), Split(more, ",");
    PiecesAppend(a, b);
    CollectAppend(Day12a.ParsedPieces(a), Day12a.ParsedPieces(b));
  }

  lemma PiecesAppend(a: seq<string>, b: seq<string>)
    ensures Day12a.ParsedPieces(a + b) == Day12a.ParsedPieces(a) + Day12a.ParsedPieces(b)
  {
  }

  /** One line unfolded: `split_once(' ')` with `unwrap`, the pattern
      unfolded, the run list repeated and parsed. */
  function UnfoldLine(line: string): Result<(string, seq<nat>)>
  {
    match SplitOnce(line, " ")
    case None => Panic
    case Some((pattern, text)) =>
      match Day12a.ParseRuns(Join(Repeat(text, 5), ","))
      case Panic => Panic
      case Ok(runs) => Ok((Unfold(pattern), runs))
  }

  /** An unfolded line holds the runs of the folded one five times over. */
  lemma UnfoldLineRuns(line: string)
    requires SplitOnce(line, " ").Some?
    ensures UnfoldLine(line).Ok? <==> Day12a.ParseRuns(SplitOnce(line, " ").value.1).Ok?
    ensures UnfoldLine(line).Ok? ==> UnfoldLine(line).value == (Unfold(SplitOnce(line, " ").value.0), Cycle(Day12a.ParseRuns(SplitOnce(line, " ").value.1).value, 5))
  {
    UnfoldRuns(SplitOnce(line, " ").value.1, 5);
  }

  /** The sum of the counts of the unfolded lines. */
  function Total(entries: seq<(string, seq<nat>)>): nat
  {
    if entries == [] then 0
    else Total(entries[..|entries| - 1]) + Arrangements(entries[|entries| - 1].0, entries[|entries| - 1].1, 0)
  }

  /** The first pass of Rust's `solution`: every line unfolded, a line
      that does not parse panicking. */
  method UnfoldAll(lines: seq<string>) returns (r: Result<seq<(string, seq<nat>)>>)
    ensures r.Panic? <==> exists i :: 0 <= i < |lines| && UnfoldLine(lines[i]).Panic?
    ensures r.Ok? ==> |r.value| == |lines| && forall k :: 0 <= k < |lines| ==> UnfoldLine(lines[k]) == Ok(r.value[k])
  {
    var entries: seq<(string, seq<nat>)> := [];
    for i := 0 to |lines|
      invariant |entries| == i
      invariant forall k :: 0 <= k < i ==> UnfoldLine(lines[k]) == Ok(entries[k])
    {
      var entry := UnfoldLine(lines[i]);
      if entry.Panic? {
        return Panic;
      }
      entries := entries + [entry.value];
    }
    r := Ok(entries);
  }

  /** The second pass: the counts summed through one cache shared by all
      lines. */
  method SumCounts(entries: seq<(string, seq<nat>)>) returns (total: nat)
    ensures total == Total(entries)
  {
    var memo: Memo := map[];
    total := 0;
    for i := 0 to |entries|
      invariant Sound(memo)
      invariant total == Total(entries[..i])
    {
      var n;
      n, memo := Count(entries[i].0, entries[i].1, 0, memo);
      assert entries[..i + 1][..i] == entries[..i];
      total := total + n;
    }
    assert entries[..|entries|] == entries;
  }

  /** Rust's `solution`. */
  method Solution(lines: seq<string>) returns (r: Result<nat>)
    ensures r.Panic? <==> exists i :: 0 <= i < |lines| && UnfoldLine(lines[i]).Panic?
    ensures r.Ok? ==> r.value == Total(seq(|lines|, i requires 0 <= i < |lines| => UnfoldLine(lines[i]).value))
  {
    var entries := UnfoldAll(lines);
    if entries.Panic? {
      return Panic;
    }
    var total := SumCounts(entries.value);
    assert entries.value == seq(|lines|, i requires 0 <= i < |lines| => UnfoldLine(lines[i]).value);
    r := Ok(total);
  }

  /** Part one as it was meant to count: the same folded line, counted by
      the recursion that stops at the empty pattern. */
  function CorrectedLineCount(line: string): (r: Result<nat>)
    ensures r.Panic? <==> Day12a.ParseLine(line).Panic?
  {
    match Day12a.ParseLine(line)
    case Panic => Panic
    case Ok((pattern, runs)) => Ok(Arrangements(pattern, runs, 0))
  }

  /** The corrected count of a folded line is the number of fillings of
      its pattern whose runs are the line's runs. */
  lemma CorrectedCounts(line: string)
    requires Day12a.ParseLine(line).Ok? && Positive(Day12a.ParseLine(line).value.1)
    ensures CorrectedLineCount(line) == Ok(CountWhere(Completions(Day12a.ParseLine(line).value.0), Day12a.ParseLine(line).value.1, 0))
  {
    var (pattern, runs) := Day12a.ParseLine(line).value;
    ArrangementsCount(pattern, runs, 0);
  }

  /** The line "# 1", on which part one panics, has its one arrangement. */
  lemma CorrectedSingle()
    ensures CorrectedLineCount("# 1") == Ok(1)
    ensures Completions("#") == ["#"] && Runs("#", 0) == [1]
  {
    Day12a.ParseSingle();
    assert "#"[1..] == "";
    assert Completions("") == [""];
    assert Prefix('#', [""])[0] == "#";
    assert Completions("#") == Prefix('#', [""]);
    assert Runs("", 1) == [1];
  }
}
