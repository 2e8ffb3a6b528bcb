/** Day 1, part one: each line's calibration value is formed from its
    leftmost and rightmost numeral, and the answer is their sum. */
module Day01a {
  import opened Common

  /** `s` holds no numeral. */
  predicate NoDigit(s: string)
  {
    forall i :: 0 <= i < |s| ==> !IsDigit(s[i])
  }

  /** Index of the leftmost numeral (Rust's `find(char::is_numeric)`). */
  function FindDigit(s: string): (r: Option<nat>)
    ensures r.Some? ==> r.value < |s| && IsDigit(s[r.value]) && NoDigit(s[..r.value])
    ensures r.None? <==> NoDigit(s)
  {
    if s == [] then None
    else if IsDigit(s[0]) then Some(0)
    else
      match FindDigit(s[1..])
      case None => None
      case Some(i) =>
        assert s[..i + 1] == [s[0]] + s[1..][..i];
        Some(i + 1)
  }

  /** Index of the rightmost numeral (Rust's `rfind(char::is_numeric)`). */
  function RFindDigit(s: string): (r: Option<nat>)
    ensures r.Some? ==> r.value < |s| && IsDigit(s[r.value]) && NoDigit(s[r.value + 1..])
    ensures r.None? <==> NoDigit(s)
  {
    if s == [] then None
    else if IsDigit(s[|s| - 1]) then Some(|s| - 1)
    else
      match RFindDigit(s[..|s| - 1])
      case None => None
      case Some(i) =>
        assert s[i + 1..] == s[..|s| - 1][i + 1..] + [s[|s| - 1]];
        Some(i)
  }

  /** A line's calibration value: the two numerals written side by side
      and read as a decimal number; a line without a numeral panics. */
  function LineValue(l: string): Result<nat>
  {
    if FindDigit(l).None? then Panic
    else Ok(10 * DigitValue(l[FindDigit(l).value]) + DigitValue(l[RFindDigit(l).value]))
  }

  /** The sum of the line values, or a panic if some line has no
      numeral. */
  function Solution(lines: seq<string>): (r: Result<int>)
    ensures r.Panic? <==> exists i :: 0 <= i < |lines| && LineValue(lines[i]).Panic?
  {
    var each := seq(|lines|, i requires 0 <= i < |lines| => LineValue(lines[i]));
    assert forall i :: 0 <= i < |lines| ==> each[i] == LineValue(lines[i]);
    match Collect(each)
    case Panic => Panic
    case Ok(values) => Ok(Sum(values))
  }

  // ---------------------------------------------------------------------

  /** No numeral lies before the one `find` returns. */
  lemma BeforeFirst(s: string, i: nat, k: nat)
    ensures i <= |s| && NoDigit(s[..i]) && k < i ==> !IsDigit(s[k])
  {
    if i <= |s| && k < i {
      assert s[..i][k] == s[k];
    }
  }

  /** No numeral lies after the one `rfind` returns. */
  lemma AfterLast(s: string, j: nat, k: nat)
    ensures j < k < |s| && NoDigit(s[j + 1..]) ==> !IsDigit(s[k])
  {
    if j < k < |s| {
      assert s[j + 1..][k - j - 1] == s[k];
    }
  }

  lemma SuffixNoDigit(l: string, n: nat, k: nat)
    requires n <= |l| && NoDigit(l[n..])
    ensures n <= k < |l| ==> !IsDigit(l[k])
  {
    if n <= k < |l| {
      assert l[n..][k - n] == l[k];
    }
  }

  /** The leftmost numeral follows a stretch without one. */
  lemma FindAfterPrefix(a: string, x: char, rest: string)
    requires NoDigit(a) && IsDigit(x)
    ensures FindDigit(a + [x] + rest) == Some(|a|)
  {
    var l := a + [x] + rest;
    assert l[|a|] == x;
    assert forall k :: 0 <= k < |a| ==> l[k] == a[k];
    BeforeFirst(l, FindDigit(l).value, |a|);
  }

  /** The rightmost numeral precedes a stretch without one. */
  lemma RFindBeforeSuffix(init: string, y: char, b: string)
    requires NoDigit(b) && IsDigit(y)
    ensures RFindDigit(init + [y] + b) == Some(|init|)
  {
    var l := init + [y] + b;
    assert l[|init|] == y;
    assert l[|init| + 1..] == b;
    var j := RFindDigit(l).value;
    AfterLast(l, j, |init|);
    assert j <= |init| by {
      SuffixNoDigit(l, |init| + 1, j);
    }
  }

  /** The value of a line depends only on its outermost numerals `x` and
      `y`, whatever lies between them. */
  lemma OutermostDigits(a: string, x: char, m: string, y: char, b: string)
    requires NoDigit(a) && NoDigit(b) && IsDigit(x) && IsDigit(y)
    ensures LineValue(a + [x] + m + [y] + b) == Ok(10 * DigitValue(x) + DigitValue(y))
  {
    var l := a + [x] + m + [y] + b;
    assert l == a + [x] + (m + [y] + b);
    FindAfterPrefix(a, x, m + [y] + b);
    RFindBeforeSuffix(a + [x] + m, y, b);
  }

  /** A line with a single numeral `x` has the value 11·x, because the
      leftmost and rightmost numeral are the same one. */
  lemma SingleDigit(a: string, x: char, b: string)
    requires NoDigit(a) && NoDigit(b) && IsDigit(x)
    ensures LineValue(a + [x] + b) == Ok(11 * DigitValue(x))
  {
    FindAfterPrefix(a, x, b);
    RFindBeforeSuffix(a, x, b);
  }

  /** A line panics exactly when it holds no numeral. */
  lemma PanicsWithoutDigit(l: string)
    ensures LineValue(l).Panic? <==> NoDigit(l)
  {
  }

  /** The answer is the sum of the line values, and it panics exactly when
      some line does. */
  lemma SolutionSums(lines: seq<string>)
    ensures Solution(lines).Panic? <==> exists i :: 0 <= i < |lines| && NoDigit(lines[i])
    ensures Solution(lines).Ok? ==>
      Solution(lines).value == Sum(seq(|lines|, i requires 0 <= i < |lines| => LineValue(lines[i]).value))
  {
    var each := seq(|lines|, i requires 0 <= i < |lines| => LineValue(lines[i]));
    assert forall i :: 0 <= i < |lines| ==> each[i] == LineValue(lines[i]);
    forall i | 0 <= i < |lines|
      ensures LineValue(lines[i]).Panic? <==> NoDigit(lines[i])
    {
      PanicsWithoutDigit(lines[i]);
    }
    if Solution(lines).Ok? {
      var values := Collect(each).value;
      assert values == seq(|lines|, i requires 0 <= i < |lines| => LineValue(lines[i]).value);
    }
  }
}
