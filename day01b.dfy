/** Day 1, part two: a digit is a numeral or one of the words "one" to
    "nine", and each line's value is formed from its leftmost and rightmost
    digit. */
module Day01b {
  import opened Common
  import opened Day01a

  /** Each spelled-out digit and the numeral it stands for. */
  const Replacements: seq<(string, char)> := [
    ("one", '1'), ("two", '2'), ("three", '3'), ("four", '4'), ("five", '5'),
    ("six", '6'), ("seven", '7'), ("eight", '8'), ("nine", '9')
  ]

  /** A table of spelled-out digits as the reasoning below needs it: each
      word has at least two letters and starts with a letter, and no two
      words agree on their first two letters, so at most one of them starts
      at any index. */
  predicate WellFormed(table: seq<(string, char)>)
  {
    Shaped(table) && Distinct(table)
  }

  predicate Shaped(table: seq<(string, char)>)
  {
    forall k :: 0 <= k < |table| ==> |table[k].0| >= 2 && !IsDigit(table[k].0[0]) && IsDigit(table[k].1)
  }

  predicate Distinct(table: seq<(string, char)>)
    requires Shaped(table)
  {
    forall k, k' :: 0 <= k < k' < |table| ==>
      table[k].0[0] != table[k'].0[0] || table[k].0[1] != table[k'].0[1]
  }

  lemma ReplacementsWellFormed()
    ensures WellFormed(Replacements)
  {
    ReplacementsShaped();
    ReplacementsDistinct();
  }

  lemma ReplacementsShaped()
    ensures Shaped(Replacements)
  {
  }

  lemma ReplacementsDistinct()
    ensures Shaped(Replacements) && Distinct(Replacements)
  {
    ReplacementsShaped();
    assert Replacements[0].0[0] == 'o' && Replacements[0].0[1] == 'n';
    assert Replacements[1].0[0] == 't' && Replacements[1].0[1] == 'w';
    assert Replacements[2].0[0] == 't' && Replacements[2].0[1] == 'h';
    assert Replacements[3].0[0] == 'f' && Replacements[3].0[1] == 'o';
    assert Replacements[4].0[0] == 'f' && Replacements[4].0[1] == 'i';
    assert Replacements[5].0[0] == 's' && Replacements[5].0[1] == 'i';
    assert Replacements[6].0[0] == 's' && Replacements[6].0[1] == 'e';
    assert Replacements[7].0[0] == 'e' && Replacements[7].0[1] == 'i';
    assert Replacements[8].0[0] == 'n' && Replacements[8].0[1] == 'i';
  }

  /** The digit, if any, spelled by a word of the table from index `k` on
      that starts at index `i` of `l`. */
  function WordAt(table: seq<(string, char)>, l: string, i: nat, k: nat): (r: Option<char>)
    requires k <= |table|
    ensures r.Some? ==> exists k' :: k <= k' < |table| && OccursAt(l, table[k'].0, i) && r.value == table[k'].1
    ensures r.None? ==> forall k' :: k <= k' < |table| ==> !OccursAt(l, table[k'].0, i)
    decreases |table| - k
  {
    if k == |table| then None
    else if OccursAt(l, table[k].0, i) then Some(table[k].1)
    else WordAt(table, l, i, k + 1)
  }

  /** The digit that starts at index `i` of `l`: a numeral, or a spelled-out
      digit. */
  function DigitAt(table: seq<(string, char)>, l: string, i: nat): Option<char>
  {
    if i < |l| && IsDigit(l[i]) then Some(l[i]) else WordAt(table, l, i, 0)
  }

  /** A word of the table that starts at index `i` is the digit there. */
  lemma WordIsDigitAt(table: seq<(string, char)>, l: string, i: nat, k: nat)
    requires WellFormed(table) && k < |table| && OccursAt(l, table[k].0, i)
    ensures DigitAt(table, l, i) == Some(table[k].1)
  {
    var w := table[k].0;
    OccursHead(l, w, i);
    forall k' | 0 <= k' < k
      ensures !OccursAt(l, table[k'].0, i)
    {
      OccursHead(l, table[k'].0, i);
    }
    WordAtFirst(table, l, i, 0, k);
  }

  /** A word of two letters or more that starts at index `i` agrees with the
      line on its first two letters. */
  lemma OccursHead(l: string, w: string, i: nat)
    requires |w| >= 2
    ensures OccursAt(l, w, i) ==> i + 1 < |l| && l[i] == w[0] && l[i + 1] == w[1]
  {
    if OccursAt(l, w, i) {
      assert l[i..i + |w|][0] == l[i];
      assert l[i..i + |w|][1] == l[i + 1];
    }
  }

  lemma {:induction false} WordAtFirst(table: seq<(string, char)>, l: string, i: nat, j: nat, k: nat)
    requires j <= k < |table| && OccursAt(l, table[k].0, i)
    requires forall k' :: j <= k' < k ==> !OccursAt(l, table[k'].0, i)
    ensures WordAt(table, l, i, j) == Some(table[k].1)
    decreases k - j
  {
    if j < k {
      WordAtFirst(table, l, i, j + 1, k);
    }
  }

  // ---------------------------------------------------------------------
  // The reference: leftmost and rightmost digit positions

  /** The least index `>= i` where a digit starts. */
  function FirstFrom(table: seq<(string, char)>, l: string, i: nat): (r: Option<nat>)
    ensures r.Some? ==> i <= r.value && DigitAt(table, l, r.value).Some?
    ensures forall j :: i <= j < (if r.Some? then r.value else |l|) ==> DigitAt(table, l, j).None?
    decreases |l| - i
  {
    if i >= |l| then None
    else if DigitAt(table, l, i).Some? then Some(i)
    else FirstFrom(table, l, i + 1)
  }

  /** The greatest index `< n` where a digit starts. */
  function LastBefore(table: seq<(string, char)>, l: string, n: nat): (r: Option<nat>)
    requires n <= |l|
    ensures r.Some? ==> r.value < n && DigitAt(table, l, r.value).Some?
    ensures forall j :: (if r.Some? then r.value + 1 else 0) <= j < n ==> DigitAt(table, l, j).None?
  {
    if n == 0 then None
    else if DigitAt(table, l, n - 1).Some? then Some(n - 1)
    else LastBefore(table, l, n - 1)
  }

  /** Every digit starts inside the line. */
  lemma DigitInside(table: seq<(string, char)>, l: string, i: nat)
    requires WellFormed(table) && DigitAt(table, l, i).Some?
    ensures i < |l|
  {
    if !(i < |l| && IsDigit(l[i])) {
      var k :| 0 <= k < |table| && OccursAt(l, table[k].0, i);
    }
  }

  /** Every digit stands for a numeral. */
  lemma WordDigits(table: seq<(string, char)>, l: string, i: nat)
    requires WellFormed(table) && DigitAt(table, l, i).Some?
    ensures IsDigit(DigitAt(table, l, i).value)
  {
  }

  /** Ten times the leftmost digit plus the rightmost, or a panic when the
      line has none. */
  function CalibrationWith(table: seq<(string, char)>, l: string): Result<nat>
    requires WellFormed(table)
  {
    match (FirstFrom(table, l, 0), LastBefore(table, l, |l|))
    case (Some(i), Some(j)) =>
      WordDigits(table, l, i);
      WordDigits(table, l, j);
      Ok(10 * DigitValue(DigitAt(table, l, i).value) + DigitValue(DigitAt(table, l, j).value))
    case _ => Panic
  }

  /** The calibration value the puzzle asks for. */
  function Calibration(l: string): Result<nat>
  {
    ReplacementsWellFormed();
    CalibrationWith(Replacements, l)
  }

  // ---------------------------------------------------------------------
  // The per-line closure in place: gather, then take the extremes

  /** Every entry is a digit starting at its index. */
  predicate Sound(table: seq<(string, char)>, l: string, numbers: seq<(nat, char)>)
  {
    forall e :: e in numbers ==> DigitAt(table, l, e.0) == Some(e.1)
  }

  /** The first occurrence of every word among the first `n` is among the
      entries. */
  predicate HasFirsts(table: seq<(string, char)>, l: string, numbers: seq<(nat, char)>, n: nat)
    requires n <= |table|
  {
    forall k :: 0 <= k < n && IndexOf(l, table[k].0).Some? ==> (IndexOf(l, table[k].0).value, table[k].1) in numbers
  }

  /** The same for the last occurrences. */
  predicate HasLasts(table: seq<(string, char)>, l: string, numbers: seq<(nat, char)>, n: nat)
    requires n <= |table|
  {
    forall k :: 0 <= k < n && LastIndexOf(l, table[k].0).Some? ==> (LastIndexOf(l, table[k].0).value, table[k].1) in numbers
  }

  /** The entry for the first occurrence of word `k`. */
  method PushFirst(table: seq<(string, char)>, l: string, k: nat, numbers: seq<(nat, char)>) returns (numbers': seq<(nat, char)>)
    requires WellFormed(table) && k < |table| && Sound(table, l, numbers)
    requires HasFirsts(table, l, numbers, k) && HasLasts(table, l, numbers, k)
    ensures Sound(table, l, numbers') && HasFirsts(table, l, numbers', k + 1) && HasLasts(table, l, numbers', k)
  {
    numbers' := numbers;
    var first := IndexOf(l, table[k].0);
    if first.Some? {
      var e := (first.value, table[k].1);
      WordIsDigitAt(table, l, first.value, k);
      AppendSound(table, l, numbers, e);
      AppendFirsts(table, l, numbers, e, k);
      AppendLasts(table, l, numbers, e, k);
      numbers' := numbers' + [e];
    }
  }

  /** The entry for the last occurrence of word `k`. */
  method PushLast(table: seq<(string, char)>, l: string, k: nat, numbers: seq<(nat, char)>) returns (numbers': seq<(nat, char)>)
    requires WellFormed(table) && k < |table| && Sound(table, l, numbers)
    requires HasFirsts(table, l, numbers, k + 1) && HasLasts(table, l, numbers, k)
    ensures Sound(table, l, numbers') && HasFirsts(table, l, numbers', k + 1) && HasLasts(table, l, numbers', k + 1)
  {
    numbers' := numbers;
    var last := LastIndexOf(l, table[k].0);
    if last.Some? {
      var e := (last.value, table[k].1);
      WordIsDigitAt(table, l, last.value, k);
      AppendSound(table, l, numbers, e);
      AppendFirsts(table, l, numbers, e, k + 1);
      AppendLasts(table, l, numbers, e, k);
      numbers' := numbers' + [e];
    }
  }

  /** An entry that is a digit keeps the entries sound. */
  lemma AppendSound(table: seq<(string, char)>, l: string, numbers: seq<(nat, char)>, e: (nat, char))
    requires Sound(table, l, numbers) && DigitAt(table, l, e.0) == Some(e.1)
    ensures Sound(table, l, numbers + [e])
  {
  }

  /** Appending loses no first occurrence. */
  lemma AppendFirsts(table: seq<(string, char)>, l: string, numbers: seq<(nat, char)>, e: (nat, char), n: nat)
    requires n <= |table| && HasFirsts(table, l, numbers, n)
    ensures HasFirsts(table, l, numbers + [e], n)
  {
  }

  /** Appending loses no last occurrence. */
  lemma AppendLasts(table: seq<(string, char)>, l: string, numbers: seq<(nat, char)>, e: (nat, char), n: nat)
    requires n <= |table| && HasLasts(table, l, numbers, n)
    ensures HasLasts(table, l, numbers + [e], n)
  {
  }

  /** Pushes the first and last occurrence of every word of the table, then
      the first and last numeral, each with its index. */
  method Numbers(table: seq<(string, char)>, l: string) returns (numbers: seq<(nat, char)>)
    requires WellFormed(table)
    ensures Sound(table, l, numbers)
    ensures HasFirsts(table, l, numbers, |table|) && HasLasts(table, l, numbers, |table|)
    ensures FindDigit(l).Some? ==> (FindDigit(l).value, l[FindDigit(l).value]) in numbers
    ensures RFindDigit(l).Some? ==> (RFindDigit(l).value, l[RFindDigit(l).value]) in numbers
  {
    numbers := [];
    for k := 0 to |table|
      invariant Sound(table, l, numbers)
      invariant HasFirsts(table, l, numbers, k) && HasLasts(table, l, numbers, k)
    {
      numbers := PushFirst(table, l, k, numbers);
      numbers := PushLast(table, l, k, numbers);
    }
    var first := FindDigit(l);
    if first.Some? {
      numbers := numbers + [(first.value, l[first.value])];
    }
    var last := RFindDigit(l);
    if last.Some? {
      numbers := numbers + [(last.value, l[last.value])];
    }
  }

  /** The entries of least and greatest index: what `first` and `last`
      pick after sorting by index. */
  method Extremes(numbers: seq<(nat, char)>) returns (r: Option<((nat, char), (nat, char))>)
    ensures r.None? <==> numbers == []
    ensures r.Some? ==> r.value.0 in numbers && forall e :: e in numbers ==> r.value.0.0 <= e.0
    ensures r.Some? ==> r.value.1 in numbers && forall e :: e in numbers ==> e.0 <= r.value.1.0
  {
    if numbers == [] {
      return None;
    }
    var lo, hi := numbers[0], numbers[0];
    for i := 1 to |numbers|
      invariant lo in numbers[..i] && forall e :: e in numbers[..i] ==> lo.0 <= e.0
      invariant hi in numbers[..i] && forall e :: e in numbers[..i] ==> e.0 <= hi.0
    {
      assert numbers[..i + 1] == numbers[..i] + [numbers[i]];
      if numbers[i].0 < lo.0 {
        lo := numbers[i];
      }
      if numbers[i].0 >= hi.0 {
        hi := numbers[i];
      }
    }
    assert numbers[..|numbers|] == numbers;
    r := Some((lo, hi));
  }

  /** A numeral with no digit before it is the one `find` returns. */
  lemma FirstNumeral(table: seq<(string, char)>, l: string, p: nat)
    requires p < |l| && IsDigit(l[p]) && forall j :: 0 <= j < p ==> DigitAt(table, l, j).None?
    ensures FindDigit(l) == Some(p)
  {
    var i := FindDigit(l).value;
    assert DigitAt(table, l, i).Some?;
  }

  /** A word with no digit before it is the occurrence `find` returns. */
  lemma FirstWord(table: seq<(string, char)>, l: string, p: nat, k: nat)
    requires WellFormed(table) && k < |table| && OccursAt(l, table[k].0, p)
    requires forall j :: 0 <= j < p ==> DigitAt(table, l, j).None?
    ensures IndexOf(l, table[k].0) == Some(p)
  {
    var i := IndexOf(l, table[k].0).value;
    WordIsDigitAt(table, l, i, k);
  }

  /** The leftmost digit is among the numbers gathered. */
  lemma FirstGathered(table: seq<(string, char)>, l: string, p: nat, numbers: seq<(nat, char)>)
    requires WellFormed(table) && FirstFrom(table, l, 0) == Some(p)
    requires HasFirsts(table, l, numbers, |table|)
    requires FindDigit(l).Some? ==> (FindDigit(l).value, l[FindDigit(l).value]) in numbers
    ensures exists e :: e in numbers && e.0 == p
  {
    DigitInside(table, l, p);
    if IsDigit(l[p]) {
      FirstNumeral(table, l, p);
      assert (p, l[p]) in numbers;
    } else {
      var k :| 0 <= k < |table| && OccursAt(l, table[k].0, p);
      FirstWord(table, l, p, k);
      assert (p, table[k].1) in numbers;
    }
  }

  /** A numeral with no digit after it is the one `rfind` returns. */
  lemma LastNumeral(table: seq<(string, char)>, l: string, p: nat)
    requires p < |l| && IsDigit(l[p]) && forall j :: p < j < |l| ==> DigitAt(table, l, j).None?
    ensures RFindDigit(l) == Some(p)
  {
    var i := RFindDigit(l).value;
    assert DigitAt(table, l, i).Some?;
  }

  /** A word with no digit after it is the occurrence `rfind` returns. */
  lemma LastWord(table: seq<(string, char)>, l: string, p: nat, k: nat)
    requires WellFormed(table) && k < |table| && OccursAt(l, table[k].0, p)
    requires forall j :: p < j < |l| ==> DigitAt(table, l, j).None?
    ensures LastIndexOf(l, table[k].0) == Some(p)
  {
    var i := LastIndexOf(l, table[k].0).value;
    WordIsDigitAt(table, l, i, k);
  }

  /** The rightmost digit is among the numbers gathered. */
  lemma LastGathered(table: seq<(string, char)>, l: string, p: nat, numbers: seq<(nat, char)>)
    requires WellFormed(table) && LastBefore(table, l, |l|) == Some(p)
    requires HasLasts(table, l, numbers, |table|)
    requires RFindDigit(l).Some? ==> (RFindDigit(l).value, l[RFindDigit(l).value]) in numbers
    ensures exists e :: e in numbers && e.0 == p
  {
    if IsDigit(l[p]) {
      LastNumeral(table, l, p);
      assert (p, l[p]) in numbers;
    } else {
      var k :| 0 <= k < |table| && OccursAt(l, table[k].0, p);
      LastWord(table, l, p, k);
      assert (p, table[k].1) in numbers;
    }
  }

  /** An entry of least index that is a digit, among entries that include
      the leftmost digit, is the leftmost digit. */
  lemma LeastIsLeftmost(table: seq<(string, char)>, l: string, numbers: seq<(nat, char)>, first: (nat, char), p: nat)
    requires WellFormed(table) && DigitAt(table, l, first.0).Some? && FirstFrom(table, l, 0) == Some(p)
    requires exists e :: e in numbers && e.0 == p
    requires forall e :: e in numbers ==> first.0 <= e.0
    ensures first.0 == p
  {
    DigitInside(table, l, first.0);
  }

  /** Every digit starts at or before the rightmost one. */
  lemma AtMostLast(table: seq<(string, char)>, l: string, j: nat)
    requires j < |l| && DigitAt(table, l, j).Some?
    ensures LastBefore(table, l, |l|).Some? && j <= LastBefore(table, l, |l|).value
  {
  }

  /** An entry of greatest index that is a digit, among entries that
      include the rightmost digit, is the rightmost digit. */
  lemma GreatestIsRightmost(table: seq<(string, char)>, l: string, numbers: seq<(nat, char)>, last: (nat, char), q: nat)
    requires WellFormed(table) && DigitAt(table, l, last.0).Some? && LastBefore(table, l, |l|) == Some(q)
    requires exists e :: e in numbers && e.0 == q
    requires forall e :: e in numbers ==> e.0 <= last.0
    ensures last.0 == q
  {
    DigitInside(table, l, last.0);
    AtMostLast(table, l, last.0);
  }

  /** The gathered entry of least index is the leftmost digit. */
  lemma FirstIsLeftmost(table: seq<(string, char)>, l: string, numbers: seq<(nat, char)>, first: (nat, char))
    requires WellFormed(table) && Sound(table, l, numbers) && HasFirsts(table, l, numbers, |table|)
    requires FindDigit(l).Some? ==> (FindDigit(l).value, l[FindDigit(l).value]) in numbers
    requires first in numbers && forall e :: e in numbers ==> first.0 <= e.0
    ensures FirstFrom(table, l, 0) == Some(first.0)
  {
    assert DigitAt(table, l, first.0) == Some(first.1);
    DigitInside(table, l, first.0);
    var p := FirstFrom(table, l, 0).value;
    FirstGathered(table, l, p, numbers);
    LeastIsLeftmost(table, l, numbers, first, p);
  }

  /** The gathered entry of greatest index is the rightmost digit. */
  lemma LastIsRightmost(table: seq<(string, char)>, l: string, numbers: seq<(nat, char)>, last: (nat, char))
    requires WellFormed(table) && Sound(table, l, numbers) && HasLasts(table, l, numbers, |table|)
    requires RFindDigit(l).Some? ==> (RFindDigit(l).value, l[RFindDigit(l).value]) in numbers
    requires last in numbers && forall e :: e in numbers ==> e.0 <= last.0
    ensures LastBefore(table, l, |l|) == Some(last.0)
  {
    assert DigitAt(table, l, last.0) == Some(last.1);
    DigitInside(table, l, last.0);
    AtMostLast(table, l, last.0);
    var q := LastBefore(table, l, |l|).value;
    LastGathered(table, l, q, numbers);
    GreatestIsRightmost(table, l, numbers, last, q);
  }

  /** The closure of Rust's `solution` for one line: gather the numbers,
      sort them by index and join the first and the last. */
  method LineCalibration(table: seq<(string, char)>, l: string) returns (r: Result<nat>)
    requires WellFormed(table)
    ensures r == CalibrationWith(table, l)
  {
    var numbers := Numbers(table, l);
    var extremes := Extremes(numbers);
    if extremes.None? {
      if FirstFrom(table, l, 0).Some? {
        FirstGathered(table, l, FirstFrom(table, l, 0).value, numbers);
      }
      return Panic;
    }
    var (first, last) := extremes.value;
    FirstIsLeftmost(table, l, numbers, first);
    LastIsRightmost(table, l, numbers, last);
    assert DigitAt(table, l, first.0) == Some(first.1) && DigitAt(table, l, last.0) == Some(last.1);
    WordDigits(table, l, first.0);
    WordDigits(table, l, last.0);
    r := Ok(10 * DigitValue(first.1) + DigitValue(last.1));
  }

  /** The sum of the calibration values, or a panic if some line has no
      digit. */
  function SumWith(table: seq<(string, char)>, lines: seq<string>): Result<int>
    requires WellFormed(table)
  {
    if lines == [] then Ok(0)
    else
      match (SumWith(table, lines[..|lines| - 1]), CalibrationWith(table, lines[|lines| - 1]))
      case (Ok(total), Ok(v)) => Ok(total + v)
      case _ => Panic
  }

  /** The answer the puzzle asks for. */
  function SolutionValue(lines: seq<string>): Result<int>
  {
    ReplacementsWellFormed();
    SumWith(Replacements, lines)
  }

  /** Sums the line values in order, panicking at the first line without a
      digit. */
  method SumCalibrations(table: seq<(string, char)>, lines: seq<string>) returns (r: Result<int>)
    requires WellFormed(table)
    ensures r == SumWith(table, lines)
  {
    var total := 0;
    for i := 0 to |lines|
      invariant SumWith(table, lines[..i]) == Ok(total)
    {
      SumWithStep(table, lines, i);
      var v := LineCalibration(table, lines[i]);
      if v.Panic? {
        PanicStays(table, lines, i + 1);
        return Panic;
      }
      total := total + v.value;
    }
    assert lines[..|lines|] == lines;
    r := Ok(total);
  }

  /** One more line adds its value, or panics if it has none. */
  lemma SumWithStep(table: seq<(string, char)>, lines: seq<string>, i: nat)
    requires WellFormed(table) && i < |lines|
    ensures CalibrationWith(table, lines[i]).Panic? ==> SumWith(table, lines[..i + 1]).Panic?
    ensures SumWith(table, lines[..i]).Ok? && CalibrationWith(table, lines[i]).Ok? ==>
      SumWith(table, lines[..i + 1]) == Ok(SumWith(table, lines[..i]).value + CalibrationWith(table, lines[i]).value)
  {
    assert lines[..i + 1][..i] == lines[..i];
  }

  lemma {:induction false} PanicStays(table: seq<(string, char)>, lines: seq<string>, i: nat)
    requires WellFormed(table) && 0 < i <= |lines| && SumWith(table, lines[..i]).Panic?
    ensures SumWith(table, lines).Panic?
    decreases |lines| - i
  {
    if i < |lines| {
      assert lines[..i + 1][..i] == lines[..i];
      PanicStays(table, lines, i + 1);
    } else {
      assert lines[..i] == lines;
    }
  }

  /** Rust's `solution`. */
  method Solution(lines: seq<string>) returns (r: Result<int>)
    ensures r == SolutionValue(lines)
  {
    ReplacementsWellFormed();
    r := SumCalibrations(Replacements, lines);
  }

  // ---------------------------------------------------------------------

  /** A line panics exactly when no digit starts anywhere in it. */
  lemma PanicsWithoutDigit(table: seq<(string, char)>, l: string)
    requires WellFormed(table)
    ensures CalibrationWith(table, l).Panic? <==> forall i :: 0 <= i < |l| ==> DigitAt(table, l, i).None?
  {
    if FirstFrom(table, l, 0).Some? {
      DigitInside(table, l, FirstFrom(table, l, 0).value);
    }
  }

  /** No word fits in the last two characters of a line. */
  lemma NoWordNearEnd(l: string, i: nat)
    requires |l| < i + 3 && (i < |l| ==> !IsDigit(l[i]))
    ensures DigitAt(Replacements, l, i).None?
  {
    forall k | 0 <= k < |Replacements|
      ensures !OccursAt(l, Replacements[k].0, i)
    {
      assert |Replacements[k].0| >= 3;
    }
  }

  /** The value of a line is formed from the digits at its outermost digit
      positions `p` and `q`. */
  lemma Outermost(table: seq<(string, char)>, l: string, p: nat, q: nat)
    requires WellFormed(table) && p <= q < |l|
    requires DigitAt(table, l, p).Some? && DigitAt(table, l, q).Some?
    requires forall j :: 0 <= j < p ==> DigitAt(table, l, j).None?
    requires forall j :: q < j < |l| ==> DigitAt(table, l, j).None?
    ensures IsDigit(DigitAt(table, l, p).value) && IsDigit(DigitAt(table, l, q).value)
    ensures IsDigit(DigitAt(table, l, p).value) && IsDigit(DigitAt(table, l, q).value) &&
      CalibrationWith(table, l) == Ok(10 * DigitValue(DigitAt(table, l, p).value) + DigitValue(DigitAt(table, l, q).value))
  {
    WordDigits(table, l, p);
    WordDigits(table, l, q);
    AtMostLast(table, l, q);
  }

  lemma EightAtStart()
    ensures DigitAt(Replacements, "eightwo", 0) == Some('8')
  {
    ReplacementsWellFormed();
    assert OccursAt("eightwo", Replacements[7].0, 0);
    WordIsDigitAt(Replacements, "eightwo", 0, 7);
  }

  lemma TwoAtFour()
    ensures DigitAt(Replacements, "eightwo", 4) == Some('2')
  {
    ReplacementsWellFormed();
    assert OccursAt("eightwo", Replacements[1].0, 4);
    WordIsDigitAt(Replacements, "eightwo", 4, 1);
  }

  /** In "eightwo" the leftmost digit starts at 0 and the rightmost at 4. */
  lemma EightTwoDigits()
    ensures DigitAt(Replacements, "eightwo", 0) == Some('8') && DigitAt(Replacements, "eightwo", 4) == Some('2')
    ensures forall j :: 4 < j < 7 ==> DigitAt(Replacements, "eightwo", j).None?
  {
    EightAtStart();
    TwoAtFour();
    NoWordNearEnd("eightwo", 5);
    NoWordNearEnd("eightwo", 6);
  }

  /** Overlapping spellings both count: "eightwo" reads as 8 then 2. */
  lemma Overlapping()
    ensures Calibration("eightwo") == Ok(82)
  {
    ReplacementsWellFormed();
    EightTwoDigits();
    Outermost(Replacements, "eightwo", 0, 4);
  }
}
