/** Day 7, part two: J is now a joker. It is the weakest card when hands
    of one type are compared card by card, but for the type it counts as
    whatever card makes the hand strongest: its number is added to the
    largest count among the other cards. */
module Day07b {
  import opened Common
  import opened Day07a

  /** The labels from strongest to weakest: the joker has moved to the
      end. */
  const JokerLabels: string := "AKQT98765432J"

  /** `Card::from` with the joker order: the place of each label in that
      order, anything else panics. */
  function JokerCardOf(ch: char): (r: Result<nat>)
  {
    match ch
    case 'A' => Ok(0) case 'K' => Ok(1) case 'Q' => Ok(2) case 'T' => Ok(3)
    case '9' => Ok(4) case '8' => Ok(5) case '7' => Ok(6) case '6' => Ok(7)
    case '5' => Ok(8) case '4' => Ok(9) case '3' => Ok(10) case '2' => Ok(11)
    case 'J' => Ok(12)
    case _ => Panic
  }

  /** Exactly the thirteen labels are cards, each at its place in
      "AKQT98765432J", so the joker is weaker than Two. */
  lemma JokerCardOrder(ch: char)
    ensures JokerCardOf(ch).Ok? <==> ch in JokerLabels
    ensures JokerCardOf(ch).Ok? ==> JokerCardOf(ch).value < |JokerLabels| && JokerLabels[JokerCardOf(ch).value] == ch
    ensures JokerCardOf('J') == Ok(12) && JokerCardOf('2') == Ok(11)
  {
  }

  /** `chars().map(Card::from)` in the joker order. */
  function JokerPositions(s: string): (r: Result<seq<nat>>)
    ensures r.Ok? <==> forall i :: 0 <= i < |s| ==> s[i] in JokerLabels
    ensures r.Ok? ==> |r.value| == |s| && forall i :: 0 <= i < |s| ==> r.value[i] < |JokerLabels| && JokerLabels[r.value[i]] == s[i]
  {
    if s == [] then Ok([])
    else
      JokerCardOrder(s[0]);
      match (JokerCardOf(s[0]), JokerPositions(s[1..]))
      case (Ok(c), Ok(rest)) => Ok([c] + rest)
      case _ =>
        assert forall i :: 1 <= i < |s| ==> s[1..][i - 1] == s[i];
        Panic
  }

  // ---------------------------------------------------------------------
  // Taking the jokers out of the count table

  /** `counts.remove(&c)`: the table without the entry for `c`. */
  function Without(t: seq<(char, nat)>, c: char): seq<(char, nat)>
  {
    if t == [] then []
    else Without(t[..|t| - 1], c) + (if t[|t| - 1].0 == c then [] else [t[|t| - 1]])
  }

  /** The `unwrap_or(0)` of the removed entry: its count, or 0 when there
      was none. */
  function Removed(t: seq<(char, nat)>, c: char): nat
  {
    if t == [] then 0
    else if t[|t| - 1].0 == c then t[|t| - 1].1
    else Removed(t[..|t| - 1], c)
  }

  /** The entries left are entries of the table, other than `c`'s, and
      every entry other than `c`'s is left. */
  lemma {:induction false} WithoutEntries(t: seq<(char, nat)>, c: char)
    ensures forall e :: e in Without(t, c) <==> e in t && e.0 != c
  {
    if t != [] {
      WithoutEntries(t[..|t| - 1], c);
      assert t == t[..|t| - 1] + [t[|t| - 1]];
    }
  }

  lemma {:induction false} WithoutDistinct(t: seq<(char, nat)>, c: char)
    requires DistinctKeys(t)
    ensures DistinctKeys(Without(t, c))
  {
    if t != [] {
      var init := t[..|t| - 1];
      WithoutDistinct(init, c);
      WithoutEntries(init, c);
      var w := Without(init, c);
      if t[|t| - 1].0 != c {
        forall i | 0 <= i < |w|
          ensures w[i].0 != t[|t| - 1].0
        {
          assert w[i] in init;
        }
      }
    }
  }

  /** Removing an entry takes its count out of the total. */
  lemma {:induction false} WithoutSum(t: seq<(char, nat)>, c: char)
    requires DistinctKeys(t)
    ensures Sum(Values(t)) == Sum(Values(Without(t, c))) + Removed(t, c)
  {
    if t != [] {
      var init, last := t[..|t| - 1], t[|t| - 1];
      WithoutSum(init, c);
      assert Values(t) == Values(init) + [last.1];
      SumAppend(Values(init), [last.1]);
      assert Sum([last.1]) == last.1 by {
        assert [last.1][..0] == [];
      }
      if last.0 == c {
        RemovedAbsent(init, c);
        assert Without(t, c) == init;
        assert Removed(t, c) == last.1;
        assert Sum(Values(t)) == Sum(Values(init)) + last.1;
      } else {
        assert Values(Without(t, c)) == Values(Without(init, c)) + [last.1];
        SumAppend(Values(Without(init, c)), [last.1]);
      }
    }
  }

  lemma {:induction false} RemovedAbsent(t: seq<(char, nat)>, c: char)
    requires forall i :: 0 <= i < |t| ==> t[i].0 != c
    ensures Removed(t, c) == 0 && Without(t, c) == t
  {
    if t != [] {
      RemovedAbsent(t[..|t| - 1], c);
      assert t[..|t| - 1] + [t[|t| - 1]] == t;
    }
  }

  /** The removed count is the count of `c`'s entry. */
  lemma {:induction false} RemovedEntry(t: seq<(char, nat)>, c: char, i: nat)
    requires DistinctKeys(t) && i < |t| && t[i].0 == c
    ensures Removed(t, c) == t[i].1
  {
    if i < |t| - 1 {
      RemovedEntry(t[..|t| - 1], c, i);
    }
  }

  // ---------------------------------------------------------------------
  // The counts without the jokers

  /** The distinct cards of the hand other than the joker. */
  function Others(s: string): set<char>
  {
    set c | c in s && c != 'J'
  }

  /** What the table of a hand becomes once the jokers are taken out: one
      entry per other card, with its count, and the jokers' number
      removed. */
  lemma RestOfTally(s: string)
    ensures DistinctKeys(Without(Tally(s), 'J'))
    ensures forall i :: 0 <= i < |Without(Tally(s), 'J')| ==>
      Without(Tally(s), 'J')[i].1 == multiset(s)[Without(Tally(s), 'J')[i].0] >= 1
    ensures KeySet(Without(Tally(s), 'J')) == Others(s)
    ensures Removed(Tally(s), 'J') == multiset(s)['J']
  {
    var t := Tally(s);
    TallyCorrect(s);
    WithoutDistinct(t, 'J');
    WithoutEntries(t, 'J');
    var rest := Without(t, 'J');
    forall i | 0 <= i < |rest|
      ensures rest[i].1 == multiset(s)[rest[i].0] >= 1
    {
      assert rest[i] in t;
    }
    forall c | c in Others(s)
      ensures c in KeySet(rest)
    {
      var i :| 0 <= i < |t| && Keys(t)[i] == c;
      assert t[i] in rest;
      var k :| 0 <= k < |rest| && rest[k] == t[i];
    }
    forall c | c in KeySet(rest)
      ensures c in Others(s)
    {
      var k :| 0 <= k < |rest| && rest[k].0 == c;
      assert rest[k] in t;
    }
    JokersRemoved(s);
  }

  lemma JokersRemoved(s: string)
    ensures Removed(Tally(s), 'J') == multiset(s)['J']
  {
    var t := Tally(s);
    TallyCorrect(s);
    if 'J' in s {
      var i :| 0 <= i < |t| && Keys(t)[i] == 'J';
      RemovedEntry(t, 'J', i);
    } else {
      RemovedAbsent(t, 'J');
    }
  }

  lemma RestSum(s: string)
    ensures Sum(Values(Without(Tally(s), 'J'))) + Removed(Tally(s), 'J') == |s|
  {
    TallyCorrect(s);
    WithoutSum(Tally(s), 'J');
  }

  // ---------------------------------------------------------------------
  // Raising the largest count

  /** `sorted_counts[0].1 += joker_count` on the counts in descending
      order, when there are any. */
  function RaiseFirst(desc: seq<nat>, jokers: nat): (r: seq<nat>)
  {
    if desc == [] then [] else desc[0 := desc[0] + jokers]
  }

  /** The ascending counts with the largest one raised. */
  function RaiseLast(w: seq<nat>, jokers: nat): (r: seq<nat>)
    ensures |r| == |w|
  {
    if w == [] then [] else w[|w| - 1 := w[|w| - 1] + jokers]
  }

  /** Raising the first of the descending counts is raising the last of
      the ascending ones. */
  lemma RaiseReversed(w: seq<nat>, jokers: nat)
    ensures RaiseFirst(Reverse(w), jokers) == Reverse(RaiseLast(w, jokers))
  {
  }

  /** Raising the largest count keeps the counts ascending. */
  lemma RaiseLastAscending(w: seq<nat>, jokers: nat)
    requires Ascending(w)
    ensures Ascending(RaiseLast(w, jokers))
  {
  }

  lemma {:induction false} RaiseLastSum(w: seq<nat>, jokers: nat)
    requires w != []
    ensures Sum(RaiseLast(w, jokers)) == Sum(w) + jokers
  {
    assert RaiseLast(w, jokers)[..|w| - 1] == w[..|w| - 1];
  }

  // ---------------------------------------------------------------------
  // Classification

  /** `HandType::from` of part two: the jokers are taken out of the table,
      the other counts sorted in descending order, the jokers added to the
      first, and the type read off the number of other distinct cards and
      the adjusted counts. */
  function JokerTypeOf(s: string): Result<HandType>
  {
    if |s| != 5 then Panic
    else
      var counts := Tally(s);
      var joker_count := Removed(counts, 'J');
      var rest := Without(counts, 'J');
      var sorted_counts := RaiseFirst(Reverse(SortNat(Values(rest))), joker_count);
      Ok(TypeOfDescending(|rest|, sorted_counts))
  }

  /** The type given by the number of other distinct cards and the
      adjusted counts in descending order. */
  function TypeOfDescending(distinct: nat, sorted_counts: seq<nat>): HandType
  {
    match distinct
    case 0 => FiveKind
    case 1 => FiveKind
    case 2 => if sorted_counts == [4, 1] then FourKind else FullHouse
    case 3 => if sorted_counts == [3, 1, 1] then ThreeKind else TwoPair
    case 4 => OnePair
    case _ => HighCard
  }

  /** The adjusted counts in ascending order. */
  function Adjusted(s: string): seq<nat>
  {
    RaiseLast(SortNat(Values(Without(Tally(s), 'J'))), Removed(Tally(s), 'J'))
  }

  /** The descending tests of part two are the ascending tests of part one
      on the same counts. */
  lemma DescendingIsAscending(w: seq<nat>, jokers: nat)
    requires w != []
    ensures TypeOfDescending(|w|, RaiseFirst(Reverse(w), jokers)) == TypeOfCounts(|w|, RaiseLast(w, jokers))
  {
    RaiseReversed(w, jokers);
    DescendingTests(RaiseLast(w, jokers));
  }

  lemma DescendingTests(a: seq<nat>)
    requires a != []
    ensures TypeOfDescending(|a|, Reverse(a)) == TypeOfCounts(|a|, a)
  {
    var d := Reverse(a);
    if |a| == 2 {
      assert a == [a[0], a[1]] && d == [d[0], d[1]];
      assert d[0] == a[1] && d[1] == a[0];
    } else if |a| == 3 {
      assert a == [a[0], a[1], a[2]] && d == [d[0], d[1], d[2]];
      assert d[0] == a[2] && d[1] == a[1] && d[2] == a[0];
    }
  }

  lemma JokerTypeOfCounts(s: string)
    requires |s| == 5 && Others(s) != {}
    ensures JokerTypeOf(s) == Ok(TypeOfCounts(|Adjusted(s)|, Adjusted(s)))
  {
    SortedOthers(s);
    DescendingIsAscending(SortNat(Values(Without(Tally(s), 'J'))), Removed(Tally(s), 'J'));
  }

  /** With at least one other card, the adjusted counts are positive,
      ascending and add up to five. */
  lemma AdjustedOfFive(s: string)
    requires |s| == 5 && Others(s) != {}
    ensures Adjusted(s) != [] && Ascending(Adjusted(s)) && Sum(Adjusted(s)) == 5
    ensures forall i :: 0 <= i < |Adjusted(s)| ==> Adjusted(s)[i] >= 1
  {
    var w := SortNat(Values(Without(Tally(s), 'J')));
    var jokers := Removed(Tally(s), 'J');
    SortedOthers(s);
    RestSum(s);
    RaiseLastAscending(w, jokers);
    RaiseLastSum(w, jokers);
    RaiseLastPositive(w, jokers);
  }

  lemma RaiseLastPositive(w: seq<nat>, jokers: nat)
    requires forall i :: 0 <= i < |w| ==> w[i] >= 1
    ensures forall i :: 0 <= i < |RaiseLast(w, jokers)| ==> RaiseLast(w, jokers)[i] >= 1
  {
  }

  /** The other cards' counts, sorted: one per other card, each positive. */
  lemma SortedOthers(s: string)
    requires Others(s) != {}
    ensures |SortNat(Values(Without(Tally(s), 'J')))| == |Without(Tally(s), 'J')| > 0
    ensures forall i :: 0 <= i < |SortNat(Values(Without(Tally(s), 'J')))| ==> SortNat(Values(Without(Tally(s), 'J')))[i] >= 1
  {
    var rest := Without(Tally(s), 'J');
    var v := Values(rest);
    var w := SortNat(v);
    RestOfTally(s);
    var c :| c in Others(s);
    assert c in KeySet(rest);
    assert |w| == |multiset(w)| == |multiset(v)| == |v|;
    forall i | 0 <= i < |w|
      ensures w[i] >= 1
    {
      assert w[i] in multiset(v);
    }
  }

  /** The type of a hand with other cards is the one whose pattern the
      adjusted counts form. */
  lemma JokerTypePattern(s: string)
    requires |s| == 5 && Others(s) != {}
    ensures JokerTypeOf(s).Ok? && multiset(Adjusted(s)) == Pattern(JokerTypeOf(s).value)
  {
    AdjustedOfFive(s);
    CountsPattern(Adjusted(s));
    JokerTypeOfCounts(s);
  }

  /** Five jokers are five of a kind. */
  lemma AllJokers(s: string)
    requires |s| == 5 && Others(s) == {}
    ensures JokerTypeOf(s) == Ok(FiveKind)
  {
    RestOfTally(s);
    var rest := Without(Tally(s), 'J');
    assert forall i :: 0 <= i < |rest| ==> rest[i].0 in KeySet(rest);
  }

  // ---------------------------------------------------------------------
  // The jokers join the most common other card

  /** The hand with every joker replaced by `m`. */
  function Replace(s: string, m: char): (r: string)
    ensures |r| == |s| && forall i :: 0 <= i < |s| ==> r[i] == if s[i] == 'J' then m else s[i]
  {
    seq(|s|, i requires 0 <= i < |s| => if s[i] == 'J' then m else s[i])
  }

  /** `m` is a card other than the joker that occurs at least as often as
      any other such card. */
  predicate MostCommon(s: string, m: char)
  {
    m in Others(s) && forall c :: c in Others(s) ==> multiset(s)[c] <= multiset(s)[m]
  }

  /** Replacing moves the jokers' occurrences to `m` and leaves every other
      card's count alone. */
  lemma {:induction false} ReplaceCounts(s: string, m: char)
    requires m != 'J'
    ensures multiset(Replace(s, m))[m] == multiset(s)[m] + multiset(s)['J']
    ensures multiset(Replace(s, m))['J'] == 0
    ensures forall c :: c != m && c != 'J' ==> multiset(Replace(s, m))[c] == multiset(s)[c]
  {
    if s != [] {
      var init, last := s[..|s| - 1], s[|s| - 1];
      ReplaceCounts(init, m);
      assert s == init + [last];
      assert multiset(s) == multiset(init) + multiset{last};
      var x := if last == 'J' then m else last;
      assert Replace(s, m) == Replace(init, m) + [x];
      assert multiset(Replace(s, m)) == multiset(Replace(init, m)) + multiset{x};
    }
  }

  lemma ReplaceCards(s: string, m: char)
    requires m in Others(s)
    ensures CardSet(Replace(s, m)) == Others(s)
  {
    ReplaceCounts(s, m);
    forall c
      ensures c in Replace(s, m) <==> c in Others(s)
    {
      assert c in Replace(s, m) <==> multiset(Replace(s, m))[c] > 0;
      assert c in s <==> multiset(s)[c] > 0;
    }
  }

  /** The bag of counts only depends on the counts of the cards in it. */
  lemma {:induction false} OccurrenceBagAgree(cards: set<char>, ms: multiset<char>, ms': multiset<char>)
    requires forall c :: c in cards ==> ms[c] == ms'[c]
    ensures OccurrenceBag(cards, ms) == OccurrenceBag(cards, ms')
    decreases cards
  {
    if cards != {} {
      var c :| c in cards;
      OccurrenceBagRemove(cards, ms, c);
      OccurrenceBagRemove(cards, ms', c);
      OccurrenceBagAgree(cards - {c}, ms, ms');
    }
  }

  /** A count is in the bag exactly when some card has it. */
  lemma {:induction false} OccurrenceBagMember(cards: set<char>, ms: multiset<char>, x: nat)
    ensures x in OccurrenceBag(cards, ms) <==> exists c :: c in cards && ms[c] == x
    decreases cards
  {
    if cards != {} {
      var c :| c in cards;
      OccurrenceBagRemove(cards, ms, c);
      OccurrenceBagMember(cards - {c}, ms, x);
      if exists d :: d in cards && ms[d] == x {
        var d :| d in cards && ms[d] == x;
        if d != c {
          assert d in cards - {c};
        }
      }
    }
  }

  /** The sorted counts of the other cards are their bag of counts, and
      the largest of them is the count of a most common card. */
  lemma LargestOther(s: string, m: char)
    requires MostCommon(s, m)
    ensures multiset(SortNat(Values(Without(Tally(s), 'J')))) == OccurrenceBag(Others(s), multiset(s))
    ensures SortNat(Values(Without(Tally(s), 'J'))) != []
    ensures Last(SortNat(Values(Without(Tally(s), 'J')))) == multiset(s)[m]
  {
    var rest := Without(Tally(s), 'J');
    var w := SortNat(Values(rest));
    var ms := multiset(s);
    RestOfTally(s);
    SortedOthers(s);
    ValuesBag(rest, ms);
    OccurrenceBagMember(Others(s), ms, ms[m]);
    assert ms[m] in multiset(w);
    var i :| 0 <= i < |w| && w[i] == ms[m];
    assert w[i] <= w[|w| - 1];
    OccurrenceBagMember(Others(s), ms, w[|w| - 1]);
    assert w[|w| - 1] in multiset(w);
  }

  function Last(w: seq<nat>): nat
    requires w != []
  {
    w[|w| - 1]
  }

  /** The counts after raising the largest one are the counts of the hand
      with the jokers replaced by a most common card. */
  lemma AdjustedIsReplaced(s: string, m: char)
    requires |s| == 5 && MostCommon(s, m)
    ensures multiset(Adjusted(s)) == CardBag(Replace(s, m))
  {
    OthersWithoutLargest(s, m);
    RaisedIsReplaced(s, m, SortNat(Values(Without(Tally(s), 'J'))));
    AdjustedRaised(s);
  }

  lemma AdjustedRaised(s: string)
    ensures Adjusted(s) == RaiseLast(SortNat(Values(Without(Tally(s), 'J'))), multiset(s)['J'])
  {
    JokersRemoved(s);
  }

  /** Any counts whose largest is that of `m` and whose others are those
      of the other cards become, raised, the counts of the replaced hand. */
  lemma RaisedIsReplaced(s: string, m: char, w: seq<nat>)
    requires m in Others(s) && w != [] && Last(w) == multiset(s)[m]
    requires multiset(w[..|w| - 1]) == OccurrenceBag(Others(s) - {m}, multiset(s))
    ensures multiset(RaiseLast(w, multiset(s)['J'])) == CardBag(Replace(s, m))
  {
    var ms := multiset(s);
    ReplacedBag(s, m);
    RaisedBag(w, ms['J'], OccurrenceBag(Others(s) - {m}, ms), ms[m], CardBag(Replace(s, m)));
  }

  /** Raising the largest count turns the bag of the others plus the
      largest into the others plus the raised count. */
  lemma RaisedBag(w: seq<nat>, jokers: nat, rest: multiset<nat>, top: nat, target: multiset<nat>)
    requires w != [] && multiset(w[..|w| - 1]) == rest && Last(w) == top
    requires target == multiset{top + jokers} + rest
    ensures multiset(RaiseLast(w, jokers)) == target
  {
    RaiseLastSplit(w, jokers);
  }

  lemma OthersWithoutLargest(s: string, m: char)
    requires MostCommon(s, m)
    ensures SortNat(Values(Without(Tally(s), 'J'))) != []
    ensures multiset(SortNat(Values(Without(Tally(s), 'J')))[..|SortNat(Values(Without(Tally(s), 'J')))| - 1])
      == OccurrenceBag(Others(s) - {m}, multiset(s))
    ensures Last(SortNat(Values(Without(Tally(s), 'J')))) == multiset(s)[m]
  {
    LargestOther(s, m);
    LastRemoved(SortNat(Values(Without(Tally(s), 'J'))), Others(s), multiset(s), m);
  }

  lemma ReplacedBag(s: string, m: char)
    requires m in Others(s)
    ensures CardBag(Replace(s, m))
      == multiset{multiset(s)[m] + multiset(s)['J']} + OccurrenceBag(Others(s) - {m}, multiset(s))
  {
    var ms, ms' := multiset(s), multiset(Replace(s, m));
    assert CardSet(Replace(s, m)) == Others(s) by {
      ReplaceCards(s, m);
    }
    assert ms'[m] == ms[m] + ms['J'] && forall c :: c in Others(s) && c != m ==> ms'[c] == ms[c] by {
      ReplaceCounts(s, m);
    }
    RaisedCard(Others(s), ms, ms', m, ms['J']);
  }

  /** Without its largest count, the bag is that of the other cards. */
  lemma LastRemoved(w: seq<nat>, cards: set<char>, ms: multiset<char>, m: char)
    requires w != [] && m in cards && multiset(w) == OccurrenceBag(cards, ms) && Last(w) == ms[m]
    ensures multiset(w[..|w| - 1]) == OccurrenceBag(cards - {m}, ms)
  {
    assert w == w[..|w| - 1] + [w[|w| - 1]];
    OccurrenceBagRemove(cards, ms, m);
    BagTail(w[..|w| - 1], w[|w| - 1], OccurrenceBag(cards - {m}, ms));
  }

  lemma RaisedCard(cards: set<char>, ms: multiset<char>, ms': multiset<char>, m: char, jokers: nat)
    requires m in cards && ms'[m] == ms[m] + jokers && forall c :: c in cards && c != m ==> ms'[c] == ms[c]
    ensures OccurrenceBag(cards, ms') == multiset{ms[m] + jokers} + OccurrenceBag(cards - {m}, ms)
  {
    OccurrenceBagRemove(cards, ms', m);
    OccurrenceBagAgree(cards - {m}, ms, ms');
  }

  lemma RaiseLastSplit(w: seq<nat>, jokers: nat)
    requires w != []
    ensures multiset(RaiseLast(w, jokers)) == multiset(w[..|w| - 1]) + multiset{Last(w) + jokers}
  {
    assert RaiseLast(w, jokers) == w[..|w| - 1] + [w[|w| - 1] + jokers];
  }

  /** Cancelling the largest count on both sides. */
  lemma BagTail(init: seq<nat>, top: nat, rest: multiset<nat>)
    requires multiset(init + [top]) == multiset{top} + rest
    ensures multiset(init) == rest
  {
    assert multiset(init + [top]) == multiset(init) + multiset{top};
    forall x
      ensures multiset(init)[x] == rest[x]
    {
      assert multiset(init + [top])[x] == (multiset{top} + rest)[x];
    }
  }

  /** The joker rule is part one's rule on the hand whose jokers have
      become copies of a most common other card. */
  lemma JokersJoinMostCommon(s: string, m: char)
    requires |s| == 5 && MostCommon(s, m)
    ensures JokerTypeOf(s) == HandTypeOf(Replace(s, m))
  {
    JokerTypePattern(s);
    AdjustedIsReplaced(s, m);
    HandTypeIff(Replace(s, m), JokerTypeOf(s).value);
  }

  /** Every hand with a card other than the joker has a most common one. */
  lemma SomeMostCommon(s: string) returns (m: char)
    requires Others(s) != {}
    ensures MostCommon(s, m)
  {
    m := Largest(Others(s), multiset(s));
  }

  lemma {:induction false} Largest(cards: set<char>, ms: multiset<char>) returns (m: char)
    requires cards != {}
    ensures m in cards && forall c :: c in cards ==> ms[c] <= ms[m]
    decreases cards
  {
    var c :| c in cards;
    if cards == {c} {
      m := c;
    } else {
      var best := Largest(cards - {c}, ms);
      m := if ms[c] <= ms[best] then best else c;
    }
  }

  /** Without jokers, part two classifies like part one. */
  lemma NoJokers(s: string)
    requires |s| == 5 && 'J' !in s
    ensures JokerTypeOf(s) == HandTypeOf(s)
  {
    assert s[0] in Others(s);
    var m := SomeMostCommon(s);
    JokersJoinMostCommon(s, m);
    assert Replace(s, m) == s;
  }

  // ---------------------------------------------------------------------
  // The answer

  /** A line's hand: the joker type of its first word, the places of its
      cards in the joker order and its bid. */
  function ParseHand(line: string): Result<Hand>
  {
    var parts := Split(line, " ");
    var cards := parts[0];
    match JokerTypeOf(cards)
    case Panic => Panic
    case Ok(hand_type) =>
      if |parts| < 2 then Panic
      else
        match (ParseUnsigned(parts[1], UsizeLimit), JokerPositions(cards))
        case (Ok(bid), Ok(positions)) => Ok(Hand(hand_type, positions, bid))
        case _ => Panic
  }

  /** A line of five card labels, a space and a bid is read as that hand. */
  lemma ParseHandLine(cards: string, bid: nat)
    requires |cards| == 5 && (forall i :: 0 <= i < 5 ==> cards[i] in JokerLabels) && bid < UsizeLimit
    ensures ParseHand(cards + " " + Decimal(bid)).Ok?
    ensures ParseHand(cards + " " + Decimal(bid)).value == Hand(JokerTypeOf(cards).value, JokerPositions(cards).value, bid)
  {
    forall i | 0 <= i < 5
      ensures cards[i] in Labels
    {
      JokerCardOrder(cards[i]);
      CardOrder(cards[i]);
    }
    SplitHandLine(cards, Decimal(bid));
    ParseDecimal(bid, UsizeLimit);
  }

  /** The hands of all lines; any line that is no hand panics. */
  function ParseHands(lines: seq<string>): (r: Result<seq<Hand>>)
    ensures r.Ok? <==> forall i :: 0 <= i < |lines| ==> ParseHand(lines[i]).Ok?
    ensures r.Ok? ==> |r.value| == |lines| && forall i :: 0 <= i < |lines| ==> r.value[i] == ParseHand(lines[i]).value
  {
    Collect(ParseEach(lines))
  }

  function ParseEach(lines: seq<string>): (r: seq<Result<Hand>>)
    ensures |r| == |lines| && forall i :: 0 <= i < |lines| ==> r[i] == ParseHand(lines[i])
  {
    seq(|lines|, i requires 0 <= i < |lines| => ParseHand(lines[i]))
  }

  /** Rust's `solution`: part one's sort and rank-weighted sum over the
      hands classified with jokers. */
  method Solution(lines: seq<string>) returns (r: Result<nat>)
    ensures r.Ok? <==> ParseHands(lines).Ok?
    ensures r.Ok? ==> r.value == Winnings(SortedHands(ParseHands(lines).value))
  {
    var parsed := ParseHands(lines);
    if parsed.Panic? {
      return Panic;
    }
    var total := SortAndScore(parsed.value);
    r := Ok(total);
  }

  /** The puzzle's example with jokers: 32T3K stays one pair, T55J5, KTJJT
      and QQQJA become four of a kind. */
  const ExampleJokerHands: seq<Hand> := [
    Hand(OnePair, [10, 11, 3, 10, 1], 765), Hand(FourKind, [3, 8, 8, 12, 8], 684),
    Hand(TwoPair, [1, 1, 7, 6, 6], 28), Hand(FourKind, [1, 3, 12, 12, 3], 220),
    Hand(FourKind, [2, 2, 2, 12, 0], 483)]

  /** The example ranks KTJJT, QQQJA, T55J5, KK677, 32T3K ... */
  lemma ExampleJokerRanking()
    ensures SortedHands(ExampleJokerHands)
      == [ExampleJokerHands[3], ExampleJokerHands[4], ExampleJokerHands[1], ExampleJokerHands[2], ExampleJokerHands[0]]
  {
    var hands := ExampleJokerHands;
    var ranked := [hands[3], hands[4], hands[1], hands[2], hands[0]];
    assert Sorted(ranked) by {
      assert LexLe(hands[3].cards, hands[4].cards);
      assert LexLe(hands[4].cards, hands[1].cards);
    }
    assert hands == [hands[0], hands[1], hands[2], hands[3], hands[4]];
    RotatePermutes(hands[0], hands[1], hands[2], hands[3], hands[4]);
    SortedUnique(ranked, SortedHands(hands));
  }

  /** ... and so wins 220·5 + 483·4 + 684·3 + 28·2 + 765·1 = 5905. */
  lemma ExampleJokerWinnings()
    ensures Winnings(SortedHands(ExampleJokerHands)) == 5905
  {
    ExampleJokerRanking();
    WinningsOfFive(ExampleJokerHands[3], ExampleJokerHands[4], ExampleJokerHands[1], ExampleJokerHands[2], ExampleJokerHands[0]);
  }

  lemma RotatePermutes(a: Hand, b: Hand, c: Hand, d: Hand, e: Hand)
    ensures multiset([d, e, b, c, a]) == multiset([a, b, c, d, e])
  {
    var x, y, z := [d, e], [b, c], [a];
    assert [d, e, b, c, a] == x + y + z;
    assert [a, b, c, d, e] == z + y + x;
    SwapThirds(x, y, z);
  }

  lemma SwapThirds<T>(x: seq<T>, y: seq<T>, z: seq<T>)
    ensures multiset(x + y + z) == multiset(z + y + x)
  {
    assert multiset(x + y + z) == multiset(x) + multiset(y) + multiset(z);
    assert multiset(z + y + x) == multiset(z) + multiset(y) + multiset(x);
  }
}
