/** Day 7, part one: Camel Cards. A hand of five cards has a type given by
    how often each card occurs; hands are ranked by type, then card by card,
    and each hand wins its bid times its rank. */
module Day07a {
  import opened Common

  /** The cards in declaration order; the derived order puts A first and
      Two last, so the strongest card sorts first. */
  datatype Card = A | K | Q | J | T | Nine | Eight | Seven | Six | Five | Four | Three | Two

  /** A card's place in the declaration, which is what the derived order
      compares. */
  function Position(c: Card): nat
  {
    match c
    case A => 0 case K => 1 case Q => 2 case J => 3 case T => 4
    case Nine => 5 case Eight => 6 case Seven => 7 case Six => 8
    case Five => 9 case Four => 10 case Three => 11 case Two => 12
  }

  /** `Card::from`: the thirteen labels, anything else panics. */
  function CardOf(ch: char): Result<Card>
  {
    match ch
    case 'A' => Ok(A) case 'K' => Ok(K) case 'Q' => Ok(Q) case 'J' => Ok(J)
    case 'T' => Ok(T) case '9' => Ok(Nine) case '8' => Ok(Eight)
    case '7' => Ok(Seven) case '6' => Ok(Six) case '5' => Ok(Five)
    case '4' => Ok(Four) case '3' => Ok(Three) case '2' => Ok(Two)
    case _ => Panic
  }

  /** The labels from strongest to weakest. */
  const Labels: string := "AKQJT98765432"

  /** The label at place i of "AKQJT98765432" is the card at place i of
      the order, and no other character is a card. */
  lemma CardOrder(ch: char)
    ensures CardOf(ch).Ok? <==> ch in Labels
    ensures forall i :: 0 <= i < |Labels| ==> CardOf(Labels[i]).Ok? && Position(CardOf(Labels[i]).value) == i
  {
  }

  /** The hand types in declaration order, strongest first. */
  datatype HandType = FiveKind | FourKind | FullHouse | ThreeKind | TwoPair | OnePair | HighCard

  function TypePosition(t: HandType): nat
  {
    match t
    case FiveKind => 0 case FourKind => 1 case FullHouse => 2 case ThreeKind => 3
    case TwoPair => 4 case OnePair => 5 case HighCard => 6
  }

  /** The occurrence counts of the distinct cards that make up each hand
      type. */
  function Pattern(t: HandType): multiset<nat>
  {
    match t
    case FiveKind => multiset{5}
    case FourKind => multiset{1, 4}
    case FullHouse => multiset{2, 3}
    case ThreeKind => multiset{1, 1, 3}
    case TwoPair => multiset{1, 2, 2}
    case OnePair => multiset{1, 1, 1, 2}
    case HighCard => multiset{1, 1, 1, 1, 1}
  }

  lemma PatternsDistinct(a: HandType, b: HandType)
    requires Pattern(a) == Pattern(b)
    ensures a == b
  {
    assert |Pattern(a)| == |Pattern(b)|;
    assert Pattern(a)[4] == Pattern(b)[4] && Pattern(a)[3] == Pattern(b)[3];
  }

  // ---------------------------------------------------------------------
  // The count table

  /** The `entry(val).or_default() += 1` of the fold, on a table of
      (card, count) entries kept in order of first occurrence (the
      HashMap's own order is not observable once the counts are sorted). */
  function Bump(t: seq<(char, nat)>, c: char): seq<(char, nat)>
  {
    if t == [] then [(c, 1)]
    else if t[0].0 == c then [(c, t[0].1 + 1)] + t[1..]
    else [t[0]] + Bump(t[1..], c)
  }

  /** The fold over the characters of the hand. */
  function Tally(s: string): seq<(char, nat)>
  {
    if s == [] then [] else Bump(Tally(s[..|s| - 1]), s[|s| - 1])
  }

  function Keys(t: seq<(char, nat)>): (r: seq<char>)
    ensures |r| == |t| && forall i :: 0 <= i < |t| ==> r[i] == t[i].0
  {
    seq(|t|, i requires 0 <= i < |t| => t[i].0)
  }

  /** `counts.values()`. */
  function Values(t: seq<(char, nat)>): (r: seq<nat>)
    ensures |r| == |t| && forall i :: 0 <= i < |t| ==> r[i] == t[i].1
  {
    seq(|t|, i requires 0 <= i < |t| => t[i].1)
  }

  predicate DistinctKeys(t: seq<(char, nat)>)
  {
    forall i, j :: 0 <= i < j < |t| ==> t[i].0 != t[j].0
  }

  /** `t` is the count table of `s`: one entry per distinct character,
      holding the number of its occurrences. */
  predicate Tallies(t: seq<(char, nat)>, s: string)
  {
    && DistinctKeys(t)
    && (forall i :: 0 <= i < |t| ==> t[i].0 in s && t[i].1 == multiset(s)[t[i].0])
    && (forall c :: c in s ==> c in Keys(t))
  }

  lemma {:induction false} BumpFound(t: seq<(char, nat)>, c: char, i: nat)
    requires DistinctKeys(t) && i < |t| && t[i].0 == c
    ensures Bump(t, c) == t[i := (c, t[i].1 + 1)]
  {
    if i > 0 {
      BumpFound(t[1..], c, i - 1);
    }
  }

  lemma {:induction false} BumpMissing(t: seq<(char, nat)>, c: char)
    requires c !in Keys(t)
    ensures Bump(t, c) == t + [(c, 1)]
  {
    if t != [] {
      assert Keys(t[1..]) == Keys(t)[1..];
      BumpMissing(t[1..], c);
    }
  }

  lemma TallyStepFound(t: seq<(char, nat)>, s: string, c: char, i: nat)
    requires Tallies(t, s) && i < |t| && t[i].0 == c
    ensures Tallies(t[i := (c, t[i].1 + 1)], s + [c])
  {
    var t' := t[i := (c, t[i].1 + 1)];
    assert multiset(s + [c]) == multiset(s) + multiset{c};
    assert Keys(t') == Keys(t);
  }

  lemma TallyStepMissing(t: seq<(char, nat)>, s: string, c: char)
    requires Tallies(t, s) && c !in Keys(t)
    ensures Tallies(t + [(c, 1)], s + [c])
  {
    var t' := t + [(c, 1)];
    assert multiset(s + [c]) == multiset(s) + multiset{c};
    assert c !in s;
    assert Keys(t') == Keys(t) + [c];
  }

  /** The fold builds the count table of the hand, and its counts add up
      to the number of cards. */
  lemma {:induction false} TallyCorrect(s: string)
    ensures Tallies(Tally(s), s)
    ensures Sum(Values(Tally(s))) == |s|
  {
    if s != [] {
      var init, c := s[..|s| - 1], s[|s| - 1];
      assert s == init + [c];
      TallyCorrect(init);
      TallyStep(Tally(init), init, c);
    }
  }

  lemma TallyStep(t: seq<(char, nat)>, s: string, c: char)
    requires Tallies(t, s) && Sum(Values(t)) == |s|
    ensures Tallies(Bump(t, c), s + [c]) && Sum(Values(Bump(t, c))) == |s| + 1
  {
    if c in Keys(t) {
      var i :| 0 <= i < |t| && Keys(t)[i] == c;
      BumpFound(t, c, i);
      TallyStepFound(t, s, c, i);
      CountFound(t, c, i);
    } else {
      BumpMissing(t, c);
      TallyStepMissing(t, s, c);
      CountMissing(t, c);
    }
  }

  lemma CountFound(t: seq<(char, nat)>, c: char, i: nat)
    requires i < |t|
    ensures Sum(Values(t[i := (c, t[i].1 + 1)])) == Sum(Values(t)) + 1
  {
    assert Values(t[i := (c, t[i].1 + 1)]) == Values(t)[i := Values(t)[i] + 1];
    SumIncrement(Values(t), i);
  }

  lemma CountMissing(t: seq<(char, nat)>, c: char)
    ensures Sum(Values(t + [(c, 1)])) == Sum(Values(t)) + 1
  {
    assert Values(t + [(c, 1)])[..|t|] == Values(t);
  }

  lemma {:induction false} SumIncrement(v: seq<nat>, i: nat)
    requires i < |v|
    ensures Sum(v[i := v[i] + 1]) == Sum(v) + 1
  {
    var w := v[i := v[i] + 1];
    if i < |v| - 1 {
      assert w[..|w| - 1] == v[..|v| - 1][i := v[i] + 1];
      SumIncrement(v[..|v| - 1], i);
    } else {
      assert w[..|w| - 1] == v[..|v| - 1];
    }
  }

  /** The occurrence counts of the characters of `cards` in `ms`, one per
      character, taken in any order. */
  ghost function OccurrenceBag(cards: set<char>, ms: multiset<char>): multiset<nat>
    decreases cards
  {
    if cards == {} then multiset{}
    else
      var c :| c in cards;
      multiset{ms[c]} + OccurrenceBag(cards - {c}, ms)
  }

  /** The distinct cards of a hand. */
  function CardSet(s: string): set<char>
  {
    set c | c in s
  }

  /** The occurrence counts of a hand's distinct cards. */
  ghost function CardBag(s: string): multiset<nat>
  {
    OccurrenceBag(CardSet(s), multiset(s))
  }

  lemma {:induction false} OccurrenceBagRemove(cards: set<char>, ms: multiset<char>, c: char)
    requires c in cards
    ensures OccurrenceBag(cards, ms) == multiset{ms[c]} + OccurrenceBag(cards - {c}, ms)
    decreases cards
  {
    var d :| d in cards && OccurrenceBag(cards, ms) == multiset{ms[d]} + OccurrenceBag(cards - {d}, ms);
    if d != c {
      OccurrenceBagRemove(cards - {d}, ms, c);
      OccurrenceBagRemove(cards - {c}, ms, d);
      assert cards - {d} - {c} == cards - {c} - {d};
    }
  }

  function KeySet(t: seq<(char, nat)>): set<char>
  {
    set i | 0 <= i < |t| :: t[i].0
  }

  lemma {:induction false} ValuesBag(t: seq<(char, nat)>, ms: multiset<char>)
    requires DistinctKeys(t) && forall i :: 0 <= i < |t| ==> t[i].1 == ms[t[i].0]
    ensures multiset(Values(t)) == OccurrenceBag(KeySet(t), ms)
  {
    if t != [] {
      var init, last := t[..|t| - 1], t[|t| - 1];
      ValuesBag(init, ms);
      assert Values(t) == Values(init) + [last.1];
      assert KeySet(t) == KeySet(init) + {last.0};
      assert last.0 !in KeySet(init);
      OccurrenceBagRemove(KeySet(t), ms, last.0);
      assert KeySet(t) - {last.0} == KeySet(init);
    }
  }

  /** The counts of the table are the occurrence counts of the hand's
      distinct cards. */
  lemma TallyBag(s: string)
    ensures multiset(Values(Tally(s))) == CardBag(s)
  {
    var t := Tally(s);
    TallyCorrect(s);
    ValuesBag(t, multiset(s));
    assert KeySet(t) == CardSet(s);
  }

  // ---------------------------------------------------------------------
  // Sorting counts

  predicate Ascending(s: seq<nat>)
  {
    forall i, j :: 0 <= i < j < |s| ==> s[i] <= s[j]
  }

  function Insert(x: nat, s: seq<nat>): (r: seq<nat>)
    ensures multiset(r) == multiset(s) + multiset{x}
    ensures |r| == |s| + 1 && (r[0] == x || (s != [] && r[0] == s[0]))
  {
    if s == [] || x <= s[0] then [x] + s
    else
      assert s == [s[0]] + s[1..];
      [s[0]] + Insert(x, s[1..])
  }

  lemma {:induction false} InsertAscending(x: nat, s: seq<nat>)
    requires Ascending(s)
    ensures Ascending(Insert(x, s))
  {
    if s != [] && x > s[0] {
      InsertAscending(x, s[1..]);
      var r := Insert(x, s[1..]);
      assert s[0] <= r[0];
      assert Insert(x, s) == [s[0]] + r;
    }
  }

  lemma {:induction false} InsertSum(x: nat, s: seq<nat>)
    ensures Sum(Insert(x, s)) == Sum(s) + x
  {
    if s == [] || x <= s[0] {
      SumAppend([x], s);
      assert [x][..0] == [];
    } else {
      assert s == [s[0]] + s[1..];
      InsertSum(x, s[1..]);
      SumAppend([s[0]], s[1..]);
      SumAppend([s[0]], Insert(x, s[1..]));
      assert [s[0]][..0] == [];
    }
  }

  /** The `sort` of the counts: ascending, a permutation, the same sum. */
  function SortNat(s: seq<nat>): (r: seq<nat>)
    ensures Ascending(r) && multiset(r) == multiset(s) && Sum(r) == Sum(s)
  {
    if s == [] then []
    else
      var init := s[..|s| - 1];
      assert s == init + [s[|s| - 1]];
      InsertAscending(s[|s| - 1], SortNat(init));
      InsertSum(s[|s| - 1], SortNat(init));
      Insert(s[|s| - 1], SortNat(init))
  }

  lemma Sum2(a: nat, b: nat)
    ensures Sum([a, b]) == a + b
  {
    assert Sum([a]) == a by {
      assert [a][..0] == [];
    }
    assert [a, b][..1] == [a];
  }

  lemma Sum3(a: nat, b: nat, c: nat)
    ensures Sum([a, b, c]) == a + b + c
  {
    assert [a, b, c][..2] == [a, b];
    Sum2(a, b);
  }

  lemma Sum4(a: nat, b: nat, c: nat, d: nat)
    ensures Sum([a, b, c, d]) == a + b + c + d
  {
    assert [a, b, c, d][..3] == [a, b, c];
    Sum3(a, b, c);
  }

  lemma Sum5(a: nat, b: nat, c: nat, d: nat, e: nat)
    ensures Sum([a, b, c, d, e]) == a + b + c + d + e
  {
    assert [a, b, c, d, e][..4] == [a, b, c, d];
    Sum4(a, b, c, d);
  }

  lemma {:induction false} SumAtLeastLength(w: seq<nat>)
    requires forall i :: 0 <= i < |w| ==> w[i] >= 1
    ensures Sum(w) >= |w|
  {
    if w != [] {
      SumAtLeastLength(w[..|w| - 1]);
    }
  }

  /** The ascending lists of positive counts summing to five: the shapes
      the `[1, 4]` and `[1, 1, 3]` tests tell apart. */
  lemma AscendingFive(w: seq<nat>)
    requires Ascending(w) && Sum(w) == 5 && forall i :: 0 <= i < |w| ==> w[i] >= 1
    ensures 1 <= |w| <= 5
    ensures |w| == 1 ==> w == [5]
    ensures |w| == 2 ==> w == [1, 4] || w == [2, 3]
    ensures |w| == 3 ==> w == [1, 1, 3] || w == [1, 2, 2]
    ensures |w| == 4 ==> w == [1, 1, 1, 2]
    ensures |w| == 5 ==> w == [1, 1, 1, 1, 1]
  {
    SumAtLeastLength(w);
    if |w| == 1 {
      assert w == [w[0]];
      assert [w[0]][..0] == [];
    } else if |w| == 2 {
      AscendingTwo(w);
    } else if |w| == 3 {
      AscendingThree(w);
    } else if |w| == 4 {
      AscendingFour(w);
    } else if |w| == 5 {
      AscendingFiveOnes(w);
    }
  }

  lemma AscendingTwo(w: seq<nat>)
    requires |w| == 2 && Ascending(w) && Sum(w) == 5 && w[0] >= 1
    ensures w == [1, 4] || w == [2, 3]
  {
    assert w == [w[0], w[1]];
    Sum2(w[0], w[1]);
  }

  lemma AscendingThree(w: seq<nat>)
    requires |w| == 3 && Ascending(w) && Sum(w) == 5 && w[0] >= 1
    ensures w == [1, 1, 3] || w == [1, 2, 2]
  {
    assert w == [w[0], w[1], w[2]];
    Sum3(w[0], w[1], w[2]);
  }

  lemma AscendingFour(w: seq<nat>)
    requires |w| == 4 && Ascending(w) && Sum(w) == 5 && w[0] >= 1
    ensures w == [1, 1, 1, 2]
  {
    assert w == [w[0], w[1], w[2], w[3]];
    Sum4(w[0], w[1], w[2], w[3]);
  }

  lemma AscendingFiveOnes(w: seq<nat>)
    requires |w| == 5 && Ascending(w) && Sum(w) == 5 && w[0] >= 1
    ensures w == [1, 1, 1, 1, 1]
  {
    assert w == [w[0], w[1], w[2], w[3], w[4]];
    Sum5(w[0], w[1], w[2], w[3], w[4]);
  }

  // ---------------------------------------------------------------------
  // Classification

  /** The type given by the number of distinct cards and their counts in
      ascending order. */
  function TypeOfCounts(distinct: nat, sorted_values: seq<nat>): HandType
  {
    match distinct
    case 1 => FiveKind
    case 2 => if sorted_values == [1, 4] then FourKind else FullHouse
    case 3 => if sorted_values == [1, 1, 3] then ThreeKind else TwoPair
    case 4 => OnePair
    case _ => HighCard
  }

  /** Every ascending list of positive counts summing to five names the
      type whose pattern it is. */
  lemma CountsPattern(w: seq<nat>)
    requires Ascending(w) && Sum(w) == 5 && forall i :: 0 <= i < |w| ==> w[i] >= 1
    ensures multiset(w) == Pattern(TypeOfCounts(|w|, w))
  {
    AscendingFive(w);
  }

  /** `HandType::from`: a hand must have exactly five cards; the type
      follows from the number of distinct cards and, for two or three, the
      sorted counts. */
  function HandTypeOf(s: string): Result<HandType>
  {
    if |s| != 5 then Panic
    else
      var counts := Tally(s);
      Ok(TypeOfCounts(|counts|, SortNat(Values(counts))))
  }

  /** The sorted counts of a five-card hand are positive and add up to
      five. */
  lemma SortedCountsOfFive(s: string)
    requires |s| == 5
    ensures Ascending(SortNat(Values(Tally(s))))
    ensures Sum(SortNat(Values(Tally(s)))) == 5
    ensures |SortNat(Values(Tally(s)))| == |Tally(s)|
    ensures forall i :: 0 <= i < |Tally(s)| ==> SortNat(Values(Tally(s)))[i] >= 1
  {
    var t := Tally(s);
    TallyCorrect(s);
    var v := Values(t);
    var w := SortNat(v);
    assert |w| == |multiset(w)| == |multiset(v)| == |v|;
    forall i | 0 <= i < |w|
      ensures w[i] >= 1
    {
      assert w[i] in multiset(v);
      var j :| 0 <= j < |v| && v[j] == w[i];
      assert t[j].0 in s;
    }
  }

  /** The counts of the table are the type's pattern. */
  lemma HandTypePattern(s: string)
    requires |s| == 5
    ensures HandTypeOf(s).Ok? && multiset(Values(Tally(s))) == Pattern(HandTypeOf(s).value)
  {
    var w := SortNat(Values(Tally(s)));
    SortedCountsOfFive(s);
    CountsPattern(w);
  }

  /** A five-card hand has type `ht` exactly when the occurrence counts of
      its distinct cards are the pattern of `ht`; any other length panics. */
  lemma HandTypeIff(s: string, ht: HandType)
    ensures |s| != 5 ==> HandTypeOf(s).Panic?
    ensures |s| == 5 ==> (HandTypeOf(s) == Ok(ht) <==> CardBag(s) == Pattern(ht))
  {
    if |s| == 5 {
      HandTypePattern(s);
      TallyBag(s);
      if CardBag(s) == Pattern(ht) {
        PatternsDistinct(HandTypeOf(s).value, ht);
      }
    }
  }

  // ---------------------------------------------------------------------
  // Hands and their order

  /** A parsed line. `cards` holds each card's place in the card order
      (0 for the strongest), so comparing these numbers is comparing the
      cards. */
  datatype Hand = Hand(hand_type: HandType, cards: seq<nat>, bid: nat)

  /** The derived order of vectors: the first difference decides, and a
      proper prefix comes first. */
  predicate LexLe(a: seq<nat>, b: seq<nat>)
  {
    a == [] || (b != [] && (a[0] < b[0] || (a[0] == b[0] && LexLe(a[1..], b[1..]))))
  }

  lemma {:induction false} LexTotal(a: seq<nat>, b: seq<nat>)
    ensures LexLe(a, b) || LexLe(b, a)
  {
    if a != [] && b != [] && a[0] == b[0] {
      LexTotal(a[1..], b[1..]);
    }
  }

  lemma {:induction false} LexAntisymmetric(a: seq<nat>, b: seq<nat>)
    requires LexLe(a, b) && LexLe(b, a)
    ensures a == b
  {
    if a != [] {
      LexAntisymmetric(a[1..], b[1..]);
      assert a == [a[0]] + a[1..] && b == [b[0]] + b[1..];
    }
  }

  lemma {:induction false} LexTransitive(a: seq<nat>, b: seq<nat>, c: seq<nat>)
    requires LexLe(a, b) && LexLe(b, c)
    ensures LexLe(a, c)
  {
    if a != [] && a[0] == b[0] && b[0] == c[0] {
      LexTransitive(a[1..], b[1..], c[1..]);
    }
  }

  /** The derived order of `Hand`: by type, then by cards, then by bid. */
  predicate HandLe(x: Hand, y: Hand)
  {
    TypePosition(x.hand_type) < TypePosition(y.hand_type)
    || (x.hand_type == y.hand_type
        && ((LexLe(x.cards, y.cards) && x.cards != y.cards) || (x.cards == y.cards && x.bid <= y.bid)))
  }

  lemma TypePositionInjective(a: HandType, b: HandType)
    requires TypePosition(a) == TypePosition(b)
    ensures a == b
  {
  }

  /** The order is total, antisymmetric and transitive. */
  lemma HandTotal(x: Hand, y: Hand)
    ensures HandLe(x, y) || HandLe(y, x)
  {
    LexTotal(x.cards, y.cards);
    if TypePosition(x.hand_type) == TypePosition(y.hand_type) {
      TypePositionInjective(x.hand_type, y.hand_type);
    }
  }

  lemma HandAntisymmetric(x: Hand, y: Hand)
    requires HandLe(x, y) && HandLe(y, x)
    ensures x == y
  {
    if x.cards != y.cards {
      LexAntisymmetric(x.cards, y.cards);
    }
  }

  lemma HandTransitive(x: Hand, y: Hand, z: Hand)
    requires HandLe(x, y) && HandLe(y, z)
    ensures HandLe(x, z)
  {
    if x.hand_type == y.hand_type && y.hand_type == z.hand_type {
      LexReflexive(x.cards);
      LexReflexive(y.cards);
      LexTransitive(x.cards, y.cards, z.cards);
      if x.cards == z.cards {
        LexAntisymmetric(x.cards, y.cards);
      }
    }
  }

  lemma {:induction false} LexReflexive(a: seq<nat>)
    ensures LexLe(a, a)
  {
    if a != [] {
      LexReflexive(a[1..]);
    }
  }

  /** A strictly stronger type wins whatever the cards and bids. */
  lemma StrongerTypeFirst(x: Hand, y: Hand)
    requires TypePosition(x.hand_type) < TypePosition(y.hand_type)
    ensures HandLe(x, y) && !HandLe(y, x)
  {
  }

  /** Each hand is at most the next one. */
  predicate Sorted(s: seq<Hand>)
  {
    forall k :: 0 < k < |s| ==> HandLe(s[k - 1], s[k])
  }

  lemma {:induction false} SortedPairwise(s: seq<Hand>, i: nat, j: nat)
    requires Sorted(s) && i <= j < |s|
    ensures HandLe(s[i], s[j])
  {
    if i == j {
      HandTotal(s[i], s[j]);
    } else {
      SortedPairwise(s, i, j - 1);
      HandTransitive(s[i], s[j - 1], s[j]);
    }
  }

  /** Two sorted lists of the same hands are the same list: whatever order
      the lines come in, the sort yields one ranking. */
  lemma {:induction false} SortedUnique(s: seq<Hand>, t: seq<Hand>)
    requires Sorted(s) && Sorted(t) && multiset(s) == multiset(t)
    ensures s == t
  {
    if s != [] {
      SortedHead(s, t);
      TailsAgree(s, t);
      SortedUnique(s[1..], t[1..]);
    }
  }

  lemma TailsAgree(s: seq<Hand>, t: seq<Hand>)
    requires s != [] && t != [] && s[0] == t[0] && multiset(s) == multiset(t)
    ensures multiset(s[1..]) == multiset(t[1..])
  {
    assert s == [s[0]] + s[1..] && t == [t[0]] + t[1..];
    assert multiset(s) == multiset{s[0]} + multiset(s[1..]);
    assert multiset(t) == multiset{s[0]} + multiset(t[1..]);
    forall h
      ensures multiset(s[1..])[h] == multiset(t[1..])[h]
    {
      assert multiset(s)[h] == multiset(t)[h];
    }
  }

  lemma SortedHead(s: seq<Hand>, t: seq<Hand>)
    requires Sorted(s) && Sorted(t) && multiset(s) == multiset(t) && s != []
    ensures t != [] && s[0] == t[0]
  {
    assert s[0] in multiset(t);
    assert t != [] && t[0] in multiset(s);
    var i :| 0 <= i < |t| && t[i] == s[0];
    var j :| 0 <= j < |s| && s[j] == t[0];
    SortedPairwise(t, 0, i);
    SortedPairwise(s, 0, j);
    HandAntisymmetric(s[0], t[0]);
  }

  /** Insertion into a sorted list, the reference for `sort`. */
  function InsertHand(x: Hand, s: seq<Hand>): (r: seq<Hand>)
    ensures multiset(r) == multiset(s) + multiset{x}
    ensures |r| == |s| + 1 && (r[0] == x || (s != [] && r[0] == s[0]))
  {
    if s == [] || HandLe(x, s[0]) then [x] + s
    else
      assert s == [s[0]] + s[1..];
      [s[0]] + InsertHand(x, s[1..])
  }

  lemma {:induction false} InsertHandSorted(x: Hand, s: seq<Hand>)
    requires Sorted(s)
    ensures Sorted(InsertHand(x, s))
  {
    if s != [] && !HandLe(x, s[0]) {
      InsertHandSorted(x, s[1..]);
      HandTotal(x, s[0]);
      var r := InsertHand(x, s[1..]);
      assert HandLe(s[0], r[0]);
      assert InsertHand(x, s) == [s[0]] + r;
    }
  }

  /** The hands in ascending order: sorted, and a permutation of the
      input. */
  function SortedHands(s: seq<Hand>): (r: seq<Hand>)
    ensures Sorted(r) && multiset(r) == multiset(s)
  {
    if s == [] then []
    else
      var init := s[..|s| - 1];
      assert s == init + [s[|s| - 1]];
      InsertHandSorted(s[|s| - 1], SortedHands(init));
      InsertHand(s[|s| - 1], SortedHands(init))
  }

  /** `hands.sort()`, in place: the vector ends sorted and holds the same
      hands; being sorted, it is the reference ranking. */
  method SortHands(a: array<Hand>)
    modifies a
    ensures Sorted(a[..]) && multiset(a[..]) == old(multiset(a[..]))
    ensures a[..] == SortedHands(old(a[..]))
  {
    for i := 0 to a.Length
      invariant Sorted(a[..i]) && multiset(a[..]) == old(multiset(a[..]))
    {
      Sink(a, i);
    }
    if a.Length == 0 {
      assert a[..] == [];
    } else {
      assert a[..a.Length] == a[..];
    }
    SortedUnique(a[..], SortedHands(old(a[..])));
  }

  /** Moves `a[i]` down past every larger hand before it. */
  method Sink(a: array<Hand>, i: nat)
    requires i < a.Length && Sorted(a[..i])
    modifies a
    ensures Sorted(a[..i + 1]) && multiset(a[..]) == old(multiset(a[..]))
  {
    var j := i;
    assert SortedExcept(a[..], i, i);
    while j > 0 && !HandLe(a[j - 1], a[j])
      invariant 0 <= j <= i
      invariant multiset(a[..]) == old(multiset(a[..]))
      invariant SortedExcept(a[..], i, j)
      invariant 0 < j < i ==> HandLe(a[j - 1], a[j + 1])
    {
      SwapStep(a[..], i, j);
      a[j - 1], a[j] := a[j], a[j - 1];
      j := j - 1;
    }
    SortedExceptDone(a[..], i, j);
  }

  /** The hands up to index i are in order, except perhaps at the step from
      j - 1 to j. */
  predicate SortedExcept(s: seq<Hand>, i: nat, j: nat)
  {
    i < |s| && forall k :: 0 < k <= i && k != j ==> HandLe(s[k - 1], s[k])
  }

  /** Swapping the pair out of order moves the exception one place down. */
  lemma SwapStep(s: seq<Hand>, i: nat, j: nat)
    requires 0 < j <= i && SortedExcept(s, i, j) && !HandLe(s[j - 1], s[j])
    requires j < i ==> HandLe(s[j - 1], s[j + 1])
    ensures SortedExcept(s[j - 1 := s[j]][j := s[j - 1]], i, j - 1)
    ensures 0 < j - 1 < i ==> HandLe(s[j - 1 := s[j]][j := s[j - 1]][j - 2], s[j - 1 := s[j]][j := s[j - 1]][j])
    ensures multiset(s[j - 1 := s[j]][j := s[j - 1]]) == multiset(s)
  {
    HandTotal(s[j - 1], s[j]);
  }

  lemma SortedExceptDone(s: seq<Hand>, i: nat, j: nat)
    requires j <= i && SortedExcept(s, i, j) && (j == 0 || HandLe(s[j - 1], s[j]))
    ensures Sorted(s[..i + 1])
  {
    assert forall k :: 0 < k <= i ==> HandLe(s[k - 1], s[k]);
  }

  /** The rank-weighted sum: the hand at index i of the sorted list has
      rank |s| - i. */
  function Winnings(s: seq<Hand>): nat
  {
    if s == [] then 0 else s[0].bid * |s| + Winnings(s[1..])
  }

  function Bids(s: seq<Hand>): nat
  {
    if s == [] then 0 else s[0].bid + Bids(s[1..])
  }

  /** Every rank is between 1 and the number of hands, so the winnings lie
      between the sum of the bids and that many times it. */
  lemma {:induction false} WinningsAtLeastBids(s: seq<Hand>)
    ensures Bids(s) <= Winnings(s)
  {
    if s != [] {
      WinningsAtLeastBids(s[1..]);
      MulMonotone(1, |s|, s[0].bid);
    }
  }

  lemma {:induction false} WinningsAtMost(s: seq<Hand>)
    ensures Winnings(s) <= |s| * Bids(s)
  {
    if s != [] {
      WinningsAtMost(s[1..]);
      MulMonotone(|s| - 1, |s|, Bids(s[1..]));
      MulDistributesOver(|s|, s[0].bid, Bids(s[1..]));
    }
  }

  lemma MulMonotone(m: nat, n: nat, k: nat)
    requires m <= n
    ensures m * k <= n * k
  {
  }

  lemma MulDistributesOver(n: nat, x: nat, y: nat)
    ensures n * (x + y) == n * x + n * y
  {
  }

  // ---------------------------------------------------------------------
  // Parsing and the answer

  lemma CardLabel(ch: char)
    ensures CardOf(ch).Ok? ==> Position(CardOf(ch).value) < |Labels| && Labels[Position(CardOf(ch).value)] == ch
  {
  }

  /** `chars().map(Card::from)`: the places of the cards in the order; a
      character that is no card panics. */
  function CardPositions(s: string): (r: Result<seq<nat>>)
    ensures r.Ok? <==> forall i :: 0 <= i < |s| ==> s[i] in Labels
    ensures r.Ok? ==> |r.value| == |s| && forall i :: 0 <= i < |s| ==> r.value[i] < |Labels| && Labels[r.value[i]] == s[i]
  {
    if s == [] then Ok([])
    else
      CardOrder(s[0]);
      CardLabel(s[0]);
      match (CardOf(s[0]), CardPositions(s[1..]))
      case (Ok(c), Ok(rest)) => Ok([Position(c)] + rest)
      case _ =>
        assert forall i :: 1 <= i < |s| ==> s[1..][i - 1] == s[i];
        Panic
  }

  /** One input line "<cards> <bid>": the cards' type (five cards or a
      panic), the bid as a `usize`, and the cards. */
  function ParseHand(line: string): Result<Hand>
  {
    var parts := Split(line, " ");
    var cards := parts[0];
    match HandTypeOf(cards)
    case Panic => Panic
    case Ok(hand_type) =>
      if |parts| < 2 then Panic
      else
        match (ParseUnsigned(parts[1], UsizeLimit), CardPositions(cards))
        case (Ok(bid), Ok(positions)) => Ok(Hand(hand_type, positions, bid))
        case _ => Panic
  }

  /** A line of five card labels, a space and a bid is read as that hand;
      a line whose first word is not five characters long panics. */
  lemma ParseHandLine(cards: string, bid: nat)
    requires |cards| == 5 && (forall i :: 0 <= i < 5 ==> cards[i] in Labels) && bid < UsizeLimit
    ensures ParseHand(cards + " " + Decimal(bid)).Ok?
    ensures ParseHand(cards + " " + Decimal(bid)).value == Hand(HandTypeOf(cards).value, CardPositions(cards).value, bid)
  {
    SplitHandLine(cards, Decimal(bid));
    HandTypePattern(cards);
    ParseDecimal(bid, UsizeLimit);
  }

  lemma SplitHandLine(cards: string, d: string)
    requires (forall i :: 0 <= i < |cards| ==> cards[i] in Labels) && AllDigits(d)
    ensures Split(cards + " " + d, " ") == [cards, d]
  {
    assert Avoids(cards, " ");
    assert Avoids(d, " ");
    JoinCons(cards, [d], " ");
    assert Join([d], " ") == d;
    SplitJoin([cards, d], " ");
  }

  lemma ParseShortHand(line: string)
    requires |Split(line, " ")[0]| != 5
    ensures ParseHand(line) == Panic
  {
  }

  /** The hands of all lines; any line that is no hand panics. */
  function ParseHands(lines: seq<string>): (r: Result<seq<Hand>>)
    ensures r.Ok? <==> forall i :: 0 <= i < |lines| ==> ParseHand(lines[i]).Ok?
    ensures r.Ok? ==> |r.value| == |lines| && forall i :: 0 <= i < |lines| ==> r.value[i] == ParseHand(lines[i]).value
  {
    Collect(ParseEach(lines))
  }

  function ParseEach(lines: seq<string>): (r: seq<Result<Hand>>)
    ensures |r| == |lines| && forall i :: 0 <= i < |lines| ==> r[i] == ParseHand(lines[i])
  {
    seq(|lines|, i requires 0 <= i < |lines| => ParseHand(lines[i]))
  }

  /** Rust's `solution`: the hands sorted in place, and the rank-weighted
      sum of their bids. */
  method Solution(lines: seq<string>) returns (r: Result<nat>)
    ensures r.Ok? <==> ParseHands(lines).Ok?
    ensures r.Ok? ==> r.value == Winnings(SortedHands(ParseHands(lines).value))
  {
    var parsed := ParseHands(lines);
    if parsed.Panic? {
      return Panic;
    }
    var total := SortAndScore(parsed.value);
    r := Ok(total);
  }

  /** The hands copied into a vector, sorted in place and scored. */
  method SortAndScore(hands: seq<Hand>) returns (total: nat)
    ensures total == Winnings(SortedHands(hands))
  {
    var a := new Hand[|hands|](i requires 0 <= i < |hands| => hands[i]);
    assert a[..] == hands;
    SortHands(a);
    total := Winnings(a[..]);
  }

  /** The answer does not depend on the order of the lines. */
  lemma OrderIrrelevant(hands: seq<Hand>, others: seq<Hand>)
    requires multiset(hands) == multiset(others)
    ensures Winnings(SortedHands(hands)) == Winnings(SortedHands(others))
  {
    SortedUnique(SortedHands(hands), SortedHands(others));
  }

  /** The puzzle's example: 32T3K 765, T55J5 684, KK677 28, KTJJT 220 and
      QQQJA 483. */
  const ExampleHands: seq<Hand> := [
    Hand(OnePair, [11, 12, 4, 11, 1], 765), Hand(ThreeKind, [4, 9, 9, 3, 9], 684),
    Hand(TwoPair, [1, 1, 8, 7, 7], 28), Hand(TwoPair, [1, 4, 3, 3, 4], 220),
    Hand(ThreeKind, [2, 2, 2, 3, 0], 483)]

  /** The example ranks QQQJA, T55J5, KK677, KTJJT, 32T3K ... */
  lemma ExampleRanking()
    ensures SortedHands(ExampleHands) == [ExampleHands[4], ExampleHands[1], ExampleHands[2], ExampleHands[3], ExampleHands[0]]
  {
    var hands := ExampleHands;
    var ranked := [hands[4], hands[1], hands[2], hands[3], hands[0]];
    assert LexLe(hands[4].cards, hands[1].cards);
    assert LexLe(hands[2].cards, hands[3].cards);
    assert Sorted(ranked);
    assert ranked == hands[0 := hands[4]][4 := hands[0]];
    SwapPermutes(hands, 0, 4);
    SortedUnique(ranked, SortedHands(hands));
  }

  /** ... and so wins 483·5 + 684·4 + 28·3 + 220·2 + 765·1 = 6440. */
  lemma ExampleWinnings()
    ensures Winnings(SortedHands(ExampleHands)) == 6440
  {
    ExampleRanking();
    WinningsOfFive(ExampleHands[4], ExampleHands[1], ExampleHands[2], ExampleHands[3], ExampleHands[0]);
  }

  lemma WinningsOfFive(a: Hand, b: Hand, c: Hand, d: Hand, e: Hand)
    ensures Winnings([a, b, c, d, e]) == 5 * a.bid + 4 * b.bid + 3 * c.bid + 2 * d.bid + e.bid
  {
    assert [e][1..] == [];
    assert Winnings([e]) == e.bid;
    assert [d, e][1..] == [e];
    assert Winnings([d, e]) == 2 * d.bid + e.bid;
    assert [c, d, e][1..] == [d, e];
    assert Winnings([c, d, e]) == 3 * c.bid + 2 * d.bid + e.bid;
    assert [b, c, d, e][1..] == [c, d, e];
    assert Winnings([b, c, d, e]) == 4 * b.bid + 3 * c.bid + 2 * d.bid + e.bid;
    assert [a, b, c, d, e][1..] == [b, c, d, e];
  }

  lemma SwapPermutes(s: seq<Hand>, i: nat, j: nat)
    requires i < |s| && j < |s|
    ensures multiset(s[i := s[j]][j := s[i]]) == multiset(s)
  {
  }
}
