/** Day 4, part one: a scratchcard lists winning numbers and the numbers one
    has; every owned entry that is a winning number is a match, and a card
    with n > 0 matches scores 2^(n-1) points. */
module Day04a {
  import opened Common

  /** One card after the "Card X:" prefix is cut off: the numbers left and
      right of the '|'. */
  datatype Card = Card(winning: seq<nat>, owned: seq<nat>)

  /** How many entries of `owned` lie in `winning`, counting a repeated
      entry every time it occurs. */
  function Matches(winning: set<nat>, owned: seq<nat>): (n: nat)
    ensures n <= |owned|
    ensures n == |owned| <==> forall i :: 0 <= i < |owned| ==> owned[i] in winning
    ensures n == 0 <==> forall i :: 0 <= i < |owned| ==> owned[i] !in winning
  {
    if owned == [] then 0
    else
      var init := owned[..|owned| - 1];
      assert forall i :: 0 <= i < |init| ==> init[i] == owned[i];
      Matches(winning, init) + (if owned[|owned| - 1] in winning then 1 else 0)
  }

  /** The matches are the positions of `owned` holding a winning number. */
  lemma {:induction false} MatchesArePositions(winning: set<nat>, owned: seq<nat>)
    ensures Matches(winning, owned) == |set i | 0 <= i < |owned| && owned[i] in winning|
  {
    if owned != [] {
      var init := owned[..|owned| - 1];
      MatchesArePositions(winning, init);
      var before := set i | 0 <= i < |init| && init[i] in winning;
      var all := set i | 0 <= i < |owned| && owned[i] in winning;
      if owned[|owned| - 1] in winning {
        assert all == before + {|owned| - 1};
      } else {
        assert all == before;
      }
    }
  }

  /** Owning a winning number twice is two matches. */
  lemma RepeatCountsTwice(winning: set<nat>, owned: seq<nat>, x: nat)
    requires x in winning
    ensures Matches(winning, owned + [x, x]) == Matches(winning, owned) + 2
  {
    assert (owned + [x, x])[..|owned| + 1] == owned + [x];
    assert (owned + [x])[..|owned|] == owned;
  }

  /** `num_won`: the matches of a card against the set of its winning
      numbers. */
  function NumWon(card: Card): nat
  {
    Matches((set x | x in card.winning), card.owned)
  }

  function Pow2(k: nat): (p: nat)
    ensures p >= 1
  {
    if k == 0 then 1 else 2 * Pow2(k - 1)
  }

  lemma Pow2Below(k: nat)
    requires k < 32
    ensures Pow2(k) < U32Limit
  {
    Pow2Grows(k, 32);
    Pow2Of32();
  }

  lemma Pow2Of32()
    ensures Pow2(32) == U32Limit
  {
    assert Pow2(2) == 4;
    Pow2Add(2, 2);
    assert Pow2(4) == 16;
    Pow2Add(4, 4);
    assert Pow2(8) == 256;
    Pow2Add(8, 8);
    assert Pow2(16) == 0x1_0000;
    Pow2Add(16, 16);
  }

  lemma {:induction false} Pow2Grows(j: nat, k: nat)
    requires j < k
    ensures Pow2(j) < Pow2(k)
    decreases k
  {
    if j < k - 1 {
      Pow2Grows(j, k - 1);
    }
  }

  lemma {:induction false} Pow2Add(a: nat, b: nat)
    ensures Pow2(a + b) == Pow2(a) * Pow2(b)
    decreases b
  {
    if b > 0 {
      Pow2Add(a, b - 1);
    }
  }

  /** A card's points: 0 without a match, else `2u32.pow(n - 1)`, which
      overflows, and so panics, from n = 33 on. */
  function Score(n: nat): (r: Result<nat>)
    ensures r.Ok? <==> n <= 32
    ensures r.Ok? ==> r.value < U32Limit
  {
    if n == 0 then Ok(0)
    else if n - 1 < 32 then Pow2Below(n - 1); Ok(Pow2(n - 1))
    else Panic
  }

  /** A card scores exactly when it has a match, the first match is worth
      one point and each further one doubles the points. */
  lemma ScoreDoubles(n: nat)
    requires n <= 32
    ensures Score(n).value > 0 <==> n > 0
    ensures n == 1 ==> Score(n).value == 1
    ensures 1 <= n < 32 ==> Score(n + 1).value == 2 * Score(n).value
  {
  }

  /** The sum of the card scores, or a panic when some card's score
      overflows; each card adds less than 2^32. */
  function Solution(cards: seq<Card>): (r: Result<nat>)
  {
    if cards == [] then Ok(0)
    else
      var init := cards[..|cards| - 1];
      match (Solution(init), Score(NumWon(cards[|cards| - 1])))
      case (Ok(total), Ok(s)) => Ok(total + s)
      case _ => Panic
  }

  /** The sum panics exactly when some card's score does. */
  lemma {:induction false} SolutionPanics(cards: seq<Card>)
    ensures Solution(cards).Panic? <==> exists i :: 0 <= i < |cards| && NumWon(cards[i]) > 32
  {
    if cards != [] {
      var init := cards[..|cards| - 1];
      assert forall i :: 0 <= i < |init| ==> init[i] == cards[i];
      SolutionPanics(init);
    }
  }

  /** The answer adds up over consecutive stretches of cards. */
  lemma {:induction false} SolutionAppend(a: seq<Card>, b: seq<Card>)
    requires Solution(a).Ok? && Solution(b).Ok?
    ensures Solution(a + b) == Ok(Solution(a).value + Solution(b).value)
  {
    if b == [] {
      assert a + b == a;
    } else {
      var b' := b[..|b| - 1];
      assert (a + b)[..|a + b| - 1] == a + b';
      assert (a + b)[|a + b| - 1] == b[|b| - 1];
      SolutionAppend(a, b');
    }
  }

  /** Cards without matches add nothing. */
  lemma {:induction false} NoMatchesNoPoints(cards: seq<Card>)
    requires forall i :: 0 <= i < |cards| ==> NumWon(cards[i]) == 0
    ensures Solution(cards) == Ok(0)
  {
    if cards != [] {
      var init := cards[..|cards| - 1];
      assert forall i :: 0 <= i < |init| ==> init[i] == cards[i];
      NoMatchesNoPoints(init);
    }
  }
}
