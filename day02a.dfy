/** Day 2, part one: games of cubes drawn from a bag; a game is possible
    when no draw shows more than 12 red, 13 green or 14 blue cubes, and the
    answer is the sum of the ids of the possible games. */
module Day02a {
  import opened Common

  /** The cubes of one colour shown in one draw. */
  datatype Draw = Draw(r: nat, g: nat, b: nat)

  /** What the `(\d+) red`, `(\d+) green` and `(\d+) blue` patterns capture
      in one draw's text: the number, or nothing when the colour is not
      mentioned. */
  datatype Captured = Captured(red: Option<nat>, green: Option<nat>, blue: Option<nat>)

  function CountOf(c: Option<nat>): nat
  {
    match c
    case None => 0
    case Some(n) => n
  }

  /** The draw a text describes. */
  function DrawOf(c: Captured): Draw
  {
    Draw(CountOf(c.red), CountOf(c.green), CountOf(c.blue))
  }

  /** A colour a draw does not mention counts as no cube of it. */
  lemma AbsentIsZero(c: Captured)
    ensures c.red.None? ==> DrawOf(c).r == 0
    ensures c.green.None? ==> DrawOf(c).g == 0
    ensures c.blue.None? ==> DrawOf(c).b == 0
    ensures c.red.Some? ==> DrawOf(c).r == c.red.value
    ensures c.green.Some? ==> DrawOf(c).g == c.green.value
    ensures c.blue.Some? ==> DrawOf(c).b == c.blue.value
  {
  }

  /** The game id: the number after the five-character prefix of the text
      before the first ':'; a shorter prefix or a malformed number panics. */
  function GameId(line: string): Result<nat>
  {
    var head := Split(line, ":")[0];
    if |head| < 5 then Panic else ParseUnsigned(head[5..], UsizeLimit)
  }

  /** A line `Game <n>: ...` has id `n`. */
  lemma GameIdOf(n: nat, rest: string)
    requires n < UsizeLimit
    ensures GameId("Game " + Decimal(n) + ":" + rest) == Ok(n)
  {
    var head := "Game " + Decimal(n);
    assert Avoids(head, ":");
    IndexOfAfter(head, ":", rest);
    SplitFound(head + ":" + rest, ":", |head|);
    assert (head + ":" + rest)[..|head|] == head;
    assert head[5..] == Decimal(n);
    ParseDecimal(n, UsizeLimit);
  }

  /** A prefix shorter than five characters panics. */
  lemma ShortHeadPanics(line: string)
    requires |Split(line, ":")[0]| < 5
    ensures GameId(line) == Panic
  {
  }

  datatype Game = Game(id: nat, draws: seq<Draw>)

  predicate Fits(d: Draw)
  {
    d.r <= 12 && d.g <= 13 && d.b <= 14
  }

  /** Every draw fits in the bag. */
  function Possible(draws: seq<Draw>): (b: bool)
    ensures b <==> forall i :: 0 <= i < |draws| ==> Fits(draws[i])
  {
    if draws == [] then true
    else Fits(draws[|draws| - 1]) && Possible(draws[..|draws| - 1])
  }

  /** The sum of the ids of the possible games. */
  function Solution(games: seq<Game>): (r: nat)
    ensures r <= SumIds(games)
  {
    if games == [] then 0
    else
      var g := games[|games| - 1];
      Solution(games[..|games| - 1]) + (if Possible(g.draws) then g.id else 0)
  }

  /** The sum of all ids. */
  function SumIds(games: seq<Game>): nat
  {
    if games == [] then 0 else SumIds(games[..|games| - 1]) + games[|games| - 1].id
  }

  /** The answer adds up over consecutive stretches of games. */
  lemma {:induction false} SolutionAppend(a: seq<Game>, b: seq<Game>)
    ensures Solution(a + b) == Solution(a) + Solution(b)
  {
    if b != [] {
      assert (a + b)[..|a + b| - 1] == a + b[..|b| - 1];
      SolutionAppend(a, b[..|b| - 1]);
    } else {
      assert a + b == a;
    }
  }

  /** A game that is not possible adds nothing; a possible one adds its
      id. */
  lemma SolutionOne(g: Game)
    ensures Solution([g]) == if Possible(g.draws) then g.id else 0
  {
    assert [g][..0] == [];
  }

  /** Exactly the sum of all ids when every game is possible. */
  lemma {:induction false} SolutionAtMostIds(games: seq<Game>)
    ensures (forall i :: 0 <= i < |games| ==> Possible(games[i].draws)) ==> Solution(games) == SumIds(games)
  {
    if games != [] {
      SolutionAtMostIds(games[..|games| - 1]);
    }
  }

  /** A game with a positive id that is not possible makes the answer
      smaller than the sum of all ids. */
  lemma {:induction false} ImpossibleCostsItsId(games: seq<Game>, i: nat)
    requires i < |games| && games[i].id > 0 && !Possible(games[i].draws)
    ensures Solution(games) < SumIds(games)
  {
    var init := games[..|games| - 1];
    SolutionAtMostIds(init);
    if i < |init| {
      assert init[i] == games[i];
      ImpossibleCostsItsId(init, i);
    }
  }
}
