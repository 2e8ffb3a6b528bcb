/** Day 2, part two: the fewest cubes of each colour a game could have been
    played with are the largest counts drawn, and the answer is the sum of
    the games' powers, the product of those three counts. */
module Day02b {
  import opened Common
  import opened Day02a

  /** Every draw of the game fits within `m`. */
  predicate Within(draws: seq<Draw>, m: Draw)
  {
    forall i :: 0 <= i < |draws| ==> draws[i].r <= m.r && draws[i].g <= m.g && draws[i].b <= m.b
  }

  /** Each count of `m` is shown by some draw. */
  predicate Attained(draws: seq<Draw>, m: Draw)
  {
    && (exists i :: 0 <= i < |draws| && draws[i].r == m.r)
    && (exists i :: 0 <= i < |draws| && draws[i].g == m.g)
    && (exists i :: 0 <= i < |draws| && draws[i].b == m.b)
  }

  /** The per-colour maxima; `max().unwrap()` panics on a game without
      draws. */
  function Minimum(draws: seq<Draw>): (r: Result<Draw>)
    ensures r.Panic? <==> draws == []
    ensures r.Ok? ==> Within(draws, r.value) && Attained(draws, r.value)
  {
    if |draws| == 0 then Panic
    else if |draws| == 1 then Ok(draws[0])
    else
      var m := Minimum(draws[..|draws| - 1]).value;
      var d := draws[|draws| - 1];
      var r := Ok(Draw(if d.r >= m.r then d.r else m.r, if d.g >= m.g then d.g else m.g, if d.b >= m.b then d.b else m.b));
      assert forall i :: 0 <= i < |draws| - 1 ==> draws[..|draws| - 1][i] == draws[i];
      r
  }

  /** The minima are the least counts that hold every draw. */
  lemma MinimumIsLeast(draws: seq<Draw>, m: Draw)
    requires Minimum(draws).Ok? && Within(draws, m)
    ensures Minimum(draws).value.r <= m.r && Minimum(draws).value.g <= m.g && Minimum(draws).value.b <= m.b
  {
  }

  /** A game played with fewer cubes of some colour than the minimum would
      have had a draw that does not fit. */
  lemma BelowMinimumFails(draws: seq<Draw>, m: Draw)
    requires Minimum(draws).Ok?
    requires m.r < Minimum(draws).value.r || m.g < Minimum(draws).value.g || m.b < Minimum(draws).value.b
    ensures !Within(draws, m)
  {
  }

  function Power(m: Draw): nat
  {
    m.r * m.g * m.b
  }

  /** A colour that no draw shows makes the power 0. */
  lemma AbsentColourPowerZero(draws: seq<Draw>)
    requires Minimum(draws).Ok?
    requires (forall i :: 0 <= i < |draws| ==> draws[i].r == 0)
          || (forall i :: 0 <= i < |draws| ==> draws[i].g == 0)
          || (forall i :: 0 <= i < |draws| ==> draws[i].b == 0)
    ensures Power(Minimum(draws).value) == 0
  {
    var m := Minimum(draws).value;
    var i :| 0 <= i < |draws| && draws[i].r == m.r;
    var j :| 0 <= j < |draws| && draws[j].g == m.g;
    var k :| 0 <= k < |draws| && draws[k].b == m.b;
    assert m.r == 0 || m.g == 0 || m.b == 0;
    ZeroFactor(m.r, m.g, m.b);
  }

  lemma ZeroFactor(x: nat, y: nat, z: nat)
    requires x == 0 || y == 0 || z == 0
    ensures x * y * z == 0
  {
    if x == 0 {
    } else if y == 0 {
    } else {
    }
  }

  /** A game's minimum is within the bag of part one exactly when the game
      is possible. */
  lemma MinimumFitsIffPossible(draws: seq<Draw>)
    requires Minimum(draws).Ok?
    ensures Fits(Minimum(draws).value) <==> Possible(draws)
  {
    var m := Minimum(draws).value;
    if Possible(draws) {
      var i :| 0 <= i < |draws| && draws[i].r == m.r;
      var j :| 0 <= j < |draws| && draws[j].g == m.g;
      var k :| 0 <= k < |draws| && draws[k].b == m.b;
      assert Fits(draws[i]) && Fits(draws[j]) && Fits(draws[k]);
    }
  }

  /** The sum of the powers of the games' minima, or a panic when a game
      has no draw. */
  function Solution(games: seq<seq<Draw>>): (r: Result<nat>)
    ensures r.Panic? <==> exists i :: 0 <= i < |games| && games[i] == []
  {
    if games == [] then Ok(0)
    else
      var init := games[..|games| - 1];
      assert forall i :: 0 <= i < |init| ==> init[i] == games[i];
      match (Solution(init), Minimum(games[|games| - 1]))
      case (Ok(total), Ok(m)) => Ok(total + Power(m))
      case _ => Panic
  }

  /** The answer adds up over consecutive stretches of games. */
  lemma {:induction false} SolutionAppend(a: seq<seq<Draw>>, b: seq<seq<Draw>>)
    requires Solution(a).Ok? && Solution(b).Ok?
    ensures Solution(a + b) == Ok(Solution(a).value + Solution(b).value)
  {
    if b == [] {
      assert a + b == a;
    } else {
      var b' := b[..|b| - 1];
      assert (a + b)[..|a + b| - 1] == a + b';
      assert (a + b)[|a + b| - 1] == b[|b| - 1];
      SolutionAppend(a, b');
    }
  }
}
