/** Day 15, part one: the HASH of each comma-separated step of the
    initialization sequence, and their sum. Text is ASCII, so a character's
    code is the byte `as_bytes` yields for it. */
module Day15a {
  import opened Common

  /** One step of the fold: add the byte, times 17, modulo 256. */
  function Mix(h: nat, c: char): (r: nat)
    ensures r < 256
  {
    ((h + c as int) * 17) % 256
  }

  /** `fold(0, …)` over the bytes, from a given start value. */
  function Fold(h: nat, s: string): nat
    decreases |s|
  {
    if s == [] then h else Fold(Mix(h, s[0]), s[1..])
  }

  /** The HASH algorithm: always in 0..=255, and 0 for the empty string. */
  function Hash(s: string): (r: nat)
    ensures r < 256
    ensures s == [] ==> r == 0
  {
    FoldBelow(0, s);
    Fold(0, s)
  }

  /** Folding over two pieces is folding over the second from where the
      first ended. */
  lemma {:induction false} FoldAppend(h: nat, a: string, b: string)
    ensures Fold(h, a + b) == Fold(Fold(h, a), b)
    decreases |a|
  {
    if a != [] {
      assert (a + b)[0] == a[0] && (a + b)[1..] == a[1..] + b;
      FoldAppend(Mix(h, a[0]), a[1..], b);
    } else {
      assert a + b == b;
    }
  }

  /** The hash of a string one character longer. */
  lemma HashSnoc(s: string, c: char)
    ensures Hash(s + [c]) == Mix(Hash(s), c)
  {
    FoldAppend(0, s, [c]);
  }

  /** Every value of the fold from a byte value is a byte value. */
  lemma {:induction false} FoldBelow(h: nat, s: string)
    requires h < 256
    ensures Fold(h, s) < 256
    decreases |s|
  {
    if s != [] {
      FoldBelow(Mix(h, s[0]), s[1..]);
    }
  }

  /** The hash of the puzzle statement's own example. */
  lemma HashExample()
    ensures Hash("HASH") == 52
  {
    assert Mix(0, 'H') == 200 && Mix(200, 'A') == 153 && Mix(153, 'S') == 172 && Mix(172, 'H') == 52;
    assert "HASH"[1..] == "ASH" && "ASH"[1..] == "SH" && "SH"[1..] == "H" && "H"[1..] == "";
  }

  function Hashes(steps: seq<string>): (r: seq<nat>)
    ensures |r| == |steps| && forall i :: 0 <= i < |steps| ==> r[i] == Hash(steps[i]) && r[i] < 256
  {
    seq(|steps|, i requires 0 <= i < |steps| => Hash(steps[i]))
  }

  /** Rust's `solution`: the sum of the hashes of the comma-separated
      steps. */
  function Solution(input: string): (r: nat)
    ensures r <= 255 * |Split(input, ",")|
  {
    SumNonNegative(Hashes(Split(input, ",")));
    SumBelow(Hashes(Split(input, ",")), 256);
    Sum(Hashes(Split(input, ",")))
  }

  lemma {:induction false} SumBelow(s: seq<nat>, bound: nat)
    requires forall i :: 0 <= i < |s| ==> s[i] < bound
    ensures Sum(s) <= |s| * (bound - 1)
  {
    if s != [] {
      SumBelow(s[1..], bound);
      SumAppend([s[0]], s[1..]);
      assert [s[0]] + s[1..] == s;
    }
  }

  /** The steps of a sequence glued with a comma are the steps of each
      part, so the result adds up. */
  lemma SolutionAppend(a: string, b: string)
    ensures Solution(a + "," + b) == Solution(a) + Solution(b)
  {
    SplitAppend(a, ',', b);
    var x, y := Split(a, ","), Split(b, ",");
    assert Hashes(x + y) == Hashes(x) + Hashes(y);
    SumAppend(Hashes(x), Hashes(y));
  }

  /** A text without a comma is a single step. */
  lemma SolutionSingle(s: string)
    requires Avoids(s, ",")
    ensures Solution(s) == Hash(s)
  {
    NotFoundIn(s, ",");
    assert Split(s, ",") == [s];
    assert Hashes([s]) == [Hash(s)];
    assert Sum([Hash(s)]) == Hash(s) + Sum([]);
  }

  /** The HASH of a string of three or four characters, given the value
      after each character. */
  lemma HashOfFour(a: char, b: char, c: char, d: char, h1: nat, h2: nat, h3: nat, h4: nat)
    requires Mix(0, a) == h1 && Mix(h1, b) == h2 && Mix(h2, c) == h3 && Mix(h3, d) == h4
    ensures Hash([a, b, c]) == h3 && Hash([a, b, c, d]) == h4
  {
    assert Fold(h3, [d]) == h4 by { assert [d][1..] == []; }
    assert Fold(h2, [c]) == h3 by { assert [c][1..] == []; }
    assert Fold(h2, [c, d]) == h4 by { assert [c, d][1..] == [d]; }
    assert Fold(h1, [b, c]) == h3 by { assert [b, c][1..] == [c]; }
    assert Fold(h1, [b, c, d]) == h4 by { assert [b, c, d][1..] == [c, d]; }
    assert [a, b, c][1..] == [b, c] && [a, b, c, d][1..] == [b, c, d];
  }

  /** Each step of the puzzle statement's example, hashed ... */
  lemma ExampleStepHashes()
    ensures Hash("rn=1") == 30
    ensures Hash("cm-") == 253
    ensures Hash("qp=3") == 97
    ensures Hash("cm=2") == 47
    ensures Hash("qp-") == 14
    ensures Hash("pc=4") == 180
    ensures Hash("ot=9") == 9
    ensures Hash("ab=5") == 197
    ensures Hash("pc-") == 48
    ensures Hash("pc=6") == 214
    ensures Hash("ot=7") == 231
  {
    HashOfFour('r', 'n', '=', '1', 146, 0, 13, 30);
    HashOfFour('c', 'm', '-', '-', 147, 0, 253, 202);
    HashOfFour('q', 'p', '=', '3', 129, 1, 30, 97);
    HashOfFour('c', 'm', '=', '2', 147, 0, 13, 47);
    HashOfFour('q', 'p', '-', '-', 129, 1, 14, 235);
    HashOfFour('p', 'c', '=', '4', 112, 3, 64, 180);
    HashOfFour('o', 't', '=', '9', 95, 3, 64, 9);
    HashOfFour('a', 'b', '=', '5', 113, 3, 64, 197);
    HashOfFour('p', 'c', '-', '-', 112, 3, 48, 45);
    HashOfFour('p', 'c', '=', '6', 112, 3, 64, 214);
    HashOfFour('o', 't', '=', '7', 95, 3, 64, 231);
  }

  /** The steps of the puzzle statement's example. */
  const ExampleSteps: seq<string> := ["rn=1", "cm-", "qp=3", "cm=2", "qp-", "pc=4", "ot=9", "ab=5", "pc-", "pc=6", "ot=7"]

  /** No example step holds a comma. */
  lemma ExampleStepsPlain()
    ensures forall k :: 0 <= k < |ExampleSteps| ==> Avoids(ExampleSteps[k], ",")
  {
    assert Avoids("rn=1", ",");
    assert Avoids("cm-", ",");
    assert Avoids("qp=3", ",");
    assert Avoids("cm=2", ",");
    assert Avoids("qp-", ",");
    assert Avoids("pc=4", ",");
    assert Avoids("ot=9", ",");
    assert Avoids("ab=5", ",");
    assert Avoids("pc-", ",");
    assert Avoids("pc=6", ",");
    assert Avoids("ot=7", ",");
  }

  /** The example's hashes, in order ... */
  lemma ExampleHashes()
    ensures Hashes(ExampleSteps) == [30, 253, 97, 47, 14, 180, 9, 197, 48, 214, 231]
  {
    ExampleStepHashes();
  }

  /** ... add up to 1320 ... */
  lemma ExampleSum()
    ensures Sum([30, 253, 97, 47, 14, 180, 9, 197, 48, 214, 231]) == 1320
  {
    var hs: seq<int> := [30, 253, 97, 47, 14, 180, 9, 197, 48, 214, 231];
    assert Sum(hs[..1]) == 30 by { assert hs[..1][..0] == []; }
    assert Sum(hs[..2]) == 283 by { assert hs[..2][..1] == hs[..1]; }
    assert Sum(hs[..3]) == 380 by { assert hs[..3][..2] == hs[..2]; }
    assert Sum(hs[..4]) == 427 by { assert hs[..4][..3] == hs[..3]; }
    assert Sum(hs[..5]) == 441 by { assert hs[..5][..4] == hs[..4]; }
    assert Sum(hs[..6]) == 621 by { assert hs[..6][..5] == hs[..5]; }
    assert Sum(hs[..7]) == 630 by { assert hs[..7][..6] == hs[..6]; }
    assert Sum(hs[..8]) == 827 by { assert hs[..8][..7] == hs[..7]; }
    assert Sum(hs[..9]) == 875 by { assert hs[..9][..8] == hs[..8]; }
    assert Sum(hs[..10]) == 1089 by { assert hs[..10][..9] == hs[..9]; }
    assert hs[..11][..10] == hs[..10] && hs[..11] == hs;
  }

  /** ... which is the answer for the example, the steps glued with
      commas. */
  lemma ExampleSolution()
    ensures Solution(Join(ExampleSteps, ",")) == 1320
  {
    ExampleStepsPlain();
    SplitJoin(ExampleSteps, ",");
    ExampleHashes();
    ExampleSum();
  }
}
