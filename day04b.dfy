/** Day 4, part two: a card with n matches wins one copy of each of the next
    n cards, for every copy of it one holds; the answer is the number of
    cards one ends up with. */
module Day04b {
  import opened Common
  import opened Day04a

  /** The copies card `k` ends with, given every card's number of matches:
      its original plus what the earlier cards gave it. */
  function Copies(wins: seq<nat>, k: nat): (c: nat)
    requires k < |wins|
    decreases k, 1
  {
    1 + Gained(wins, k, k)
  }

  /** What cards 0 .. c-1 gave card `k`: card j gives one copy per copy of
      its own when j < k <= j + wins[j]. */
  function Gained(wins: seq<nat>, c: nat, k: nat): nat
    requires c <= |wins| && k < |wins|
    decreases c, 0
  {
    if c == 0 then 0
    else Gained(wins, c - 1, k) + (if c - 1 < k <= c - 1 + wins[c - 1] then Copies(wins, c - 1) else 0)
  }

  /** Cards at or after `k` give it nothing, so its count is final once
      every earlier card is processed. */
  lemma {:induction false} GainedSettled(wins: seq<nat>, c: nat, k: nat)
    requires k <= c <= |wins| && k < |wins|
    ensures Gained(wins, c, k) == Gained(wins, k, k)
    decreases c
  {
    if c > k {
      GainedSettled(wins, c - 1, k);
    }
  }

  /** Processing more cards never takes copies away. */
  lemma {:induction false} GainedGrows(wins: seq<nat>, c: nat, c': nat, k: nat)
    requires c <= c' <= |wins| && k < |wins|
    ensures Gained(wins, c, k) <= Gained(wins, c', k)
    decreases c'
  {
    if c < c' {
      GainedGrows(wins, c, c' - 1, k);
    }
  }

  /** Nothing precedes the first card, so it keeps its single copy. */
  lemma FirstCardOnce(wins: seq<nat>)
    requires |wins| > 0
    ensures Copies(wins, 0) == 1
  {
  }

  /** The copies of cards 0 .. n-1. */
  function CopiesUpTo(wins: seq<nat>, n: nat): nat
    requires n <= |wins|
  {
    if n == 0 then 0 else CopiesUpTo(wins, n - 1) + Copies(wins, n - 1)
  }

  /** The total of all cards. */
  function Total(wins: seq<nat>): nat
  {
    CopiesUpTo(wins, |wins|)
  }

  /** Every card is held at least once, so one ends with at least as many
      cards as there are. */
  lemma {:induction false} TotalAtLeastCards(wins: seq<nat>, n: nat)
    requires n <= |wins|
    ensures CopiesUpTo(wins, n) >= n
  {
    if n > 0 {
      TotalAtLeastCards(wins, n - 1);
    }
  }

  /** With no match anywhere, every card is held exactly once. */
  lemma {:induction false} NoWinsNoCopies(wins: seq<nat>, c: nat, k: nat)
    requires forall j :: 0 <= j < |wins| ==> wins[j] == 0
    requires c <= |wins| && k < |wins|
    ensures Gained(wins, c, k) == 0
  {
    if c > 0 {
      NoWinsNoCopies(wins, c - 1, k);
    }
  }

  /** The numbers of matches of the cards, the first components of the
      `cards` vector. */
  function WinsOf(cards: seq<Card>): (wins: seq<nat>)
    ensures |wins| == |cards| && forall i :: 0 <= i < |cards| ==> wins[i] == NumWon(cards[i])
  {
    if cards == [] then [] else WinsOf(cards[..|cards| - 1]) + [NumWon(cards[|cards| - 1])]
  }

  /** Rust's `solution`: a vector of (matches, copies) starting at one copy
      each, the propagation loop, and the sum of the copies. */
  method Solution(cards: seq<Card>) returns (total: nat)
    ensures total == Total(WinsOf(cards))
  {
    ghost var wins := WinsOf(cards);
    var table := new (nat, nat)[|cards|](i requires 0 <= i < |cards| => (NumWon(cards[i]), 1));
    Propagate(table, wins);
    total := SumCopies(table, wins);
  }

  /** The loop over the cards in order; every card ends with its final
      count. */
  method Propagate(table: array<(nat, nat)>, ghost wins: seq<nat>)
    modifies table
    requires table.Length == |wins|
    requires forall k :: 0 <= k < table.Length ==> table[k] == (wins[k], 1)
    ensures forall k :: 0 <= k < table.Length ==> table[k] == (wins[k], Copies(wins, k))
  {
    for card := 0 to table.Length
      invariant forall k :: 0 <= k < table.Length ==> table[k] == (wins[k], 1 + Gained(wins, card, k))
    {
      AddCopies(table, card, wins);
    }
    AllSettled(wins);
  }

  lemma AllSettled(wins: seq<nat>)
    ensures forall k :: 0 <= k < |wins| ==> 1 + Gained(wins, |wins|, k) == Copies(wins, k)
  {
    forall k | 0 <= k < |wins|
      ensures Gained(wins, |wins|, k) == Gained(wins, k, k)
    {
      GainedSettled(wins, |wins|, k);
    }
  }

  /** The `sum` of the copy counts. */
  method SumCopies(table: array<(nat, nat)>, ghost wins: seq<nat>) returns (total: nat)
    requires table.Length == |wins|
    requires forall k :: 0 <= k < table.Length ==> table[k] == (wins[k], Copies(wins, k))
    ensures total == Total(wins)
  {
    total := 0;
    for k := 0 to table.Length
      invariant total == CopiesUpTo(wins, k)
    {
      total := total + table[k].1;
    }
  }

  /** One round of the propagation loop: card `card`, whose count is final,
      adds its copies to each of the next `num_won` cards that exist. */
  method AddCopies(table: array<(nat, nat)>, card: nat, ghost wins: seq<nat>)
    modifies table
    requires card < table.Length == |wins|
    requires forall k :: 0 <= k < table.Length ==> table[k] == (wins[k], 1 + Gained(wins, card, k))
    ensures forall k :: 0 <= k < table.Length ==> table[k] == (wins[k], 1 + Gained(wins, card + 1, k))
  {
    var (num_won, this_num_copies) := table[card];
    assert this_num_copies == Copies(wins, card);
    if num_won > 0 {
      for i := 1 to num_won + 1
        invariant forall k :: 0 <= k < table.Length ==>
          table[k] == (wins[k], 1 + Gained(wins, card, k) + (if card < k < card + i then this_num_copies else 0))
      {
        if card + i < table.Length {
          table[card + i] := (table[card + i].0, table[card + i].1 + this_num_copies);
        }
      }
    }
  }
}
