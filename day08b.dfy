/** Day 8, part two: a walk starts at every node whose name ends in A and
    stops at the first node whose name ends in Z. Each walk is run on its
    own, from the start of the instructions, and the answer is the least
    common multiple of their step counts. */
module Day08b {
  import opened Common
  import opened Day08a

  /** `keys().filter(|key| key.ends_with('A'))`. */
  function Starts(nodes: Nodes): (starts: set<string>)
    ensures forall n :: n in starts <==> n in nodes && AtGoal(Suffix('A'), n)
  {
    set n | n in nodes && AtGoal(Suffix('A'), n)
  }

  /** The step counts of the walks from `starts`, each found within
      `bound` moves. */
  ghost function StepCounts(nodes: Nodes, instructions: string, starts: set<string>, bound: nat): set<nat>
  {
    set s, k | s in starts && 0 <= k <= bound && StopsAt(nodes, instructions, s, Suffix('Z'), k) :: k
  }

  /** A start ends in A, so it is never itself a Z node: each walk takes
      at least one move. */
  lemma StartsMove(nodes: Nodes, instructions: string, s: string, k: nat)
    requires s in Starts(nodes) && StopsAt(nodes, instructions, s, Suffix('Z'), k)
    ensures k > 0
  {
  }

  /** Adding a walk that stops after c moves adds c to the step counts. */
  lemma CountsGrow(nodes: Nodes, instructions: string, done: set<string>, s: string, c: nat, bound: nat)
    requires c <= bound && StopsAt(nodes, instructions, s, Suffix('Z'), c)
    ensures StepCounts(nodes, instructions, done + {s}, bound) == StepCounts(nodes, instructions, done, bound) + {c}
  {
    forall k | 0 <= k <= bound && StopsAt(nodes, instructions, s, Suffix('Z'), k)
      ensures k == c
    {
      StopsOnce(nodes, instructions, s, Suffix('Z'), c, k);
    }
  }

  /** The `for` loop over the starts, in the table's key order (any order:
      the answer does not depend on it), with the inner walk of each and
      the running lcm. */
  method Solution(instructions: string, records: seq<Record>, ghost bound: nat) returns (r: Result<nat>)
    requires forall s :: s in Starts(NodeMap(records)) ==> Halts(NodeMap(records), instructions, s, Suffix('Z'), bound)
    ensures r.Panic? ==> exists s, k: nat :: s in Starts(NodeMap(records)) && PanicsAt(NodeMap(records), instructions, s, Suffix('Z'), k)
    ensures r.Ok? ==> !exists s, k: nat :: s in Starts(NodeMap(records)) && PanicsAt(NodeMap(records), instructions, s, Suffix('Z'), k)
    ensures r.Ok? ==> forall s :: s in Starts(NodeMap(records)) ==> exists k: nat :: k <= bound && StopsAt(NodeMap(records), instructions, s, Suffix('Z'), k)
    ensures r.Ok? ==> IsLcmOf(r.value, StepCounts(NodeMap(records), instructions, Starts(NodeMap(records)), bound))
  {
    var nodes := NodeMap(records);
    var current_nodes := Starts(nodes);
    ghost var done: set<string> := {};
    var lcm: nat := 1;
    LcmOfNone();
    while current_nodes != {}
      invariant current_nodes + done == Starts(nodes) && current_nodes !! done
      invariant forall s :: s in done ==> exists k: nat :: k <= bound && StopsAt(nodes, instructions, s, Suffix('Z'), k)
      invariant IsLcmOf(lcm, StepCounts(nodes, instructions, done, bound))
      decreases current_nodes
    {
      var node :| node in current_nodes;
      var num_steps := Walk(nodes, instructions, node, Suffix('Z'), bound);
      if num_steps.Panic? {
        ghost var k: nat :| PanicsAt(nodes, instructions, node, Suffix('Z'), k);
        assert node in Starts(nodes);
        return Panic;
      }
      StartsMove(nodes, instructions, node, num_steps.value);
      CountsGrow(nodes, instructions, done, node, num_steps.value, bound);
      LcmFoldStep(lcm, StepCounts(nodes, instructions, done, bound), num_steps.value);
      lcm := Lcm(lcm, num_steps.value);
      current_nodes := current_nodes - {node};
      done := done + {node};
    }
    r := Ok(lcm);
    NoPanic(nodes, instructions, Starts(nodes), bound);
  }

  /** When every walk stops, none panics. */
  lemma NoPanic(nodes: Nodes, instructions: string, starts: set<string>, bound: nat)
    requires forall s :: s in starts ==> exists k: nat :: k <= bound && StopsAt(nodes, instructions, s, Suffix('Z'), k)
    ensures !exists s, k: nat :: s in starts && PanicsAt(nodes, instructions, s, Suffix('Z'), k)
  {
    forall s, k': nat | s in starts
      ensures !PanicsAt(nodes, instructions, s, Suffix('Z'), k')
    {
      var k: nat :| k <= bound && StopsAt(nodes, instructions, s, Suffix('Z'), k);
      StopsOnce(nodes, instructions, s, Suffix('Z'), k, k');
    }
  }

  /** The puzzle's example: instructions LR; from 11A the walk reaches 11Z
      after 2 moves, from 22A it reaches 22Z after 3, so the answer is 6. */
  const ExampleNodes: Nodes := map[
    "11A" := ("11B", "XXX"), "11B" := ("XXX", "11Z"), "11Z" := ("11B", "XXX"),
    "22A" := ("22B", "XXX"), "22B" := ("22C", "22C"), "22C" := ("22Z", "22Z"),
    "22Z" := ("22B", "22B"), "XXX" := ("XXX", "XXX")]

  lemma ExampleAnswer(x: nat)
    requires IsLcmOf(x, StepCounts(ExampleNodes, "LR", Starts(ExampleNodes), 3))
    ensures x == 6
  {
    ExampleWalks();
    var counts := StepCounts(ExampleNodes, "LR", Starts(ExampleNodes), 3);
    assert Starts(ExampleNodes) == {"11A", "22A"} by {
      forall n | n in ExampleNodes
        ensures AtGoal(Suffix('A'), n) <==> n == "11A" || n == "22A"
      {
      }
    }
    forall k | 0 <= k <= 3
      ensures StopsAt(ExampleNodes, "LR", "11A", Suffix('Z'), k) <==> k == 2
      ensures StopsAt(ExampleNodes, "LR", "22A", Suffix('Z'), k) <==> k == 3
    {
      StopsOnce(ExampleNodes, "LR", "11A", Suffix('Z'), 2, k);
      StopsOnce(ExampleNodes, "LR", "22A", Suffix('Z'), 3, k);
    }
    assert counts == {2, 3};
    SixIsLcm();
    IsLcmUnique(x, 6, counts);
  }

  lemma ExampleWalks()
    ensures StopsAt(ExampleNodes, "LR", "11A", Suffix('Z'), 2)
    ensures StopsAt(ExampleNodes, "LR", "22A", Suffix('Z'), 3)
  {
    assert Position(ExampleNodes, "LR", "11A", 1) == Ok("11B");
    assert Position(ExampleNodes, "LR", "11A", 2) == Ok("11Z");
    assert Position(ExampleNodes, "LR", "22A", 1) == Ok("22B");
    assert Position(ExampleNodes, "LR", "22A", 2) == Ok("22C");
    assert Position(ExampleNodes, "LR", "22A", 3) == Ok("22Z");
  }

  lemma SixIsLcm()
    ensures IsLcmOf(6, {2, 3})
  {
    forall m: nat | m > 0 && m % 2 == 0 && m % 3 == 0
      ensures m % 6 == 0
    {
      var q, r := m / 6, m % 6;
      assert m == 6 * q + r;
      DivModUnique(m, 2, 3 * q + r / 2, r % 2);
      DivModUnique(m, 3, 2 * q + r / 3, r % 3);
    }
  }
}
