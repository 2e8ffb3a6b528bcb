/** Day 8, part one: a network of nodes, each with a left and a right
    successor, and a line of L/R instructions that is repeated forever. The
    walk starts at AAA and follows the instructions until it stands on ZZZ;
    the answer is the number of moves. */
module Day08a {
  import opened Common

  /** One node line `AAA = (BBB, CCC)`, already split by the pattern. */
  datatype Record = Record(name: string, left: string, right: string)

  /** The node table: each name with its left and right successors. */
  type Nodes = map<string, (string, string)>

  /** `collect()` into a `HashMap`: a later line for the same name replaces
      an earlier one. */
  function NodeMap(records: seq<Record>): (nodes: Nodes)
    ensures forall n :: n in nodes <==> exists i :: 0 <= i < |records| && records[i].name == n
  {
    if records == [] then map[]
    else
      var last := records[|records| - 1];
      var init := NodeMap(records[..|records| - 1]);
      assert forall i :: 0 <= i < |records| - 1 ==> records[..|records| - 1][i] == records[i];
      init[last.name := (last.left, last.right)]
  }

  /** The entry of a name is that of its last line. */
  lemma {:induction false} NodeMapLastWins(records: seq<Record>, i: nat)
    requires i < |records| && forall j :: i < j < |records| ==> records[j].name != records[i].name
    ensures NodeMap(records)[records[i].name] == (records[i].left, records[i].right)
  {
    if i < |records| - 1 {
      var init := records[..|records| - 1];
      assert init[i] == records[i];
      NodeMapLastWins(init, i);
    }
  }

  /** Where the walk stops: a fixed node, or any node whose name ends in a
      given letter. */
  datatype Goal = Node(name: string) | Suffix(letter: char)

  predicate AtGoal(goal: Goal, node: string)
  {
    match goal
    case Node(name) => node == name
    case Suffix(letter) => |node| > 0 && node[|node| - 1] == letter
  }

  /** Move number k (counting from 0) from `node`: the node is looked up
      (a missing node panics), then instruction k mod len is read (with no
      instructions the cycle ends at once and panics) and L picks the left
      and R the right successor; any other letter is unreachable and
      panics. */
  function Move(nodes: Nodes, instructions: string, node: string, k: nat): Result<string>
  {
    if node !in nodes || |instructions| == 0 then Panic
    else
      match instructions[k % |instructions|]
      case 'L' => Ok(nodes[node].0)
      case 'R' => Ok(nodes[node].1)
      case _ => Panic
  }

  /** The node after k moves from `start`, ignoring any goal. */
  function Position(nodes: Nodes, instructions: string, start: string, k: nat): Result<string>
  {
    if k == 0 then Ok(start)
    else
      match Position(nodes, instructions, start, k - 1)
      case Ok(node) => Move(nodes, instructions, node, k - 1)
      case Panic => Panic
  }

  /** The walk ends after exactly k moves: the goal is reached then and at
      no earlier point. */
  predicate StopsAt(nodes: Nodes, instructions: string, start: string, goal: Goal, k: nat)
  {
    && Position(nodes, instructions, start, k).Ok?
    && AtGoal(goal, Position(nodes, instructions, start, k).value)
    && forall j :: 0 <= j < k ==> Position(nodes, instructions, start, j).Ok? && !AtGoal(goal, Position(nodes, instructions, start, j).value)
  }

  /** The walk panics at move k, before reaching the goal. */
  predicate PanicsAt(nodes: Nodes, instructions: string, start: string, goal: Goal, k: nat)
  {
    && Position(nodes, instructions, start, k).Panic?
    && forall j :: 0 <= j < k ==> Position(nodes, instructions, start, j).Ok? && !AtGoal(goal, Position(nodes, instructions, start, j).value)
  }

  /** Within `bound` moves the walk either reaches the goal or panics; the
      walk of the program has no other way to end. */
  predicate Halts(nodes: Nodes, instructions: string, start: string, goal: Goal, bound: nat)
  {
    exists k :: 0 <= k <= bound && (Position(nodes, instructions, start, k).Panic? ||
      (Position(nodes, instructions, start, k).Ok? && AtGoal(goal, Position(nodes, instructions, start, k).value)))
  }

  /** A walk ends in one way only: at most one stopping point, and never
      both a stop and a panic. */
  lemma StopsOnce(nodes: Nodes, instructions: string, start: string, goal: Goal, k: nat, k': nat)
    requires StopsAt(nodes, instructions, start, goal, k)
    ensures StopsAt(nodes, instructions, start, goal, k') ==> k == k'
    ensures !PanicsAt(nodes, instructions, start, goal, k')
  {
  }

  /** Once the walk has panicked it stays panicked. */
  lemma {:induction false} PanicSticks(nodes: Nodes, instructions: string, start: string, k: nat, k': nat)
    requires k <= k' && Position(nodes, instructions, start, k).Panic?
    ensures Position(nodes, instructions, start, k').Panic?
    decreases k' - k
  {
    if k < k' {
      PanicSticks(nodes, instructions, start, k, k' - 1);
    }
  }

  /** The walk is determined by the node and the place in the instruction
      cycle: two points with the same node and the same place are followed
      by the same nodes. */
  lemma {:induction false} CycleRepeats(nodes: Nodes, instructions: string, start: string, a: nat, b: nat, t: nat)
    requires |instructions| > 0 && a % |instructions| == b % |instructions|
    requires Position(nodes, instructions, start, a) == Position(nodes, instructions, start, b)
    ensures Position(nodes, instructions, start, a + t) == Position(nodes, instructions, start, b + t)
  {
    if t > 0 {
      CycleRepeats(nodes, instructions, start, a, b, t - 1);
      SamePlace(|instructions|, a, b, t - 1);
    }
  }

  lemma SamePlace(n: nat, a: nat, b: nat, t: nat)
    requires n > 0 && a % n == b % n
    ensures (a + t) % n == (b + t) % n
  {
    var qa, qb := a / n, b / n;
    assert a == qa * n + a % n && b == qb * n + b % n;
    var r := (a % n + t) % n;
    var s := (a % n + t) / n;
    assert a % n + t == s * n + r;
    assert a + t == (qa + s) * n + r;
    assert b + t == (qb + s) * n + r;
    DivModUnique(a + t, n, qa + s, r);
    DivModUnique(b + t, n, qb + s, r);
  }

  /** The `while` loop of `solution`, from `start` until the goal; the
      cycle iterator is the index `cursor` into the instructions. The loop
      need not end, so the caller names a bound within which it does. */
  method Walk(nodes: Nodes, instructions: string, start: string, goal: Goal, ghost bound: nat) returns (r: Result<nat>)
    requires Halts(nodes, instructions, start, goal, bound)
    ensures r.Ok? ==> r.value <= bound && StopsAt(nodes, instructions, start, goal, r.value)
    ensures r.Panic? ==> exists k: nat :: PanicsAt(nodes, instructions, start, goal, k)
  {
    var current := start;
    var steps := 0;
    var cursor := 0;
    ghost var k :| 0 <= k <= bound && (Position(nodes, instructions, start, k).Panic? ||
      (Position(nodes, instructions, start, k).Ok? && AtGoal(goal, Position(nodes, instructions, start, k).value)));
    while !AtGoal(goal, current)
      invariant Position(nodes, instructions, start, steps) == Ok(current)
      invariant forall j :: 0 <= j < steps ==> Position(nodes, instructions, start, j).Ok? && !AtGoal(goal, Position(nodes, instructions, start, j).value)
      invariant |instructions| > 0 ==> cursor == steps % |instructions|
      invariant steps <= k
      decreases k - steps
    {
      if current !in nodes {
        assert PanicsAt(nodes, instructions, start, goal, steps + 1);
        return Panic;
      }
      var next := nodes[current];
      steps := steps + 1;
      if |instructions| == 0 {
        assert PanicsAt(nodes, instructions, start, goal, steps);
        return Panic;
      }
      var c := instructions[cursor];
      cursor := if cursor + 1 == |instructions| then 0 else cursor + 1;
      NextPlace(|instructions|, steps - 1, cursor);
      if c == 'L' {
        current := next.0;
      } else if c == 'R' {
        current := next.1;
      } else {
        assert PanicsAt(nodes, instructions, start, goal, steps);
        return Panic;
      }
    }
    r := Ok(steps);
  }

  lemma NextPlace(n: nat, s: nat, cursor: nat)
    requires n > 0 && cursor == if s % n + 1 == n then 0 else s % n + 1
    ensures cursor == (s + 1) % n
  {
    var q := s / n;
    assert s == q * n + s % n;
    if s % n + 1 == n {
      DivModUnique(s + 1, n, q + 1, 0);
    } else {
      DivModUnique(s + 1, n, q, s % n + 1);
    }
  }

  /** Rust's `solution` on the instruction line and the node lines. */
  method Solution(instructions: string, records: seq<Record>, ghost bound: nat) returns (r: Result<nat>)
    requires Halts(NodeMap(records), instructions, "AAA", Node("ZZZ"), bound)
    ensures r.Ok? ==> StopsAt(NodeMap(records), instructions, "AAA", Node("ZZZ"), r.value)
    ensures r.Panic? ==> exists k: nat :: PanicsAt(NodeMap(records), instructions, "AAA", Node("ZZZ"), k)
  {
    r := Walk(NodeMap(records), instructions, "AAA", Node("ZZZ"), bound);
  }

  /** The puzzle's second example: with instructions LLR, AAA = (BBB, BBB),
      BBB = (AAA, ZZZ) and ZZZ = (ZZZ, ZZZ), the walk takes six moves. */
  const ExampleNodes: Nodes := map["AAA" := ("BBB", "BBB"), "BBB" := ("AAA", "ZZZ"), "ZZZ" := ("ZZZ", "ZZZ")]

  lemma ExampleSteps()
    ensures StopsAt(ExampleNodes, "LLR", "AAA", Node("ZZZ"), 6)
  {
    assert Position(ExampleNodes, "LLR", "AAA", 1) == Ok("BBB");
    assert Position(ExampleNodes, "LLR", "AAA", 2) == Ok("AAA");
    assert Position(ExampleNodes, "LLR", "AAA", 3) == Ok("BBB");
    assert Position(ExampleNodes, "LLR", "AAA", 4) == Ok("AAA");
    assert Position(ExampleNodes, "LLR", "AAA", 5) == Ok("BBB");
    assert Position(ExampleNodes, "LLR", "AAA", 6) == Ok("ZZZ");
  }
}
