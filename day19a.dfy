/** Day 19, part one: parts rated in four categories (x, m, a, s) are sent
    through named workflows. A workflow is a list of rules tried in order; a
    rule either always fires or compares one rating with a constant, and the
    first rule that fires sends the part to Accept, to Reject or to another
    workflow, which then starts again at its first rule. Evaluation starts at
    the workflow `in`. The answer is the total rating of the accepted parts. */
module Day19a {
  import opened Common

  /** Ratings and rule constants are Rust `u16` values. */
  newtype U16 = x: int | 0 <= x < 0x1_0000

  datatype Op = Gt | Lt

  /** `Op::cmp`: Gt is strictly greater, Lt strictly less. */
  function Cmp(op: Op, lhs: U16, rhs: U16): bool
  {
    match op
    case Gt => lhs > rhs
    case Lt => lhs < rhs
  }

  /** Both comparisons are strict, and each is the other with its operands
      swapped. */
  lemma CmpStrict(op: Op, lhs: U16, rhs: U16)
    ensures !Cmp(op, lhs, lhs)
    ensures Cmp(Gt, lhs, rhs) == Cmp(Lt, rhs, lhs)
    ensures Cmp(op, lhs, rhs) ==> !Cmp(op, rhs, lhs)
  {
  }

  datatype Dest = Accept | Reject | Goto(name: string)

  datatype Rule =
    | Conditional(category: string, op: Op, val: U16, dest: Dest)
    | Unconditional(dest: Dest)

  /** The workflows by name, and a part's rating by category. */
  type Workflows = map<string, seq<Rule>>
  type Part = map<string, U16>

  /** Whether a rule fires for a part; a category the part lacks panics
      (`part[category]`). */
  function Fires(part: Part, rule: Rule): Result<bool>
  {
    match rule
    case Unconditional(_) => Ok(true)
    case Conditional(category, op, val, _) =>
      if category in part then Ok(Cmp(op, part[category], val)) else Panic
  }

  /** One pass of `for rule in flow`: the destination of the first rule
      that fires, None when every rule fails, or a panic met on the way. */
  function Decide(flow: seq<Rule>, part: Part): Result<Option<Dest>>
  {
    if flow == [] then Ok(None)
    else
      match Fires(part, flow[0])
      case Panic => Panic
      case Ok(fired) => if fired then Ok(Some(flow[0].dest)) else Decide(flow[1..], part)
  }

  /** The first-match rule, stated by position: a pass ends at rule k
      exactly when every earlier rule is tried and fails. */
  lemma {:induction false} DecideFirstMatch(flow: seq<Rule>, part: Part)
    ensures (Decide(flow, part) == Ok(None)) <==> forall k :: 0 <= k < |flow| ==> Fires(part, flow[k]) == Ok(false)
    ensures forall d :: (Decide(flow, part) == Ok(Some(d))) <==>
      exists k :: 0 <= k < |flow| && Fires(part, flow[k]) == Ok(true) && flow[k].dest == d && FailBefore(flow, part, k)
    ensures (Decide(flow, part) == Panic) <==>
      exists k :: 0 <= k < |flow| && Fires(part, flow[k]) == Panic && FailBefore(flow, part, k)
  {
    if flow != [] {
      DecideFirstMatch(flow[1..], part);
      assert forall k :: 0 <= k < |flow| - 1 ==> flow[1..][k] == flow[k + 1];
      assert forall k :: 0 < k < |flow| ==> (FailBefore(flow, part, k) <==> Fires(part, flow[0]) == Ok(false) && FailBefore(flow[1..], part, k - 1));
    }
  }

  /** Every rule before position k is tried and fails. */
  predicate FailBefore(flow: seq<Rule>, part: Part, k: nat)
    requires k <= |flow|
  {
    forall j :: 0 <= j < k ==> Fires(part, flow[j]) == Ok(false)
  }

  /** How evaluation ends: with a verdict or a panic, or not at all within
      the passes allowed. */
  datatype Outcome = Finished(result: Result<bool>) | Unfinished

  /** Evaluation from the start of `flow`, allowed `fuel` more passes: a
      pass in which every rule fails runs the same workflow again, and a jump
      to a missing workflow panics. */
  function Evaluate(workflows: Workflows, part: Part, flow: seq<Rule>, fuel: nat): Outcome
    decreases fuel
  {
    if fuel == 0 then Unfinished
    else
      match Decide(flow, part)
      case Panic => Finished(Panic)
      case Ok(None) => Evaluate(workflows, part, flow, fuel - 1)
      case Ok(Some(dest)) =>
        match dest
        case Accept => Finished(Ok(true))
        case Reject => Finished(Ok(false))
        case Goto(name) => if name in workflows then Evaluate(workflows, part, workflows[name], fuel - 1) else Finished(Panic)
  }

  /** `apply_workflows` within `fuel` passes: it starts at `in`, which
      panics when missing. */
  function Apply(workflows: Workflows, part: Part, fuel: nat): Outcome
  {
    if "in" in workflows then Evaluate(workflows, part, workflows["in"], fuel) else Finished(Panic)
  }

  /** The evaluation of the program ends within `bound` passes. */
  predicate Halts(workflows: Workflows, part: Part, bound: nat)
  {
    Apply(workflows, part, bound).Finished?
  }

  /** More passes do not change an evaluation that has ended: the verdict
      does not depend on the bound chosen. */
  lemma {:induction false} EvaluateSettled(workflows: Workflows, part: Part, flow: seq<Rule>, fuel: nat, more: nat)
    requires fuel <= more && Evaluate(workflows, part, flow, fuel).Finished?
    ensures Evaluate(workflows, part, flow, more) == Evaluate(workflows, part, flow, fuel)
    decreases fuel
  {
    match Decide(flow, part)
    case Panic =>
    case Ok(None) =>
      EvaluateSettled(workflows, part, flow, fuel - 1, more - 1);
    case Ok(Some(dest)) =>
      if dest.Goto? && dest.name in workflows {
        EvaluateSettled(workflows, part, workflows[dest.name], fuel - 1, more - 1);
      }
  }

  lemma ApplySettled(workflows: Workflows, part: Part, fuel: nat, more: nat)
    requires fuel <= more && Halts(workflows, part, fuel)
    ensures Apply(workflows, part, more) == Apply(workflows, part, fuel)
  {
    if "in" in workflows {
      EvaluateSettled(workflows, part, workflows["in"], fuel, more);
    }
  }

  /** A workflow whose rules all fail for a part runs again forever: no
      number of passes ends it. */
  lemma {:induction false} AllFailRunsForever(workflows: Workflows, part: Part, flow: seq<Rule>, fuel: nat)
    requires forall k :: 0 <= k < |flow| ==> Fires(part, flow[k]) == Ok(false)
    ensures Evaluate(workflows, part, flow, fuel) == Unfinished
  {
    DecideFirstMatch(flow, part);
    if fuel > 0 {
      AllFailRunsForever(workflows, part, flow, fuel - 1);
    }
  }

  /** Decide on the rules from position i, when the rule there fails. */
  lemma DecideSkip(flow: seq<Rule>, part: Part, i: nat)
    requires i < |flow| && Fires(part, flow[i]) == Ok(false)
    ensures Decide(flow[i..], part) == Decide(flow[i + 1..], part)
  {
    assert flow[i..][1..] == flow[i + 1..];
  }

  /** Rust's `apply_workflows`. The outer `loop` need not end, so the
      caller names a number of passes within which it does. */
  method ApplyWorkflows(workflows: Workflows, part: Part, ghost bound: nat) returns (accepted: Result<bool>)
    requires Halts(workflows, part, bound)
    ensures Apply(workflows, part, bound) == Finished(accepted)
  {
    if "in" !in workflows {
      return Panic;
    }
    var flow := workflows["in"];
    ghost var fuel := bound;
    while true
      invariant Evaluate(workflows, part, flow, fuel) == Apply(workflows, part, bound)
      decreases fuel
    {
      ghost var pass := flow;
      assert fuel > 0;
      var i := 0;
      while i < |flow|
        invariant flow == pass && i <= |pass|
        invariant Decide(pass[i..], part) == Decide(pass, part)
        decreases |pass| - i
      {
        var fired := false;
        match flow[i] {
          case Unconditional(_) =>
            fired := true;
          case Conditional(category, op, val, _) =>
            if category !in part {
              return Panic;
            }
            fired := Cmp(op, part[category], val);
        }
        if fired {
          match flow[i].dest
          case Accept =>
            return Ok(true);
          case Reject =>
            return Ok(false);
          case Goto(f) =>
            if f !in workflows {
              return Panic;
            }
            flow := workflows[f];
            break;
        }
        DecideSkip(pass, part, i);
        i := i + 1;
      }
      fuel := fuel - 1;
    }
  }

  /** A part as `solution` builds it: one entry per category. */
  datatype Ratings = Ratings(x: U16, m: U16, a: U16, s: U16)

  function PartOf(r: Ratings): Part
  {
    map["x" := r.x, "m" := r.m, "a" := r.a, "s" := r.s]
  }

  /** `part.values().fold(...)`: the sum of a part's ratings, in the map's
      own order. */
  ghost function Total(part: Part): int
  {
    SumOver(part.Keys, k => if k in part then part[k] as int else 0)
  }

  /** The four ratings of a part, whatever order the map yields them in. */
  lemma TotalOfRatings(r: Ratings)
    ensures Total(PartOf(r)) == r.x as int + r.m as int + r.a as int + r.s as int
  {
    var p := PartOf(r);
    var f := k => if k in p then p[k] as int else 0;
    var keys := {"x", "m", "a", "s"};
    assert p.Keys == keys;
    SumOverRemove(keys, f, "x");
    SumOverRemove(keys - {"x"}, f, "m");
    SumOverRemove(keys - {"x"} - {"m"}, f, "a");
    SumOverRemove(keys - {"x"} - {"m"} - {"a"}, f, "s");
    assert keys - {"x"} - {"m"} - {"a"} - {"s"} == {};
  }

  /** One part's contribution: its total when accepted, otherwise 0. */
  ghost function Rated(workflows: Workflows, r: Ratings, bound: nat): int
  {
    if Apply(workflows, PartOf(r), bound) == Finished(Ok(true)) then Total(PartOf(r)) else 0
  }

  /** Rust's `parts.filter(...).map(...).sum()`, over parts already
      matched by the pattern. Every part must be decided within `bound`
      passes, since otherwise the program does not end. */
  method Solution(workflows: Workflows, parts: seq<Ratings>, ghost bound: nat) returns (r: Result<nat>)
    requires forall i :: 0 <= i < |parts| ==> Halts(workflows, PartOf(parts[i]), bound)
    ensures r.Panic? <==> exists i :: 0 <= i < |parts| && Apply(workflows, PartOf(parts[i]), bound) == Finished(Panic)
    ensures r.Ok? ==> r.value == Sum(seq(|parts|, i requires 0 <= i < |parts| => Rated(workflows, parts[i], bound)))
  {
    var total: nat := 0;
    ghost var scores: seq<int> := [];
    for i := 0 to |parts|
      invariant |scores| == i && total == Sum(scores)
      invariant forall j :: 0 <= j < i ==> Apply(workflows, PartOf(parts[j]), bound).result.Ok? && scores[j] == Rated(workflows, parts[j], bound)
    {
      var accepted := ApplyWorkflows(workflows, PartOf(parts[i]), bound);
      if accepted.Panic? {
        return Panic;
      }
      var value: nat := 0;
      if accepted.value {
        TotalOfRatings(parts[i]);
        value := parts[i].x as nat + parts[i].m as nat + parts[i].a as nat + parts[i].s as nat;
      }
      scores := scores + [value];
      assert scores[..i] == scores[..|scores| - 1];
      total := total + value;
    }
    assert scores == seq(|parts|, i requires 0 <= i < |parts| => Rated(workflows, parts[i], bound));
    r := Ok(total);
  }
}
