/** Day 19, part two: the same workflows, applied to every part whose four
    ratings each lie between 1 and 4000; the answer is how many of them are
    accepted. */
module Day19b {
  import opened Common
  import opened Day19a

  /** The largest rating tried in each category. */
  const Limit: U16 := 4000

  predicate InBox(q: Ratings)
  {
    1 <= q.x <= Limit && 1 <= q.m <= Limit && 1 <= q.a <= Limit && 1 <= q.s <= Limit
  }

  /** The part built from `q` is accepted within `bound` passes. */
  predicate Accepts(workflows: Workflows, q: Ratings, bound: nat)
  {
    Apply(workflows, PartOf(q), bound) == Finished(Ok(true))
  }

  /** The order of the four nested loops: x outermost, s innermost. */
  predicate Before(q: Ratings, p: Ratings)
  {
    || q.x < p.x
    || (q.x == p.x && q.m < p.m)
    || (q.x == p.x && q.m == p.m && q.a < p.a)
    || (q.x == p.x && q.m == p.m && q.a == p.a && q.s < p.s)
  }

  /** Every accepted combination. */
  ghost function AcceptedSet(workflows: Workflows, bound: nat): set<Ratings>
  {
    set x: U16, m: U16, a: U16, s: U16 | 1 <= x <= Limit && 1 <= m <= Limit && 1 <= a <= Limit && 1 <= s <= Limit &&
      Accepts(workflows, Ratings(x, m, a, s), bound) :: Ratings(x, m, a, s)
  }

  /** The accepted combinations the loops visit before reaching `p`. */
  ghost function Prior(workflows: Workflows, bound: nat, p: Ratings): set<Ratings>
  {
    set x: U16, m: U16, a: U16, s: U16 | 1 <= x <= Limit && 1 <= m <= Limit && 1 <= a <= Limit && 1 <= s <= Limit &&
      Before(Ratings(x, m, a, s), p) && Accepts(workflows, Ratings(x, m, a, s), bound) :: Ratings(x, m, a, s)
  }

  /** No combination visited before `p` panics. */
  ghost predicate Clean(workflows: Workflows, bound: nat, p: Ratings)
  {
    forall q :: InBox(q) && Before(q, p) ==> Apply(workflows, PartOf(q), bound) != Finished(Panic)
  }

  /** The number of combinations the loops visit before reaching `p`. */
  function Rank(p: Ratings): int
  {
    (p.x as int - 1) * 4000 * 4000 * 4000 + (p.m as int - 1) * 4000 * 4000 + (p.a as int - 1) * 4000 + (p.s as int - 1)
  }

  /** The position after the last rating of a category is the position
      of the next rating of the category outside it. */
  lemma CarryS(workflows: Workflows, bound: nat, x: U16, m: U16, a: U16)
    requires a <= Limit
    ensures Prior(workflows, bound, Ratings(x, m, a, Limit + 1)) == Prior(workflows, bound, Ratings(x, m, a + 1, 1))
    ensures Clean(workflows, bound, Ratings(x, m, a, Limit + 1)) == Clean(workflows, bound, Ratings(x, m, a + 1, 1))
  {
  }

  lemma CarryA(workflows: Workflows, bound: nat, x: U16, m: U16)
    requires m <= Limit
    ensures Prior(workflows, bound, Ratings(x, m, Limit + 1, 1)) == Prior(workflows, bound, Ratings(x, m + 1, 1, 1))
    ensures Clean(workflows, bound, Ratings(x, m, Limit + 1, 1)) == Clean(workflows, bound, Ratings(x, m + 1, 1, 1))
  {
  }

  lemma CarryM(workflows: Workflows, bound: nat, x: U16)
    requires x <= Limit
    ensures Prior(workflows, bound, Ratings(x, Limit + 1, 1, 1)) == Prior(workflows, bound, Ratings(x + 1, 1, 1, 1))
    ensures Clean(workflows, bound, Ratings(x, Limit + 1, 1, 1)) == Clean(workflows, bound, Ratings(x + 1, 1, 1, 1))
  {
  }

  /** Past the last combination every accepted one has been counted. */
  lemma AllPrior(workflows: Workflows, bound: nat)
    ensures Prior(workflows, bound, Ratings(Limit + 1, 1, 1, 1)) == AcceptedSet(workflows, bound)
    ensures Clean(workflows, bound, Ratings(Limit + 1, 1, 1, 1)) ==
      forall q :: InBox(q) ==> Apply(workflows, PartOf(q), bound) != Finished(Panic)
  {
  }

  /** One combination more: it is counted when accepted. */
  lemma PriorStep(workflows: Workflows, bound: nat, x: U16, m: U16, a: U16, s: U16)
    requires InBox(Ratings(x, m, a, s))
    ensures |Prior(workflows, bound, Ratings(x, m, a, s + 1))| ==
      |Prior(workflows, bound, Ratings(x, m, a, s))| + if Accepts(workflows, Ratings(x, m, a, s), bound) then 1 else 0
  {
    var q := Ratings(x, m, a, s);
    assert q !in Prior(workflows, bound, q);
    assert Prior(workflows, bound, Ratings(x, m, a, s + 1)) ==
      Prior(workflows, bound, q) + if Accepts(workflows, q, bound) then {q} else {};
  }

  /** One combination more: it is clean when it does not panic. */
  lemma CleanStep(workflows: Workflows, bound: nat, x: U16, m: U16, a: U16, s: U16)
    requires InBox(Ratings(x, m, a, s))
    ensures Clean(workflows, bound, Ratings(x, m, a, s + 1)) ==
      (Clean(workflows, bound, Ratings(x, m, a, s)) && Apply(workflows, PartOf(Ratings(x, m, a, s)), bound) != Finished(Panic))
  {
  }

  /** The count `valid` at loop position `p`: every accepted combination
      before it, none of which panicked. */
  ghost predicate Counted(workflows: Workflows, bound: nat, p: Ratings, valid: nat)
  {
    valid == |Prior(workflows, bound, p)| <= Rank(p) && Clean(workflows, bound, p)
  }

  /** The body of the innermost loop: builds the part, applies the
      workflows and counts the part when it is accepted. */
  method Visit(workflows: Workflows, ghost bound: nat, x: U16, m: U16, a: U16, s: U16, valid: nat) returns (r: Result<nat>)
    requires forall q :: InBox(q) ==> Halts(workflows, PartOf(q), bound)
    requires InBox(Ratings(x, m, a, s)) && Counted(workflows, bound, Ratings(x, m, a, s), valid)
    ensures r.Panic? ==> exists q :: InBox(q) && Apply(workflows, PartOf(q), bound) == Finished(Panic)
    ensures r.Ok? ==> Counted(workflows, bound, Ratings(x, m, a, s + 1), r.value)
  {
    PriorStep(workflows, bound, x, m, a, s);
    CleanStep(workflows, bound, x, m, a, s);
    var q := Ratings(x, m, a, s);
    var accepted := ApplyWorkflows(workflows, PartOf(q), bound);
    if accepted.Panic? {
      return Panic;
    }
    r := if accepted.value then Ok(valid + 1) else Ok(valid);
  }

  /** Rust's `solution` after parsing: the four nested loops over every
      combination, counting those `apply_workflows` accepts. Every
      combination must be decided within `bound` passes, since otherwise the
      program does not end. */
  method Solution(workflows: Workflows, ghost bound: nat) returns (r: Result<nat>)
    requires forall q :: InBox(q) ==> Halts(workflows, PartOf(q), bound)
    ensures r.Panic? <==> exists q :: InBox(q) && Apply(workflows, PartOf(q), bound) == Finished(Panic)
    ensures r.Ok? ==> r.value == |AcceptedSet(workflows, bound)|
    ensures r.Ok? ==> r.value <= 4000 * 4000 * 4000 * 4000
  {
    var valid: nat := 0;
    for x: U16 := 1 to Limit + 1
      invariant Counted(workflows, bound, Ratings(x, 1, 1, 1), valid)
    {
      for m: U16 := 1 to Limit + 1
        invariant Counted(workflows, bound, Ratings(x, m, 1, 1), valid)
      {
        for a: U16 := 1 to Limit + 1
          invariant Counted(workflows, bound, Ratings(x, m, a, 1), valid)
        {
          for s: U16 := 1 to Limit + 1
            invariant Counted(workflows, bound, Ratings(x, m, a, s), valid)
          {
            var counted := Visit(workflows, bound, x, m, a, s, valid);
            if counted.Panic? {
              return Panic;
            }
            valid := counted.value;
          }
          CarryS(workflows, bound, x, m, a);
        }
        CarryA(workflows, bound, x, m);
      }
      CarryM(workflows, bound, x);
    }
    AllPrior(workflows, bound);
    r := Ok(valid);
  }
}
