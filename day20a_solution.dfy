/** Day 20, part one: load the network, press the button a thousand times
    and multiply the number of low pulses sent by the number of high
    pulses sent. */
module Day20aSolution {
  import opened Common
  import opened Day20Config
  import opened Day20a
  import opened Day20aLoad

  /** Running totals over several presses, and the network they leave. */
  datatype Tally = Tally(net: Network, low: nat, high: nat) | TallyPanicked | TallyOutOfFuel

  /** `n` presses in a row, each with at most `fuel` deliveries, summing
      the pulses each press sends; the first press that panics or runs out
      of fuel ends the sequence. */
  function Presses(net: Network, n: nat, fuel: nat): Tally
  {
    if n == 0 then Tally(net, 0, 0)
    else match Presses(net, n - 1, fuel)
      case Tally(net', low, high) =>
        (match Press(net', fuel)
         case Finished(net'', d) => Tally(net'', low + 1 + Count(d, Low), high + Count(d, High))
         case Panicked => TallyPanicked
         case OutOfFuel => TallyOutOfFuel)
      case stopped => stopped
  }

  /** The next press, added to the tally. */
  function PressAgain(t: Tally, fuel: nat): Tally
  {
    match t
    case Tally(net, low, high) =>
      (match CountsOf(Press(net, fuel))
       case Pressed(l, h) => Tally(Press(net, fuel).net, low + l, high + h)
       case PressPanicked => TallyPanicked
       case PressOutOfFuel => TallyOutOfFuel)
    case stopped => stopped
  }

  lemma PressesStep(net: Network, n: nat, fuel: nat)
    ensures Presses(net, n + 1, fuel) == PressAgain(Presses(net, n, fuel), fuel)
  {
  }

  /** A sequence of presses that stopped stays stopped. */
  lemma {:induction false} PressesStayStopped(net: Network, i: nat, n: nat, fuel: nat)
    requires i <= n && !Presses(net, i, fuel).Tally?
    ensures Presses(net, n, fuel) == Presses(net, i, fuel)
    decreases n - i
  {
    if i < n {
      PressesStayStopped(net, i, n - 1, fuel);
    }
  }

  /** Each press counts at least the button's own low pulse. */
  lemma {:induction false} PressesCountButton(net: Network, n: nat, fuel: nat)
    requires Presses(net, n, fuel).Tally?
    ensures Presses(net, n, fuel).low >= n
  {
    if n > 0 {
      PressesCountButton(net, n - 1, fuel);
    }
  }

  /** Pressing never changes the wiring. */
  lemma {:induction false} PressesKeepWiring(net: Network, n: nat, fuel: nat)
    requires Presses(net, n, fuel).Tally?
    ensures SameWiring(net, Presses(net, n, fuel).net)
  {
    if n > 0 {
      PressesKeepWiring(net, n - 1, fuel);
      var net' := Presses(net, n - 1, fuel).net;
      PressDelivers(net', fuel);
    }
  }

  lemma SameWiringBroadcaster(a: Network, b: Network)
    requires SameWiring(a, b) && "broadcaster" in a && a["broadcaster"].BroadcasterV?
    ensures "broadcaster" in b && b["broadcaster"].BroadcasterV?
  {
    ShapeFacts(a["broadcaster"], b["broadcaster"]);
  }

  /** On a well-wired network with a broadcaster no press panics. */
  lemma {:induction false} WellWiredPressesNeverPanic(net: Network, n: nat, fuel: nat)
    requires WellWired(net) && "broadcaster" in net && net["broadcaster"].BroadcasterV?
    ensures Presses(net, n, fuel) != TallyPanicked
  {
    if n > 0 {
      WellWiredPressesNeverPanic(net, n - 1, fuel);
      if Presses(net, n - 1, fuel).Tally? {
        var net' := Presses(net, n - 1, fuel).net;
        PressesKeepWiring(net, n - 1, fuel);
        SameWiringKeeps(net, net');
        SameWiringBroadcaster(net, net');
        WellWiredPressNeverPanics(net', fuel);
      }
    }
  }

  /** The totals of a tally, without its network. */
  function Totals(t: Tally): PressCount
  {
    match t
    case Tally(_, low, high) => Pressed(low, high)
    case TallyPanicked => PressPanicked
    case TallyOutOfFuel => PressOutOfFuel
  }

  /** The answer, or why there is none. */
  datatype Answer = Solved(value: nat) | SolvePanicked | SolveOutOfFuel

  /** The product of the low and high totals. */
  function AnswerOf(c: PressCount): Answer
  {
    match c
    case Pressed(low, high) => Solved(low * high)
    case PressPanicked => SolvePanicked
    case PressOutOfFuel => SolveOutOfFuel
  }

  /** The puzzle's answer for the configuration lines: the product of the
      low and high pulse totals over 1000 presses. */
  function SolutionValue(lines: seq<string>, fuel: nat): Answer
  {
    match Parse(lines)
    case Panic => SolvePanicked
    case Ok(decls) => AnswerOf(Totals(Presses(Load(decls), 1000, fuel)))
  }

  /** A configuration that parses, declares the broadcaster and sends its
      pulses only to modules that are not conjunctions has an answer or
      runs out of fuel, but never panics. */
  lemma SolutionNeverPanics(lines: seq<string>, fuel: nat)
    requires Parse(lines).Ok?
    requires var net := Load(Parse(lines).value);
      "broadcaster" in net && net["broadcaster"].BroadcasterV? && BroadcastReachable(net)
    ensures SolutionValue(lines, fuel) != SolvePanicked
  {
    var decls := Parse(lines).value;
    LoadedWellWired(decls);
    WellWiredPressesNeverPanic(Load(decls), 1000, fuel);
  }

  /** One more press in place, added to the running totals. */
  method PressOnce(modules: map<string, Module>, ghost start: Network, i: nat, fuel: nat, low: nat, high: nat)
    returns (res: PressCount, low': nat, high': nat)
    requires Separate(modules) && Presses(start, i, fuel) == Tally(View(modules), low, high)
    modifies Objects(modules)
    ensures res.Pressed? ==> Presses(start, i + 1, fuel) == Tally(View(modules), low', high')
    ensures !res.Pressed? ==> Totals(Presses(start, i + 1, fuel)) == res
  {
    ghost var before := View(modules);
    res := SimulateButtonPress(modules, fuel);
    PressesStep(start, i, fuel);
    low', high' := low, high;
    if res.Pressed? {
      low', high' := low + res.low, high + res.high;
    }
  }

  /** Presses the button `n` times on the modules in place, stopping at
      the first press that panics or runs out of fuel. */
  method PressTimes(modules: map<string, Module>, n: nat, fuel: nat) returns (r: PressCount)
    requires Separate(modules)
    modifies Objects(modules)
    ensures r == Totals(Presses(old(View(modules)), n, fuel))
  {
    ghost var start := View(modules);
    var low: nat, high: nat := 0, 0;
    for i := 0 to n
      invariant Presses(start, i, fuel) == Tally(View(modules), low, high)
    {
      var res;
      res, low, high := PressOnce(modules, start, i, fuel, low, high);
      if !res.Pressed? {
        PressesStayStopped(start, i + 1, n, fuel);
        return res;
      }
    }
    return Pressed(low, high);
  }

  /** Rust's `solution`: loads the modules, presses the button 1000 times
      on them in place and multiplies the totals. */
  method Solution(lines: seq<string>, fuel: nat) returns (r: Answer)
    ensures r == SolutionValue(lines, fuel)
  {
    var loaded := LoadModules(lines);
    if loaded.Panic? {
      return SolvePanicked;
    }
    var modules := loaded.value;
    ghost var net := View(modules);
    assert net == Load(Parse(lines).value);
    var totals := PressTimes(modules, 1000, fuel);
    r := AnswerOf(totals);
  }
}
