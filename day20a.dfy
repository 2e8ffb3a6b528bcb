/** The pulse-propagation network: flip-flops, conjunctions, the broadcaster
    and output sinks, wired by name, driven by button presses that push
    low/high pulses through a FIFO queue. */
module Day20a {
  import opened Common

  datatype State = On | Off

  /** `NoPulse` (the source's `Pulse::None`) is what a module "sends" when it
      sends nothing. */
  datatype Pulse = Low | High | NoPulse

  // ---------------------------------------------------------------------
  // Module transitions, as values

  /** One flip-flop step: the new state and the pulse it sends. */
  function FlipFlopStep(state: State, input: Pulse): (r: (State, Pulse))
    ensures input != Low ==> r == (state, NoPulse)
    ensures input == Low ==> r.0 != state
    ensures input == Low ==> (r.1 == High <==> r.0 == On) && r.1 != NoPulse
  {
    match input
    case Low => if state == On then (Off, Low) else (On, High)
    case _ => (state, NoPulse)
  }

  /** Number of low pulses in a sequence of pulses. */
  function Lows(pulses: seq<Pulse>): nat
  {
    if pulses == [] then 0
    else Lows(pulses[..|pulses| - 1]) + (if pulses[|pulses| - 1] == Low then 1 else 0)
  }

  /** The state a flip-flop is in after receiving `pulses`. */
  function FlipFlopAfter(state: State, pulses: seq<Pulse>): State
  {
    if pulses == [] then state
    else FlipFlopStep(FlipFlopAfter(state, pulses[..|pulses| - 1]), pulses[|pulses| - 1]).0
  }

  /** A flip-flop that starts Off is On exactly when it has received an odd
      number of low pulses; high pulses never affect it. */
  lemma {:induction false} FlipFlopParity(pulses: seq<Pulse>)
    ensures FlipFlopAfter(Off, pulses) == (if Lows(pulses) % 2 == 1 then On else Off)
  {
    if pulses != [] {
      FlipFlopParity(pulses[..|pulses| - 1]);
    }
  }

  /** Two low pulses bring a flip-flop back to Off: it sends High then Low. */
  lemma FlipFlopTwoLows()
    ensures FlipFlopStep(Off, Low) == (On, High)
    ensures FlipFlopStep(On, Low) == (Off, Low)
  {
  }

  /** Every remembered input was high the last time it sent a pulse. */
  predicate AllOn(memory: map<string, State>)
  {
    forall n :: n in memory ==> memory[n] == On
  }

  /** One conjunction step on its memory: remember the level of the pulse
      from `from`, then send Low iff every remembered input is On. A pulse
      from a name that was never registered panics. */
  function ConjunctionStep(memory: map<string, State>, from: string, input: Pulse)
    : (r: Result<(map<string, State>, Pulse)>)
    ensures input == NoPulse ==> r == Ok((memory, NoPulse))
    ensures input != NoPulse ==> (r.Panic? <==> from !in memory)
    ensures r.Ok? && input != NoPulse ==>
      && r.value.0.Keys == memory.Keys
      && r.value.0[from] == (if input == High then On else Off)
      && (forall n :: n in memory && n != from ==> r.value.0[n] == memory[n])
      && (r.value.1 == Low <==> AllOn(r.value.0))
      && r.value.1 != NoPulse
  {
    if input == NoPulse then Ok((memory, NoPulse))
    else if from !in memory then Panic
    else
      var m := memory[from := if input == High then On else Off];
      Ok((m, if AllOn(m) then Low else High))
  }

  /** A conjunction with a single registered input is an inverter. */
  lemma ConjunctionInverts(from: string, state: State, input: Pulse)
    requires input != NoPulse
    ensures ConjunctionStep(map[from := state], from, input)
         == Ok((map[from := if input == High then On else Off], if input == High then Low else High))
  {
    var m := map[from := if input == High then On else Off];
    assert map[from := state][from := if input == High then On else Off] == m;
    assert AllOn(m) <==> m[from] == On;
  }

  /** The memory of a conjunction after a run of (sender, pulse) inputs
      that never panics. */
  function ConjunctionAfter(memory: map<string, State>, inputs: seq<(string, Pulse)>): Result<map<string, State>>
  {
    if inputs == [] then Ok(memory)
    else match ConjunctionAfter(memory, inputs[..|inputs| - 1])
      case Panic => Panic
      case Ok(m) =>
        match ConjunctionStep(m, inputs[|inputs| - 1].0, inputs[|inputs| - 1].1)
        case Panic => Panic
        case Ok((m', _)) => Ok(m')
  }

  /** The level of the last real pulse from `n` in `inputs`, if any. */
  function LastFrom(inputs: seq<(string, Pulse)>, n: string): Option<State>
  {
    if inputs == [] then Option.None
    else if inputs[|inputs| - 1].0 == n && inputs[|inputs| - 1].1 != NoPulse then
      Some(if inputs[|inputs| - 1].1 == High then On else Off)
    else LastFrom(inputs[..|inputs| - 1], n)
  }

  /** A conjunction remembers, for every input, the level of the most recent
      pulse from that input; inputs that sent nothing keep their old entry. */
  lemma {:induction false} ConjunctionRemembersLast(memory: map<string, State>, inputs: seq<(string, Pulse)>)
    requires ConjunctionAfter(memory, inputs).Ok?
    ensures ConjunctionAfter(memory, inputs).value.Keys == memory.Keys
    ensures forall n :: n in memory ==>
      ConjunctionAfter(memory, inputs).value[n] == (if LastFrom(inputs, n).Some? then LastFrom(inputs, n).value else memory[n])
  {
    if inputs != [] {
      ConjunctionRemembersLast(memory, inputs[..|inputs| - 1]);
    }
  }

  // ---------------------------------------------------------------------
  // Modules as objects

  class FlipFlop {
    const name: string
    const outputs: seq<string>
    var state: State

    constructor (name: string, outputs: seq<string>)
      ensures this.name == name && this.outputs == outputs && state == Off
    {
      this.name := name;
      this.outputs := outputs;
      state := Off;
    }

    method Process(input: Pulse) returns (output: Pulse)
      modifies this
      ensures (state, output) == FlipFlopStep(old(state), input)
    {
      match input {
        case High => output := NoPulse;
        case Low =>
          if state == On {
            state := Off;
            output := Low;
          } else {
            state := On;
            output := High;
          }
        case NoPulse => output := NoPulse;
      }
    }
  }

  class Conjunction {
    const name: string
    const outputs: seq<string>
    var memory: map<string, State>

    constructor (name: string, outputs: seq<string>)
      ensures this.name == name && this.outputs == outputs && memory == map[]
    {
      this.name := name;
      this.outputs := outputs;
      memory := map[];
    }

    /** Registers every listed input as Off. */
    method AddInputs(inputs: seq<string>)
      modifies this
      ensures memory == old(memory) + map n | n in inputs :: Off
    {
      for i := 0 to |inputs|
        invariant memory == old(memory) + map n | n in inputs[..i] :: Off
      {
        assert inputs[..i + 1] == inputs[..i] + [inputs[i]];
        memory := memory[inputs[i] := Off];
      }
      assert inputs[..|inputs|] == inputs;
    }

    method Process(from: string, input: Pulse) returns (r: Result<Pulse>)
      modifies this
      ensures r.Panic? <==> ConjunctionStep(old(memory), from, input).Panic?
      ensures r.Ok? ==> ConjunctionStep(old(memory), from, input) == Ok((memory, r.value))
    {
      match input {
        case NoPulse => return Ok(NoPulse);
        case High =>
          if from !in memory {
            return Panic;
          }
          memory := memory[from := On];
        case Low =>
          if from !in memory {
            return Panic;
          }
          memory := memory[from := Off];
      }
      if forall n | n in memory :: memory[n] == On {
        r := Ok(Low);
      } else {
        r := Ok(High);
      }
    }
  }

  /** A module stored in the name-keyed map; flip-flops and conjunctions are
      objects that the simulation updates in place. */
  datatype Module =
    | FlipFlopModule(f: FlipFlop)
    | ConjunctionModule(c: Conjunction)
    | Broadcaster(outputs: seq<string>)
    | Output

  /** The value of a module: what a module holds, without object identity. */
  datatype ModuleValue =
    | FlipFlopV(outputs: seq<string>, state: State)
    | ConjunctionV(outputs: seq<string>, memory: map<string, State>)
    | BroadcasterV(outputs: seq<string>)
    | OutputV

  type Network = map<string, ModuleValue>

  function Footprint(m: Module): set<object>
  {
    match m
    case FlipFlopModule(f) => {f}
    case ConjunctionModule(c) => {c}
    case _ => {}
  }

  ghost function Objects(modules: map<string, Module>): set<object>
  {
    set k, o | k in modules && o in Footprint(modules[k]) :: o
  }

  /** No two names share a module object. */
  ghost predicate Separate(modules: map<string, Module>)
  {
    forall k1, k2 :: k1 in modules && k2 in modules && k1 != k2 ==>
      Footprint(modules[k1]) !! Footprint(modules[k2])
  }

  function Value(m: Module): ModuleValue
    reads Footprint(m)
  {
    match m
    case FlipFlopModule(f) => FlipFlopV(f.outputs, f.state)
    case ConjunctionModule(c) => ConjunctionV(c.outputs, c.memory)
    case Broadcaster(outputs) => BroadcasterV(outputs)
    case Output => OutputV
  }

  ghost function View(modules: map<string, Module>): (net: Network)
    reads Objects(modules)
    ensures net.Keys == modules.Keys
  {
    map k | k in modules :: Value(modules[k])
  }

  // ---------------------------------------------------------------------
  // Pulse propagation, as values

  /** A pulse in flight: who sent it, where it goes, and its level. */
  datatype Signal = Signal(source: string, dest: string, pulse: Pulse)

  /** The signals a module sends: one per output, in the order of `outputs`,
      each with the module as its source. */
  function Send(source: string, outputs: seq<string>, pulse: Pulse): (r: seq<Signal>)
    ensures |r| == |outputs|
    ensures forall i :: 0 <= i < |r| ==> r[i] == Signal(source, outputs[i], pulse)
  {
    if outputs == [] then []
    else Send(source, outputs[..|outputs| - 1], pulse) + [Signal(source, outputs[|outputs| - 1], pulse)]
  }

  /** Number of signals of the given level. */
  function Count(signals: seq<Signal>, level: Pulse): nat
  {
    if signals == [] then 0
    else Count(signals[..|signals| - 1], level) + (if signals[|signals| - 1].pulse == level then 1 else 0)
  }

  lemma {:induction false} CountAppend(a: seq<Signal>, b: seq<Signal>, level: Pulse)
    ensures Count(a + b, level) == Count(a, level) + Count(b, level)
    decreases |b|
  {
    if b == [] {
      assert a + b == a;
    } else {
      var ab := a + b;
      assert ab[..|ab| - 1] == a + b[..|b| - 1];
      assert ab[|ab| - 1] == b[|b| - 1];
      CountAppend(a, b[..|b| - 1], level);
    }
  }

  lemma {:induction false} CountSend(source: string, outputs: seq<string>, pulse: Pulse, level: Pulse)
    ensures Count(Send(source, outputs, pulse), level) == if pulse == level then |outputs| else 0
  {
    if outputs != [] {
      var r := Send(source, outputs, pulse);
      assert r[..|r| - 1] == Send(source, outputs[..|outputs| - 1], pulse);
      CountSend(source, outputs[..|outputs| - 1], pulse, level);
    }
  }

  function OutputsOf(m: ModuleValue): seq<string>
  {
    if m.OutputV? then [] else m.outputs
  }

  /** What a module is wired to, without its state. */
  datatype Wiring =
    | FlipFlopW(outputs: seq<string>)
    | ConjunctionW(outputs: seq<string>, inputs: set<string>)
    | BroadcasterW(outputs: seq<string>)
    | OutputW

  /** The module's kind and wiring: its state and the levels in its memory
      erased, the names in its memory kept. */
  function Shape(m: ModuleValue): Wiring
  {
    match m
    case FlipFlopV(outputs, _) => FlipFlopW(outputs)
    case ConjunctionV(outputs, memory) => ConjunctionW(outputs, memory.Keys)
    case BroadcasterV(outputs) => BroadcasterW(outputs)
    case OutputV => OutputW
  }

  /** Two networks with the same names, kinds, outputs and conjunction
      inputs. */
  predicate SameWiring(a: Network, b: Network)
  {
    a.Keys == b.Keys && forall k :: k in a ==> Shape(a[k]) == Shape(b[k])
  }

  lemma ShapeFacts(a: ModuleValue, b: ModuleValue)
    requires Shape(a) == Shape(b)
    ensures a.FlipFlopV? == b.FlipFlopV? && a.ConjunctionV? == b.ConjunctionV?
    ensures a.BroadcasterV? == b.BroadcasterV? && a.OutputV? == b.OutputV?
    ensures OutputsOf(a) == OutputsOf(b)
    ensures a.ConjunctionV? ==> a.memory.Keys == b.memory.Keys
  {
  }

  /** What a module that reacted with pulse `p` sends: nothing for
      NoPulse, else one signal per output. */
  function Emit(source: string, outputs: seq<string>, p: Pulse): seq<Signal>
  {
    if p == NoPulse then [] else Send(source, outputs, p)
  }

  /** Delivering one signal: the destination reacts, and the signals it
      sends in response. Flip-flops and conjunctions send to all their
      outputs; the broadcaster and output sinks do nothing when a pulse
      reaches them. A destination that is not a module, and a pulse to a
      conjunction from an unregistered sender, panic. */
  function Deliver(net: Network, s: Signal): Result<(Network, seq<Signal>)>
  {
    if s.dest !in net then Panic
    else match net[s.dest]
      case FlipFlopV(outputs, state) =>
        var (state', p) := FlipFlopStep(state, s.pulse);
        Ok((net[s.dest := FlipFlopV(outputs, state')], Emit(s.dest, outputs, p)))
      case ConjunctionV(outputs, memory) =>
        (match ConjunctionStep(memory, s.source, s.pulse)
         case Panic => Panic
         case Ok((memory', p)) =>
           Ok((net[s.dest := ConjunctionV(outputs, memory')], Emit(s.dest, outputs, p))))
      case _ => Ok((net, []))
  }

  /** A delivery panics exactly when the destination is not a module, or
      when a real pulse reaches a conjunction from a sender it never
      registered. */
  lemma DeliverPanics(net: Network, s: Signal)
    ensures Deliver(net, s).Panic? <==>
      s.dest !in net || (net[s.dest].ConjunctionV? && s.pulse != NoPulse && s.source !in net[s.dest].memory)
  {
  }

  /** A delivery changes at most the destination, and keeps the wiring. */
  lemma DeliverKeepsWiring(net: Network, s: Signal)
    requires Deliver(net, s).Ok?
    ensures SameWiring(net, Deliver(net, s).value.0)
    ensures forall k :: k in net && k != s.dest ==> Deliver(net, s).value.0[k] == net[k]
  {
    var m := net[s.dest];
    if m.ConjunctionV? {
      var step := ConjunctionStep(m.memory, s.source, s.pulse);
      assert Shape(ConjunctionV(m.outputs, step.value.0)) == Shape(m);
    }
  }

  /** The broadcaster and output sinks ignore a pulse delivered to them. */
  lemma DeliverToSinkIgnored(net: Network, s: Signal)
    requires s.dest in net && (net[s.dest].BroadcasterV? || net[s.dest].OutputV?)
    ensures Deliver(net, s) == Ok((net, []))
  {
  }

  /** What a delivery sends goes to every output of the destination, in
      output order, all with one real level. */
  lemma DeliverSends(net: Network, s: Signal)
    requires Deliver(net, s).Ok? && Deliver(net, s).value.1 != []
    ensures Deliver(net, s).value.1[0].pulse != NoPulse
    ensures Deliver(net, s).value.1 == Send(s.dest, OutputsOf(net[s.dest]), Deliver(net, s).value.1[0].pulse)
  {
  }

  /** How draining the queue ends: with the final network and every signal
      delivered, in delivery order; with a panic; or with `fuel` deliveries
      spent while signals were still queued. */
  datatype Outcome =
    | Finished(net: Network, delivered: seq<Signal>)
    | Panicked
    | OutOfFuel

  /** Drains the FIFO queue: the front signal is delivered, what it provokes
      is pushed at the back. At most `fuel` signals are delivered. */
  function Run(net: Network, queue: seq<Signal>, delivered: seq<Signal>, fuel: nat): Outcome
    decreases fuel, 1
  {
    if queue == [] then Finished(net, delivered)
    else if fuel == 0 then OutOfFuel
    else RunAfter(Deliver(net, queue[0]), queue, delivered, fuel - 1)
  }

  /** Continues a run after the front signal of `queue` was delivered with
      result `step`. */
  function RunAfter(step: Result<(Network, seq<Signal>)>, queue: seq<Signal>, delivered: seq<Signal>, fuel: nat): Outcome
    requires queue != []
    decreases fuel + 1, 0
  {
    match step
    case Panic => Panicked
    case Ok((net', sent)) => Run(net', queue[1..] + sent, delivered + [queue[0]], fuel)
  }

  /** One button press: the button's low pulse reaches the broadcaster,
      which sends Low to each of its outputs; then the queue is drained. */
  function Press(net: Network, fuel: nat): Outcome
  {
    if "broadcaster" !in net || !net["broadcaster"].BroadcasterV? then Panicked
    else
      var outputs := net["broadcaster"].outputs;
      Run(net, Send("broadcaster", outputs, Low), [], fuel)
  }

  /** One delivery step of a run that has fuel and does not panic. */
  lemma RunStep(net: Network, queue: seq<Signal>, delivered: seq<Signal>, fuel: nat)
    requires queue != [] && fuel > 0 && Deliver(net, queue[0]).Ok?
    ensures var (net', sent) := Deliver(net, queue[0]).value;
      Run(net, queue, delivered, fuel) == Run(net', queue[1..] + sent, delivered + [queue[0]], fuel - 1)
  {
  }

  /** A finished run keeps the wiring of the network. */
  lemma {:induction false} RunKeepsWiring(net: Network, queue: seq<Signal>, delivered: seq<Signal>, fuel: nat)
    requires Run(net, queue, delivered, fuel).Finished?
    ensures SameWiring(net, Run(net, queue, delivered, fuel).net)
    decreases fuel
  {
    if queue != [] {
      DeliverKeepsWiring(net, queue[0]);
      RunStep(net, queue, delivered, fuel);
      var (net', sent) := Deliver(net, queue[0]).value;
      RunKeepsWiring(net', queue[1..] + sent, delivered + [queue[0]], fuel - 1);
    }
  }

  /** Moving the front of the queue to the delivered signals and pushing
      `sent` at the back keeps `delivered + queue` as a prefix. */
  lemma QueueMoved(delivered: seq<Signal>, queue: seq<Signal>, sent: seq<Signal>)
    requires queue != []
    ensures delivered + [queue[0]] + (queue[1..] + sent) == (delivered + queue) + sent
  {
  }

  /** A finished run delivers every queued signal, the queued ones first and
      in queue order, after those already delivered. */
  lemma {:induction false} RunDeliversInOrder(net: Network, queue: seq<Signal>, delivered: seq<Signal>, fuel: nat)
    requires Run(net, queue, delivered, fuel).Finished?
    ensures delivered + queue <= Run(net, queue, delivered, fuel).delivered
    decreases fuel
  {
    if queue != [] {
      var s := queue[0];
      RunStep(net, queue, delivered, fuel);
      var (net', sent) := Deliver(net, s).value;
      RunDeliversInOrder(net', queue[1..] + sent, delivered + [s], fuel - 1);
      QueueMoved(delivered, queue, sent);
    }
  }

  /** A finished run only ever delivers to names of the network. */
  lemma {:induction false} RunStaysInNetwork(net: Network, queue: seq<Signal>, delivered: seq<Signal>, fuel: nat)
    requires Run(net, queue, delivered, fuel).Finished?
    ensures var d := Run(net, queue, delivered, fuel).delivered;
      |delivered| <= |d| && forall i :: |delivered| <= i < |d| ==> d[i].dest in net
    decreases fuel
  {
    if queue != [] {
      var s := queue[0];
      DeliverKeepsWiring(net, s);
      RunStep(net, queue, delivered, fuel);
      var (net', sent) := Deliver(net, s).value;
      RunStaysInNetwork(net', queue[1..] + sent, delivered + [s], fuel - 1);
      RunDeliversInOrder(net', queue[1..] + sent, delivered + [s], fuel - 1);
      DeliverPanics(net, s);
      assert (delivered + [s])[|delivered|] == s;
    }
  }

  /** What a finished press delivers: the broadcaster's pulses first, in
      the order of its outputs, and only to names of the network (so every
      output of the broadcaster is a module); the wiring is unchanged. */
  lemma PressDelivers(net: Network, fuel: nat)
    requires Press(net, fuel).Finished?
    ensures var o := Press(net, fuel);
      && Send("broadcaster", net["broadcaster"].outputs, Low) <= o.delivered
      && (forall i :: 0 <= i < |o.delivered| ==> o.delivered[i].dest in net)
      && (forall i :: 0 <= i < |net["broadcaster"].outputs| ==> net["broadcaster"].outputs[i] in net)
      && SameWiring(net, o.net)
  {
    var outputs := net["broadcaster"].outputs;
    var q := Send("broadcaster", outputs, Low);
    RunKeepsWiring(net, q, [], fuel);
    RunDeliversInOrder(net, q, [], fuel);
    RunStaysInNetwork(net, q, [], fuel);
    var o := Press(net, fuel);
    assert [] + q == q;
    forall i | 0 <= i < |outputs|
      ensures outputs[i] in net
    {
      assert o.delivered[i] == q[i];
    }
  }

  /** A queued signal whose destination is not a module makes the run panic
      once the signals ahead of it are delivered. */
  lemma {:induction false} RunReachesDangling(net: Network, queue: seq<Signal>, delivered: seq<Signal>, fuel: nat, i: nat)
    requires i < |queue| && queue[i].dest !in net && i < fuel
    ensures Run(net, queue, delivered, fuel) == Panicked
    decreases i
  {
    DeliverPanics(net, queue[0]);
    if Deliver(net, queue[0]).Ok? {
      DeliverKeepsWiring(net, queue[0]);
      RunStep(net, queue, delivered, fuel);
      var (net', sent) := Deliver(net, queue[0]).value;
      var queue' := queue[1..] + sent;
      assert queue'[i - 1] == queue[i];
      RunReachesDangling(net', queue', delivered + [queue[0]], fuel - 1, i - 1);
    }
  }

  /** An output of the broadcaster that is not a module makes a press panic
      once fuel suffices to reach it: the loader does not resolve the
      broadcaster's outputs. */
  lemma DanglingBroadcasterOutput(net: Network, fuel: nat, i: nat)
    requires "broadcaster" in net && net["broadcaster"].BroadcasterV?
    requires i < |net["broadcaster"].outputs| && net["broadcaster"].outputs[i] !in net
    requires i < fuel
    ensures Press(net, fuel) == Panicked
  {
    var outputs := net["broadcaster"].outputs;
    RunReachesDangling(net, Send("broadcaster", outputs, Low), [], fuel, i);
  }

  /** Every output of every module is a module, and every module that sends
      to a conjunction is registered in that conjunction's memory. */
  predicate WellWired(net: Network)
  {
    forall k, o :: k in net && o in OutputsOf(net[k]) ==>
      o in net && (net[o].ConjunctionV? ==> k in net[o].memory)
  }

  /** A signal that can be delivered without a panic. */
  predicate Deliverable(net: Network, s: Signal)
  {
    s.dest in net && s.pulse != NoPulse && (net[s.dest].ConjunctionV? ==> s.source in net[s.dest].memory)
  }

  lemma SameWiringKeeps(a: Network, b: Network)
    requires SameWiring(a, b)
    ensures WellWired(a) ==> WellWired(b)
    ensures forall s :: Deliverable(a, s) ==> Deliverable(b, s)
  {
    forall k | k in a
      ensures OutputsOf(a[k]) == OutputsOf(b[k]) && a[k].ConjunctionV? == b[k].ConjunctionV?
      ensures a[k].ConjunctionV? ==> a[k].memory.Keys == b[k].memory.Keys
    {
      ShapeFacts(a[k], b[k]);
    }
  }

  /** On a well-wired network a deliverable signal is delivered without a
      panic, and what it sends is deliverable on the resulting network. */
  lemma DeliverableSends(net: Network, s: Signal)
    requires WellWired(net) && Deliverable(net, s)
    ensures Deliver(net, s).Ok?
    ensures WellWired(Deliver(net, s).value.0)
    ensures forall j :: 0 <= j < |Deliver(net, s).value.1| ==> Deliverable(Deliver(net, s).value.0, Deliver(net, s).value.1[j])
  {
    DeliverPanics(net, s);
    var (net', sent) := Deliver(net, s).value;
    DeliverKeepsWiring(net, s);
    SameWiringKeeps(net, net');
    forall j | 0 <= j < |sent|
      ensures Deliverable(net, sent[j])
    {
      if sent != [] {
        DeliverSends(net, s);
        assert sent[j].dest in OutputsOf(net[s.dest]);
      }
    }
  }

  /** On a well-wired network, draining a queue of deliverable signals never
      panics. */
  lemma {:induction false} WellWiredRunNeverPanics(net: Network, queue: seq<Signal>, delivered: seq<Signal>, fuel: nat)
    requires WellWired(net)
    requires forall i :: 0 <= i < |queue| ==> Deliverable(net, queue[i])
    ensures Run(net, queue, delivered, fuel) != Panicked
    decreases fuel
  {
    if queue != [] && fuel > 0 {
      var s := queue[0];
      DeliverableSends(net, s);
      var (net', sent) := Deliver(net, s).value;
      DeliverKeepsWiring(net, s);
      SameWiringKeeps(net, net');
      var queue' := queue[1..] + sent;
      forall i | 0 <= i < |queue'|
        ensures Deliverable(net', queue'[i])
      {
        if i < |queue| - 1 {
          assert queue'[i] == queue[i + 1];
        } else {
          assert queue'[i] == sent[i - (|queue| - 1)];
        }
      }
      RunStep(net, queue, delivered, fuel);
      WellWiredRunNeverPanics(net', queue', delivered + [s], fuel - 1);
    }
  }

  /** A press on a well-wired network with a broadcaster never panics. */
  lemma WellWiredPressNeverPanics(net: Network, fuel: nat)
    requires WellWired(net) && "broadcaster" in net && net["broadcaster"].BroadcasterV?
    ensures Press(net, fuel) != Panicked
  {
    var outputs := net["broadcaster"].outputs;
    var q := Send("broadcaster", outputs, Low);
    forall i | 0 <= i < |q|
      ensures Deliverable(net, q[i])
    {
      assert q[i].dest in OutputsOf(net["broadcaster"]);
    }
    WellWiredRunNeverPanics(net, q, [], fuel);
  }

  // ---------------------------------------------------------------------
  // The simulation, in place

  /** The counts a press returns, or why it returned none. */
  datatype PressCount = Pressed(low: nat, high: nat) | PressPanicked | PressOutOfFuel

  /** The counts of a finished press: the button's low pulse, plus every
      delivered signal by level (each signal is counted when it is pushed,
      and a press finishes only once the queue is empty). */
  function CountsOf(o: Outcome): PressCount
  {
    match o
    case Finished(_, delivered) => Pressed(1 + Count(delivered, Low), Count(delivered, High))
    case Panicked => PressPanicked
    case OutOfFuel => PressOutOfFuel
  }

  /** Pushes one signal per output at the back of the queue, in output
      order, counting each one as a low or a high pulse. */
  method Enqueue(signals: seq<Signal>, source: string, outputs: seq<string>, pulse: Pulse, low: nat, high: nat)
    returns (signals': seq<Signal>, low': nat, high': nat)
    requires pulse != NoPulse
    ensures signals' == signals + Send(source, outputs, pulse)
    ensures low' == low + (if pulse == Low then |outputs| else 0)
    ensures high' == high + (if pulse == High then |outputs| else 0)
  {
    signals', low', high' := signals, low, high;
    for i := 0 to |outputs|
      invariant signals' == signals + Send(source, outputs[..i], pulse)
      invariant low' == low + (if pulse == Low then i else 0)
      invariant high' == high + (if pulse == High then i else 0)
    {
      assert outputs[..i + 1][..i] == outputs[..i];
      signals' := signals' + [Signal(source, outputs[i], pulse)];
      if pulse == Low {
        low' := low' + 1;
      } else {
        high' := high' + 1;
      }
    }
    assert outputs[..|outputs|] == outputs;
  }

  lemma RunAdvance(net: Network, queue: seq<Signal>, delivered: seq<Signal>, fuel: nat, net': Network, queue': seq<Signal>)
    requires queue != [] && fuel > 0 && Deliver(net, queue[0]).Ok? && net' == Deliver(net, queue[0]).value.0
    requires queue' == queue[1..] + Deliver(net, queue[0]).value.1
    ensures Run(net, queue, delivered, fuel) == Run(net', queue', delivered + [queue[0]], fuel - 1)
  {
    RunStep(net, queue, delivered, fuel);
  }

  /** Moving the front of the queue to the delivered signals and pushing
      `sent` adds the count of `sent`. */
  lemma CountMoved(delivered: seq<Signal>, queue: seq<Signal>, sent: seq<Signal>, level: Pulse)
    requires queue != []
    ensures Count(delivered + [queue[0]] + (queue[1..] + sent), level) == Count(delivered + queue, level) + Count(sent, level)
  {
    QueueMoved(delivered, queue, sent);
    CountAppend(delivered + queue, sent, level);
  }

  lemma RunStopsOnPanic(net: Network, queue: seq<Signal>, delivered: seq<Signal>, fuel: nat)
    requires queue != [] && fuel > 0 && Deliver(net, queue[0]).Panic?
    ensures Run(net, queue, delivered, fuel) == Panicked
  {
  }

  lemma PressIsRun(net: Network, fuel: nat)
    requires "broadcaster" in net && net["broadcaster"].BroadcasterV?
    ensures var outputs := net["broadcaster"].outputs;
      Press(net, fuel) == Run(net, Send("broadcaster", outputs, Low), [], fuel)
  {
  }

  lemma FootprintInObjects(modules: map<string, Module>, k: string)
    requires k in modules
    ensures Footprint(modules[k]) <= Objects(modules)
  {
  }

  /** Pulses the flip-flop registered under `k`: the view changes at `k`
      only, as the flip-flop's own step says. */
  method PulseFlipFlop(modules: map<string, Module>, k: string, f: FlipFlop, input: Pulse) returns (p: Pulse)
    requires Separate(modules) && k in modules && modules[k] == FlipFlopModule(f)
    modifies f
    ensures (f.state, p) == FlipFlopStep(old(f.state), input)
    ensures View(modules) == old(View(modules))[k := FlipFlopV(f.outputs, f.state)]
  {
    p := f.Process(input);
    forall k' | k' in modules && k' != k
      ensures Value(modules[k']) == old(Value(modules[k']))
    {
      assert Footprint(modules[k']) !! Footprint(modules[k]);
    }
  }

  /** Pulses the conjunction registered under `k`: the view changes at `k`
      only, as the conjunction's own step says. */
  method PulseConjunction(modules: map<string, Module>, k: string, c: Conjunction, from: string, input: Pulse)
    returns (r: Result<Pulse>)
    requires Separate(modules) && k in modules && modules[k] == ConjunctionModule(c)
    modifies c
    ensures r.Panic? <==> ConjunctionStep(old(c.memory), from, input).Panic?
    ensures r.Ok? ==> ConjunctionStep(old(c.memory), from, input) == Ok((c.memory, r.value))
    ensures View(modules) == old(View(modules))[k := ConjunctionV(c.outputs, c.memory)]
  {
    r := c.Process(from, input);
    forall k' | k' in modules && k' != k
      ensures Value(modules[k']) == old(Value(modules[k']))
    {
      assert Footprint(modules[k']) !! Footprint(modules[k]);
    }
  }

  /** Pushes what a module that reacted with `p` sends at the back of the
      queue, counting it. */
  method EmitInPlace(signals: seq<Signal>, source: string, outputs: seq<string>, p: Pulse, low: nat, high: nat)
    returns (signals': seq<Signal>, low': nat, high': nat)
    ensures signals' == signals + Emit(source, outputs, p)
    ensures low' == low + Count(Emit(source, outputs, p), Low)
    ensures high' == high + Count(Emit(source, outputs, p), High)
  {
    if p == NoPulse {
      assert signals + [] == signals;
      return signals, low, high;
    }
    signals', low', high' := Enqueue(signals, source, outputs, p, low, high);
    CountSend(source, outputs, p, Low);
    CountSend(source, outputs, p, High);
  }

  /** Delivers a signal to the flip-flop `f` it is addressed to. */
  method DeliverToFlipFlop(modules: map<string, Module>, s: Signal, f: FlipFlop, signals: seq<Signal>, low: nat, high: nat)
    returns (signals': seq<Signal>, low': nat, high': nat)
    requires Separate(modules) && s.dest in modules && modules[s.dest] == FlipFlopModule(f)
    modifies f
    ensures match Deliver(old(View(modules)), s)
      case Panic => false
      case Ok((net', sent)) =>
        View(modules) == net' && signals' == signals + sent
        && low' == low + Count(sent, Low) && high' == high + Count(sent, High)
  {
    ghost var net := View(modules);
    assert net[s.dest] == FlipFlopV(f.outputs, f.state);
    var p := PulseFlipFlop(modules, s.dest, f, s.pulse);
    assert Deliver(net, s) == Ok((View(modules), Emit(s.dest, f.outputs, p)));
    signals', low', high' := EmitInPlace(signals, s.dest, f.outputs, p, low, high);
  }

  /** Delivers a signal to the conjunction `c` it is addressed to. */
  method DeliverToConjunction(modules: map<string, Module>, s: Signal, c: Conjunction, signals: seq<Signal>, low: nat, high: nat)
    returns (r: Result<(seq<Signal>, nat, nat)>)
    requires Separate(modules) && s.dest in modules && modules[s.dest] == ConjunctionModule(c)
    modifies c
    ensures match Deliver(old(View(modules)), s)
      case Panic => r.Panic?
      case Ok((net', sent)) =>
        View(modules) == net' && r == Ok((signals + sent, low + Count(sent, Low), high + Count(sent, High)))
  {
    ghost var net := View(modules);
    assert net[s.dest] == ConjunctionV(c.outputs, c.memory);
    var res := PulseConjunction(modules, s.dest, c, s.source, s.pulse);
    if res.Panic? {
      return Panic;
    }
    assert Deliver(net, s) == Ok((View(modules), Emit(s.dest, c.outputs, res.value)));
    var signals', low', high' := EmitInPlace(signals, s.dest, c.outputs, res.value, low, high);
    return Ok((signals', low', high'));
  }

  /** Delivers one signal to its destination module in place: the module
      reacts as Deliver says, and what it sends is pushed at the back of the
      queue and counted. */
  method DeliverInPlace(modules: map<string, Module>, s: Signal, signals: seq<Signal>, low: nat, high: nat)
    returns (r: Result<(seq<Signal>, nat, nat)>)
    requires Separate(modules) && s.dest in modules
    modifies Footprint(modules[s.dest])
    ensures match Deliver(old(View(modules)), s)
      case Panic => r.Panic?
      case Ok((net', sent)) =>
        View(modules) == net' && r == Ok((signals + sent, low + Count(sent, Low), high + Count(sent, High)))
  {
    match modules[s.dest] {
      case FlipFlopModule(f) =>
        var signals', low', high' := DeliverToFlipFlop(modules, s, f, signals, low, high);
        return Ok((signals', low', high'));
      case ConjunctionModule(c) =>
        r := DeliverToConjunction(modules, s, c, signals, low, high);
      case Broadcaster(_) =>
        assert Deliver(View(modules), s) == Ok((View(modules), []));
        assert signals + [] == signals;
        return Ok((signals, low, high));
      case Output =>
        assert Deliver(View(modules), s) == Ok((View(modules), []));
        assert signals + [] == signals;
        return Ok((signals, low, high));
    }
  }

  /** Delivers the signal at the head of the queue in place: one step of
      Run, on the modules' values. The counters keep counting the button's
      pulse and every signal pushed so far. */
  method AdvanceInPlace(modules: map<string, Module>, ghost net: Network, signals: seq<Signal>, low: nat, high: nat,
                        ghost delivered: seq<Signal>, fuel: nat)
    returns (r: Result<(seq<Signal>, nat, nat)>)
    requires Separate(modules) && net == View(modules) && signals != [] && fuel > 0
    requires low == 1 + Count(delivered + signals, Low) && high == Count(delivered + signals, High)
    modifies Objects(modules)
    ensures r.Panic? ==> Run(net, signals, delivered, fuel) == Panicked
    ensures r.Ok? ==>
      && Run(net, signals, delivered, fuel) == Run(View(modules), r.value.0, delivered + [signals[0]], fuel - 1)
      && r.value.1 == 1 + Count(delivered + [signals[0]] + r.value.0, Low)
      && r.value.2 == Count(delivered + [signals[0]] + r.value.0, High)
  {
    var s := signals[0];
    DeliverPanics(net, s);
    if s.dest !in modules {
      RunStopsOnPanic(net, signals, delivered, fuel);
      return Panic;
    }
    FootprintInObjects(modules, s.dest);
    r := DeliverInPlace(modules, s, signals[1..], low, high);
    if r.Panic? {
      RunStopsOnPanic(net, signals, delivered, fuel);
      return;
    }
    RunAdvance(net, signals, delivered, fuel, View(modules), r.value.0);
    CountMoved(delivered, signals, Deliver(net, s).value.1, Low);
    CountMoved(delivered, signals, Deliver(net, s).value.1, High);
  }

  /** Delivers the queued signals one at a time until the queue is empty
      (the `while let` loop of the simulation): the result and the new state
      are those of Run on the modules' values. */
  method Propagate(modules: map<string, Module>, signals: seq<Signal>, low: nat, high: nat,
                   ghost delivered: seq<Signal>, fuel: nat)
    returns (r: PressCount)
    requires Separate(modules)
    requires low == 1 + Count(delivered + signals, Low) && high == Count(delivered + signals, High)
    modifies Objects(modules)
    ensures r == CountsOf(Run(old(View(modules)), signals, delivered, fuel))
    ensures r.Pressed? ==> View(modules) == Run(old(View(modules)), signals, delivered, fuel).net
  {
    ghost var target := Run(View(modules), signals, delivered, fuel);
    var queue, low', high', fuelLeft := signals, low, high, fuel;
    ghost var delivered' := delivered;
    ghost var net := View(modules);
    while queue != []
      invariant net == View(modules)
      invariant Run(net, queue, delivered', fuelLeft) == target
      invariant low' == 1 + Count(delivered' + queue, Low) && high' == Count(delivered' + queue, High)
      decreases fuelLeft
    {
      if fuelLeft == 0 {
        return PressOutOfFuel;
      }
      var step := AdvanceInPlace(modules, net, queue, low', high', delivered', fuelLeft);
      if step.Panic? {
        return PressPanicked;
      }
      delivered' := delivered' + [queue[0]];
      queue, low', high' := step.value.0, step.value.1, step.value.2;
      fuelLeft := fuelLeft - 1;
      net := View(modules);
    }
    assert delivered' + queue == delivered';
    return Pressed(low', high');
  }

  /** Presses the button once on the modules, updating flip-flops and
      conjunctions in place. The result and the new state are those of
      Press on the modules' values; at most `fuel` signals are delivered. */
  method SimulateButtonPress(modules: map<string, Module>, fuel: nat) returns (r: PressCount)
    requires Separate(modules)
    modifies Objects(modules)
    ensures r == CountsOf(Press(old(View(modules)), fuel))
    ensures r.Pressed? ==> View(modules) == Press(old(View(modules)), fuel).net
  {
    ghost var start := View(modules);
    if "broadcaster" !in modules || !modules["broadcaster"].Broadcaster? {
      return PressPanicked;
    }
    var outputs := modules["broadcaster"].outputs;
    var signals: seq<Signal>, low: nat, high: nat := Enqueue([], "broadcaster", outputs, Low, 1, 0);
    assert start == View(modules);
    assert start["broadcaster"] == BroadcasterV(outputs);
    assert signals == Send("broadcaster", outputs, Low);
    assert [] + signals == signals;
    CountSend("broadcaster", outputs, Low, Low);
    CountSend("broadcaster", outputs, Low, High);
    PressIsRun(start, fuel);
    assert Press(start, fuel) == Run(start, signals, [], fuel);
    r := Propagate(modules, signals, low, high, [], fuel);
  }
}
