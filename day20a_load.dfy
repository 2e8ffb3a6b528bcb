/** Loading the pulse network of day 20, part one: the modules the
    configuration lines declare, then an `Output` sink for every gate output
    that no line declares, then each conjunction's memory registering every
    gate that sends to it. */
module Day20aLoad {
  import opened Common
  import opened Day20Config
  import opened Day20a

  // ---------------------------------------------------------------------
  // The loaded network, as a value

  /** A freshly declared module: flip-flops start Off, conjunctions with an
      empty memory. */
  function Fresh(d: Decl): ModuleValue
  {
    match d.kind
    case FlipFlopKind => FlipFlopV(d.outputs, Off)
    case ConjunctionKind => ConjunctionV(d.outputs, map[])
    case BroadcasterKind => BroadcasterV(d.outputs)
  }

  /** The first pass: one module per declaration, in order, a later
      declaration of a name replacing the earlier one. */
  function Define(decls: seq<Decl>): Network
  {
    if decls == [] then map[]
    else Define(decls[..|decls| - 1])[decls[|decls| - 1].name := Fresh(decls[|decls| - 1])]
  }

  predicate IsGate(m: ModuleValue)
  {
    m.FlipFlopV? || m.ConjunctionV?
  }

  /** The flip-flops and conjunctions that list `o` among their outputs. */
  function Senders(net: Network, o: string): set<string>
  {
    SendersFrom(net, net.Keys, o)
  }

  /** Outputs of flip-flops and conjunctions that are not modules. */
  function Dangling(net: Network): set<string>
  {
    DanglingFrom(net, net.Keys)
  }

  /** The same, counting only the senders in `done`. */
  function SendersFrom(net: Network, done: set<string>, o: string): set<string>
  {
    set k | k in done && k in net && IsGate(net[k]) && o in net[k].outputs
  }

  function DanglingFrom(net: Network, done: set<string>): set<string>
  {
    set k, o | k in done && k in net && IsGate(net[k]) && o in net[k].outputs && o !in net :: o
  }

  /** The outputs of the flip-flops and conjunctions in `done`. */
  function TargetsFrom(net: Network, done: set<string>): set<string>
  {
    set k, o | k in done && k in net && IsGate(net[k]) && o in net[k].outputs :: o
  }

  /** The second and third passes: every dangling gate output becomes an
      Output sink, and every conjunction registers each of its senders as
      Off. */
  function Wire(net: Network): Network
  {
    map n | n in net.Keys + Dangling(net) ::
      if n !in net then OutputV
      else match net[n]
        case ConjunctionV(outputs, memory) =>
          ConjunctionV(outputs, memory + map s | s in Senders(net, n) :: Off)
        case m => m
  }

  /** The network the configuration declares. */
  function Load(decls: seq<Decl>): Network
  {
    Wire(Define(decls))
  }

  // ---------------------------------------------------------------------
  // What loading guarantees

  /** A declared name holds the module of its last declaration. */
  lemma {:induction false} DefineLastWins(decls: seq<Decl>, i: nat)
    requires i < |decls|
    requires forall j :: i < j < |decls| ==> decls[j].name != decls[i].name
    ensures decls[i].name in Define(decls) && Define(decls)[decls[i].name] == Fresh(decls[i])
  {
    var init := decls[..|decls| - 1];
    if i < |decls| - 1 {
      DefineLastWins(init, i);
    }
  }

  /** A name is defined exactly when some declaration names it. */
  lemma {:induction false} DefineNames(decls: seq<Decl>)
    ensures forall n :: n in Define(decls) <==> exists i :: 0 <= i < |decls| && decls[i].name == n
  {
    if decls != [] {
      var init := decls[..|decls| - 1];
      DefineNames(init);
      forall n | n in Define(decls)
        ensures exists i :: 0 <= i < |decls| && decls[i].name == n
      {
        if n != decls[|decls| - 1].name {
          assert n in Define(init);
          var i :| 0 <= i < |init| && init[i].name == n;
          assert decls[i] == init[i];
        }
      }
      forall n | exists i :: 0 <= i < |decls| && decls[i].name == n
        ensures n in Define(decls)
      {
        var i :| 0 <= i < |decls| && decls[i].name == n;
        if i < |init| {
          assert init[i] == decls[i];
        }
      }
    }
  }

  /** Every module the first pass defines is in its initial state. */
  predicate Initial(net: Network)
  {
    forall n :: n in net ==>
      (net[n].FlipFlopV? ==> net[n].state == Off) && (net[n].ConjunctionV? ==> net[n].memory == map[])
  }

  lemma {:induction false} DefineInitial(decls: seq<Decl>)
    ensures Initial(Define(decls))
  {
    if decls != [] {
      DefineInitial(decls[..|decls| - 1]);
    }
  }

  /** Wiring keeps every defined flip-flop and broadcaster, keeps every
      conjunction's outputs and registers exactly its senders in its
      memory, and adds Output sinks for the dangling names and nothing
      else. */
  lemma WireModules(net: Network)
    ensures Wire(net).Keys == net.Keys + Dangling(net)
    ensures forall n :: n in net && !net[n].ConjunctionV? ==> Wire(net)[n] == net[n]
    ensures forall n :: n in net && net[n].ConjunctionV? ==>
      Wire(net)[n] == ConjunctionV(net[n].outputs, net[n].memory + map s | s in Senders(net, n) :: Off)
    ensures forall n :: n in Dangling(net) ==> Wire(net)[n] == OutputV
  {
  }

  /** A loaded conjunction remembers Off for exactly the flip-flops and
      conjunctions that send to it. */
  lemma LoadedMemory(decls: seq<Decl>, n: string)
    requires n in Define(decls) && Define(decls)[n].ConjunctionV?
    ensures Load(decls)[n].ConjunctionV?
    ensures Load(decls)[n].memory.Keys == Senders(Define(decls), n)
    ensures forall s :: s in Load(decls)[n].memory ==> Load(decls)[n].memory[s] == Off
  {
    DefineInitial(decls);
    WireModules(Define(decls));
  }

  /** Every output of a loaded flip-flop or conjunction is a module. */
  lemma LoadedGateOutputs(net: Network)
    ensures forall k, o :: k in Wire(net) && IsGate(Wire(net)[k]) && o in Wire(net)[k].outputs ==> o in Wire(net)
  {
    WireModules(net);
    forall k, o | k in Wire(net) && IsGate(Wire(net)[k]) && o in Wire(net)[k].outputs
      ensures o in Wire(net)
    {
      assert k in net;
      if o !in net {
        assert o in Dangling(net);
      }
    }
  }

  /** Every broadcaster output is a module and none is a conjunction: the
      loader only registers flip-flops and conjunctions as senders, and
      adds sinks only for their outputs. */
  predicate BroadcastReachable(net: Network)
  {
    forall k, o :: k in net && net[k].BroadcasterV? && o in net[k].outputs ==> o in net && !net[o].ConjunctionV?
  }

  /** A loaded network is well wired exactly when its broadcaster sends to
      modules only, none of them a conjunction. */
  lemma LoadedWellWired(decls: seq<Decl>)
    ensures WellWired(Load(decls)) <==> BroadcastReachable(Load(decls))
  {
    var net := Define(decls);
    var w := Load(decls);
    DefineInitial(decls);
    WireModules(net);
    LoadedGateOutputs(net);
    forall k, o | k in w && o in OutputsOf(w[k]) && o in w && w[o].ConjunctionV?
      ensures IsGate(w[k]) <==> k in w[o].memory
    {
      assert o in net;
      if IsGate(w[k]) {
        assert k in net && IsGate(net[k]);
        assert k in Senders(net, o);
      }
    }
  }

  // ---------------------------------------------------------------------
  // Loading, in place

  /** Inserts a new object for the declaration under its name; the view
      changes at that name only. */
  method Insert(modules: map<string, Module>, ghost net: Network, d: Decl)
    returns (modules': map<string, Module>, ghost added: set<object>)
    requires Separate(modules) && net == View(modules)
    ensures Separate(modules')
    ensures fresh(added) && Objects(modules') <= Objects(modules) + added
    ensures View(modules') == net[d.name := Fresh(d)]
  {
    var m: Module;
    match d.kind {
      case FlipFlopKind =>
        var f := new FlipFlop(d.name, d.outputs);
        m, added := FlipFlopModule(f), {f};
      case ConjunctionKind =>
        var c := new Conjunction(d.name, d.outputs);
        m, added := ConjunctionModule(c), {c};
      case BroadcasterKind =>
        m, added := Broadcaster(d.outputs), {};
    }
    assert Value(m) == Fresh(d);
    forall k | k in modules
      ensures Value(modules[k]) == net[k]
      ensures Footprint(modules[k]) !! Footprint(m)
    {
      assert Value(modules[k]) == old(Value(modules[k]));
      assert Footprint(m) <= added;
    }
    SeparateInsert(modules, d.name, m);
    modules' := modules[d.name := m];
  }

  lemma SeparateInsert(modules: map<string, Module>, k: string, m: Module)
    requires Separate(modules)
    requires forall k' :: k' in modules ==> Footprint(modules[k']) !! Footprint(m)
    ensures Separate(modules[k := m])
  {
  }

  lemma DefineSnoc(decls: seq<Decl>, d: Decl)
    ensures Define(decls + [d]) == Define(decls)[d.name := Fresh(d)]
  {
    assert (decls + [d])[..|decls|] == decls;
  }

  /** The first pass: parses each line in turn and inserts its module; the
      first line that does not parse panics. */
  method DefineModules(lines: seq<string>) returns (r: Result<map<string, Module>>)
    ensures r.Panic? <==> Parse(lines).Panic?
    ensures r.Ok? ==> Separate(r.value) && fresh(Objects(r.value))
    ensures r.Ok? ==> View(r.value) == Define(Parse(lines).value)
  {
    var modules: map<string, Module> := map[];
    ghost var objects: set<object> := {};
    assert lines[..0] == [];
    for i := 0 to |lines|
      invariant forall j :: 0 <= j < i ==> ParseLine(lines[j]).Ok?
      invariant Parse(lines[..i]).Ok?
      invariant Separate(modules) && Objects(modules) <= objects && fresh(objects)
      invariant View(modules) == Define(Parse(lines[..i]).value)
    {
      match ParseLine(lines[i]) {
        case Panic =>
          return Panic;
        case Ok(d) =>
          ParseGrow(lines, i);
          var decls := Parse(lines[..i]).value;
          DefineSnoc(decls, d);
          assert Parse(lines[..i + 1]).value == decls + [d];
          ghost var added;
          modules, added := Insert(modules, View(modules), d);
          objects := objects + added;
      }
    }
    assert lines[..|lines|] == lines;
    return Ok(modules);
  }

  // What the second pass has gathered after visiting the names `done`:
  // an Output sink for each dangling output of a visited gate, and for
  // each output of a visited gate the visited gates that send to it.

  function Elems(s: seq<string>): set<string>
  {
    set x | x in s
  }

  lemma ElemsSnoc(s: seq<string>, x: string)
    ensures Elems(s + [x]) == Elems(s) + {x}
  {
  }

  predicate Collected(net: Network, done: set<string>, additions: seq<string>, inputs: map<string, seq<string>>)
  {
    && Elems(additions) == DanglingFrom(net, done)
    && inputs.Keys == TargetsFrom(net, done)
    && forall o :: o in inputs ==> Elems(inputs[o]) == SendersFrom(net, done, o)
  }

  /** `inputs` is `before` with `name` appended to the list of each name in
      `seen`. */
  predicate Appended(before: map<string, seq<string>>, inputs: map<string, seq<string>>, name: string, seen: seq<string>)
  {
    && inputs.Keys == before.Keys + Elems(seen)
    && forall o :: o in inputs ==>
      Elems(inputs[o]) == (if o in before then Elems(before[o]) else {}) + (if o in seen then {name} else {})
  }

  lemma AppendedStep(before: map<string, seq<string>>, inputs: map<string, seq<string>>, name: string, seen: seq<string>, o: string)
    requires Appended(before, inputs, name, seen)
    ensures Appended(before, inputs[o := (if o in inputs then inputs[o] else []) + [name]], name, seen + [o])
  {
    ElemsSnoc(seen, o);
    ElemsSnoc(if o in inputs then inputs[o] else [], name);
  }

  lemma AddedStep(additions0: seq<string>, additions: seq<string>, keys: set<string>, seen: seq<string>, o: string)
    requires Elems(additions) == Elems(additions0) + (Elems(seen) - keys)
    ensures o !in keys ==> Elems(additions + [o]) == Elems(additions0) + (Elems(seen + [o]) - keys)
    ensures o in keys ==> Elems(additions) == Elems(additions0) + (Elems(seen + [o]) - keys)
  {
    ElemsSnoc(seen, o);
    ElemsSnoc(additions, o);
  }

  /** Visits the outputs of the gate `name`: each output that is not a
      module is queued as a new Output sink, and `name` is appended to each
      output's list of inputs. */
  method CollectOutputs(keys: set<string>, name: string, outputs: seq<string>,
                        additions: seq<string>, inputs: map<string, seq<string>>)
    returns (additions': seq<string>, inputs': map<string, seq<string>>)
    ensures Elems(additions') == Elems(additions) + (Elems(outputs) - keys)
    ensures Appended(inputs, inputs', name, outputs)
  {
    additions', inputs' := additions, inputs;
    assert outputs[..0] == [];
    for i := 0 to |outputs|
      invariant Elems(additions') == Elems(additions) + (Elems(outputs[..i]) - keys)
      invariant Appended(inputs, inputs', name, outputs[..i])
    {
      var o := outputs[i];
      assert outputs[..i + 1] == outputs[..i] + [o];
      AddedStep(additions, additions', keys, outputs[..i], o);
      AppendedStep(inputs, inputs', name, outputs[..i], o);
      if o !in keys {
        additions' := additions' + [o];
      }
      var listed := if o in inputs' then inputs'[o] else [];
      inputs' := inputs'[o := listed + [name]];
    }
    assert outputs[..|outputs|] == outputs;
  }

  /** Visiting one more name adds its outputs, if it is a gate. */
  lemma FromStep(net: Network, done: set<string>, name: string, o: string)
    requires name in net
    ensures IsGate(net[name]) ==> DanglingFrom(net, done + {name}) == DanglingFrom(net, done) + (Elems(net[name].outputs) - net.Keys)
    ensures IsGate(net[name]) ==> TargetsFrom(net, done + {name}) == TargetsFrom(net, done) + Elems(net[name].outputs)
    ensures IsGate(net[name]) ==> SendersFrom(net, done + {name}, o) == SendersFrom(net, done, o) + (if o in net[name].outputs then {name} else {})
    ensures !IsGate(net[name]) ==> DanglingFrom(net, done + {name}) == DanglingFrom(net, done)
    ensures !IsGate(net[name]) ==> TargetsFrom(net, done + {name}) == TargetsFrom(net, done)
    ensures !IsGate(net[name]) ==> SendersFrom(net, done + {name}, o) == SendersFrom(net, done, o)
  {
  }

  lemma CollectedStep(net: Network, done: set<string>, name: string,
                      additions: seq<string>, inputs: map<string, seq<string>>,
                      additions': seq<string>, inputs': map<string, seq<string>>)
    requires name in net && Collected(net, done, additions, inputs)
    requires IsGate(net[name]) ==>
      Elems(additions') == Elems(additions) + (Elems(net[name].outputs) - net.Keys) && Appended(inputs, inputs', name, net[name].outputs)
    requires !IsGate(net[name]) ==> additions' == additions && inputs' == inputs
    ensures Collected(net, done + {name}, additions', inputs')
  {
    FromStep(net, done, name, name);
    forall o | o in inputs'
      ensures Elems(inputs'[o]) == SendersFrom(net, done + {name}, o)
    {
      FromStep(net, done, name, o);
    }
  }

  /** The second pass: visits every module once, in any order, gathering
      the dangling outputs of flip-flops and conjunctions and, for every
      output, the flip-flops and conjunctions that send to it. */
  method CollectEdges(modules: map<string, Module>, ghost net: Network)
    returns (additions: seq<string>, inputs: map<string, seq<string>>)
    requires net == View(modules)
    ensures Collected(net, net.Keys, additions, inputs)
    ensures View(modules) == net
  {
    additions, inputs := [], map[];
    var remaining := modules.Keys;
    ghost var done: set<string> := {};
    while remaining != {}
      invariant remaining + done == net.Keys && remaining !! done
      invariant Collected(net, done, additions, inputs)
      decreases remaining
    {
      var name :| name in remaining;
      var additions', inputs' := additions, inputs;
      match modules[name] {
        case FlipFlopModule(f) =>
          assert net[name].outputs == f.outputs;
          additions', inputs' := CollectOutputs(modules.Keys, name, f.outputs, additions, inputs);
        case ConjunctionModule(c) =>
          assert net[name].outputs == c.outputs;
          additions', inputs' := CollectOutputs(modules.Keys, name, c.outputs, additions, inputs);
        case _ =>
      }
      CollectedStep(net, done, name, additions, inputs, additions', inputs');
      additions, inputs := additions', inputs';
      remaining, done := remaining - {name}, done + {name};
    }
  }

  /** Output sinks hold no object: adding them keeps the modules separate
      and adds OutputV values to the view. */
  lemma ExtendView(modules: map<string, Module>, extra: set<string>)
    requires Separate(modules)
    ensures Separate(modules + map o | o in extra :: Output)
    ensures Objects(modules + map o | o in extra :: Output) <= Objects(modules)
    ensures View(modules + map o | o in extra :: Output) == View(modules) + map o | o in extra :: OutputV
  {
    var m := modules + map o | o in extra :: Output;
    forall k | k in m
      ensures k in extra ==> m[k] == Output
      ensures k !in extra ==> m[k] == modules[k]
    {
    }
  }

  /** The view after the third pass has registered the inputs of the names
      in `done`. */
  function Registered(net: Network, inputs: map<string, seq<string>>, done: set<string>): Network
  {
    map n | n in net ::
      if n in done && n in inputs && net[n].ConjunctionV? then
        ConjunctionV(net[n].outputs, net[n].memory + map s | s in inputs[n] :: Off)
      else net[n]
  }

  lemma RegisteredStep(net: Network, inputs: map<string, seq<string>>, done: set<string>, name: string)
    requires name in net && name in inputs && name !in done
    ensures net[name].ConjunctionV? ==>
      Registered(net, inputs, done + {name}) ==
        Registered(net, inputs, done)[name := ConjunctionV(net[name].outputs, net[name].memory + map s | s in inputs[name] :: Off)]
    ensures !net[name].ConjunctionV? ==> Registered(net, inputs, done + {name}) == Registered(net, inputs, done)
  {
  }

  /** Registers the inputs of the conjunction under `k`; the view changes at
      `k` only. */
  method AddInputsAt(modules: map<string, Module>, k: string, c: Conjunction, inputs: seq<string>)
    requires Separate(modules) && k in modules && modules[k] == ConjunctionModule(c)
    modifies c
    ensures c.memory == old(c.memory) + map n | n in inputs :: Off
    ensures View(modules) == old(View(modules))[k := ConjunctionV(c.outputs, c.memory)]
  {
    c.AddInputs(inputs);
    forall k' | k' in modules && k' != k
      ensures Value(modules[k']) == old(Value(modules[k']))
    {
      assert Footprint(modules[k']) !! Footprint(modules[k]);
    }
  }

  /** Registers the inputs listed for `name`, if it is a conjunction. */
  method RegisterOne(modules: map<string, Module>, ghost net: Network, inputs: map<string, seq<string>>,
                     ghost done: set<string>, name: string)
    requires Separate(modules) && name in modules && name in inputs && name !in done
    requires net.Keys == modules.Keys && View(modules) == Registered(net, inputs, done)
    modifies Objects(modules)
    ensures View(modules) == Registered(net, inputs, done + {name})
  {
    RegisteredStep(net, inputs, done, name);
    match modules[name] {
      case ConjunctionModule(c) =>
        FootprintInObjects(modules, name);
        AddInputsAt(modules, name, c, inputs[name]);
      case _ =>
    }
  }

  /** The third pass: for every output with senders, in any order, the
      module of that name is looked up (a missing one panics) and, when it
      is a conjunction, registers the senders. Returns false for the
      panic. */
  method RegisterInputs(modules: map<string, Module>, inputs: map<string, seq<string>>) returns (ok: bool)
    requires Separate(modules)
    modifies Objects(modules)
    ensures ok <==> inputs.Keys <= modules.Keys
    ensures ok ==> View(modules) == Registered(old(View(modules)), inputs, inputs.Keys)
  {
    ghost var net := View(modules);
    var remaining := inputs.Keys;
    ghost var done: set<string> := {};
    while remaining != {}
      invariant remaining + done == inputs.Keys && remaining !! done
      invariant done <= modules.Keys
      invariant View(modules) == Registered(net, inputs, done)
      decreases remaining
    {
      var name :| name in remaining;
      if name !in modules {
        return false;
      }
      RegisterOne(modules, net, inputs, done, name);
      remaining, done := remaining - {name}, done + {name};
    }
    return true;
  }

  /** Every name with senders is a module once the sinks are added. */
  lemma InputsCovered(net: Network, additions: seq<string>, inputs: map<string, seq<string>>)
    requires Collected(net, net.Keys, additions, inputs)
    ensures inputs.Keys <= net.Keys + Elems(additions)
  {
    forall o | o in inputs
      ensures o in net || o in Elems(additions)
    {
      assert o in TargetsFrom(net, net.Keys);
      if o !in net {
        assert o in DanglingFrom(net, net.Keys);
      }
    }
  }

  /** A conjunction's registered inputs are its senders. */
  lemma InputsAreSenders(net: Network, additions: seq<string>, inputs: map<string, seq<string>>, n: string)
    requires Collected(net, net.Keys, additions, inputs) && n in net
    ensures (map s | s in Senders(net, n) :: Off) == if n in inputs then map s | s in inputs[n] :: Off else map[]
  {
  }

  lemma PassesWireAt(net: Network, additions: seq<string>, inputs: map<string, seq<string>>, n: string)
    requires Collected(net, net.Keys, additions, inputs) && n in net
    ensures Registered(net + map o | o in Elems(additions) :: OutputV, inputs, inputs.Keys)[n] == Wire(net)[n]
  {
    InputsAreSenders(net, additions, inputs, n);
    var extended := net + map o | o in Elems(additions) :: OutputV;
    assert extended[n] == net[n];
    if net[n].ConjunctionV? {
      assert Wire(net)[n] == ConjunctionV(net[n].outputs, net[n].memory + map s | s in Senders(net, n) :: Off);
      if n !in inputs {
        assert net[n].memory + map[] == net[n].memory;
      }
    }
  }

  lemma PassesWireKeys(net: Network, additions: seq<string>, inputs: map<string, seq<string>>)
    requires Collected(net, net.Keys, additions, inputs)
    ensures Registered(net + map o | o in Elems(additions) :: OutputV, inputs, inputs.Keys).Keys == Wire(net).Keys
  {
    WireModules(net);
  }

  lemma PassesWireSink(net: Network, additions: seq<string>, inputs: map<string, seq<string>>, n: string)
    requires Collected(net, net.Keys, additions, inputs) && n !in net && n in Wire(net)
    ensures n in Elems(additions)
    ensures Registered(net + map o | o in Elems(additions) :: OutputV, inputs, inputs.Keys)[n] == Wire(net)[n]
  {
    WireModules(net);
  }

  /** The three passes together compute Wire. */
  lemma PassesWire(net: Network, additions: seq<string>, inputs: map<string, seq<string>>)
    requires Collected(net, net.Keys, additions, inputs)
    ensures Registered(net + map o | o in Elems(additions) :: OutputV, inputs, inputs.Keys) == Wire(net)
  {
    var r := Registered(net + map o | o in Elems(additions) :: OutputV, inputs, inputs.Keys);
    var w := Wire(net);
    PassesWireKeys(net, additions, inputs);
    forall n | n in w
      ensures r[n] == w[n]
    {
      if n in net {
        PassesWireAt(net, additions, inputs, n);
      } else {
        PassesWireSink(net, additions, inputs, n);
      }
    }
  }

  /** Rust's `load_modules`: the three passes over the configuration
      lines. It panics exactly when some line does not parse, and otherwise
      returns separate new objects whose values are the loaded network. */
  method LoadModules(lines: seq<string>) returns (r: Result<map<string, Module>>)
    ensures r.Panic? <==> Parse(lines).Panic?
    ensures r.Ok? ==> Separate(r.value) && fresh(Objects(r.value))
    ensures r.Ok? ==> View(r.value) == Load(Parse(lines).value)
  {
    var defined := DefineModules(lines);
    if defined.Panic? {
      return Panic;
    }
    var modules := defined.value;
    ghost var net := View(modules);
    assert net == Define(Parse(lines).value);
    var additions, inputs := CollectEdges(modules, net);
    ExtendView(modules, Elems(additions));
    modules := modules + map o | o in Elems(additions) :: Output;
    ghost var extended := View(modules);
    InputsCovered(net, additions, inputs);
    PassesWire(net, additions, inputs);
    var ok := RegisterInputs(modules, inputs);
    assert ok;
    assert View(modules) == Registered(extended, inputs, inputs.Keys);
    r := Ok(modules);
  }
}
