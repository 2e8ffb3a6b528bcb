/** Loading the pulse network of day 20, part two, where the modules carry
    only their wiring: the modules the configuration lines declare, then an
    `Output` sink for every output of a flip-flop or conjunction that no
    line declares. */
module Day20b {
  import opened Common
  import opened Day20Config

  datatype Module =
    | FlipFlop(outputs: seq<string>)
    | Conjunction(outputs: seq<string>)
    | Broadcaster(outputs: seq<string>)
    | Output

  /** The module a declaration defines. */
  function Declared(d: Decl): (m: Module)
    ensures m.FlipFlop? <==> d.kind == FlipFlopKind
    ensures m.Conjunction? <==> d.kind == ConjunctionKind
    ensures m.Broadcaster? <==> d.kind == BroadcasterKind
    ensures !m.Output? && m.outputs == d.outputs
  {
    match d.kind
    case FlipFlopKind => FlipFlop(d.outputs)
    case ConjunctionKind => Conjunction(d.outputs)
    case BroadcasterKind => Broadcaster(d.outputs)
  }

  /** The first pass: one module per declaration, in order, a later
      declaration of a name replacing the earlier one. */
  function Define(decls: seq<Decl>): map<string, Module>
  {
    if decls == [] then map[]
    else Define(decls[..|decls| - 1])[decls[|decls| - 1].name := Declared(decls[|decls| - 1])]
  }

  predicate IsGate(m: Module)
  {
    m.FlipFlop? || m.Conjunction?
  }

  /** Outputs of the gates among `done` that are not modules. */
  function DanglingFrom(modules: map<string, Module>, done: set<string>): set<string>
  {
    set k, o | k in done && k in modules && IsGate(modules[k]) && o in modules[k].outputs && o !in modules :: o
  }

  /** Outputs of flip-flops and conjunctions that are not modules. */
  function Dangling(modules: map<string, Module>): set<string>
  {
    DanglingFrom(modules, modules.Keys)
  }

  /** The second pass: every dangling gate output becomes an Output sink. */
  function AddSinks(modules: map<string, Module>): map<string, Module>
  {
    modules + map o | o in Dangling(modules) :: Output
  }

  /** The network the configuration declares. */
  function Load(decls: seq<Decl>): map<string, Module>
  {
    AddSinks(Define(decls))
  }

  // ---------------------------------------------------------------------
  // What loading guarantees

  /** A declared name holds the module of its last declaration. */
  lemma {:induction false} DefineLastWins(decls: seq<Decl>, i: nat)
    requires i < |decls|
    requires forall j :: i < j < |decls| ==> decls[j].name != decls[i].name
    ensures decls[i].name in Define(decls) && Define(decls)[decls[i].name] == Declared(decls[i])
  {
    var init := decls[..|decls| - 1];
    if i < |decls| - 1 {
      DefineLastWins(init, i);
    }
  }

  /** A name is defined exactly when some declaration names it. */
  lemma {:induction false} DefineNames(decls: seq<Decl>)
    ensures forall n :: n in Define(decls) <==> exists i :: 0 <= i < |decls| && decls[i].name == n
  {
    if decls != [] {
      var init := decls[..|decls| - 1];
      DefineNames(init);
      forall n | n in Define(decls)
        ensures exists i :: 0 <= i < |decls| && decls[i].name == n
      {
        if n != decls[|decls| - 1].name {
          assert n in Define(init);
          var i :| 0 <= i < |init| && init[i].name == n;
          assert decls[i] == init[i];
        }
      }
      forall n | exists i :: 0 <= i < |decls| && decls[i].name == n
        ensures n in Define(decls)
      {
        var i :| 0 <= i < |decls| && decls[i].name == n;
        if i < |init| {
          assert init[i] == decls[i];
        }
      }
    }
  }

  /** The first pass never defines an Output. */
  lemma {:induction false} DefineHasNoOutput(decls: seq<Decl>)
    ensures forall n :: n in Define(decls) ==> !Define(decls)[n].Output?
  {
    if decls != [] {
      DefineHasNoOutput(decls[..|decls| - 1]);
    }
  }

  /** Adding the sinks replaces no defined module. */
  lemma LoadKeepsDefined(decls: seq<Decl>, n: string)
    requires n in Define(decls)
    ensures n in Load(decls) && Load(decls)[n] == Define(decls)[n]
  {
  }

  /** The names added are exactly the dangling gate outputs, and each is an
      Output sink. */
  lemma LoadAddsSinks(decls: seq<Decl>, n: string)
    requires n in Load(decls) && n !in Define(decls)
    ensures Load(decls)[n] == Output
    ensures exists k :: k in Define(decls) && IsGate(Define(decls)[k]) && n in Define(decls)[k].outputs
  {
  }

  /** After loading, every output of a flip-flop or conjunction is a
      module. */
  lemma LoadClosed(decls: seq<Decl>, k: string, o: string)
    requires k in Load(decls) && IsGate(Load(decls)[k]) && o in Load(decls)[k].outputs
    ensures o in Load(decls)
  {
    var defined := Define(decls);
    if o !in defined {
      assert k in defined;
      assert o in Dangling(defined);
    }
  }

  /** A line that renders a declaration, and that no later line redefines,
      loads as a module of that kind with the outputs in listed order. */
  lemma LoadedLine(lines: seq<string>, i: nat, d: Decl)
    requires Parse(lines).Ok? && i < |lines|
    requires Renderable(d) && lines[i] == Render(d)
    requires forall j :: i < j < |lines| ==> Parse(lines).value[j].name != d.name
    ensures d.name in Load(Parse(lines).value) && Load(Parse(lines).value)[d.name] == Declared(d)
  {
    ParseRender(d);
    DefineLastWins(Parse(lines).value, i);
  }

  // ---------------------------------------------------------------------
  // Loading in place

  /** The first pass over the lines, inserting each declared module into the
      map; an unparsable line panics. */
  method DefineModules(lines: seq<string>) returns (r: Result<map<string, Module>>)
    ensures r.Panic? <==> Parse(lines).Panic?
    ensures r.Ok? ==> r.value == Define(Parse(lines).value)
  {
    var modules: map<string, Module> := map[];
    assert lines[..0] == [];
    for i := 0 to |lines|
      invariant forall j :: 0 <= j < i ==> ParseLine(lines[j]).Ok?
      invariant Parse(lines[..i]).Ok? && modules == Define(Parse(lines[..i]).value)
    {
      match ParseLine(lines[i]) {
        case Panic =>
          return Panic;
        case Ok(d) =>
          ParseGrow(lines, i);
          assert Parse(lines[..i + 1]).value[..i] == Parse(lines[..i]).value;
          modules := modules[d.name := Declared(d)];
      }
    }
    assert lines[..|lines|] == lines;
    r := Ok(modules);
  }

  function Elems(s: seq<string>): set<string>
  {
    set x | x in s
  }

  /** Queues each output of a gate that is not a module. */
  method CollectDangling(keys: set<string>, outputs: seq<string>, found: seq<string>) returns (found': seq<string>)
    ensures Elems(found') == Elems(found) + (Elems(outputs) - keys)
  {
    found' := found;
    for i := 0 to |outputs|
      invariant Elems(found') == Elems(found) + (Elems(outputs[..i]) - keys)
    {
      assert Elems(outputs[..i + 1]) == Elems(outputs[..i]) + {outputs[i]} by {
        assert outputs[..i + 1] == outputs[..i] + [outputs[i]];
      }
      if outputs[i] !in keys {
        found' := found' + [outputs[i]];
        assert Elems(found') == Elems(found' [..|found'| - 1]) + {outputs[i]};
      }
    }
    assert outputs[..|outputs|] == outputs;
  }

  /** Visiting one more name adds its dangling outputs, if it is a gate. */
  lemma DanglingStep(modules: map<string, Module>, done: set<string>, name: string)
    requires name in modules
    ensures IsGate(modules[name]) ==>
      DanglingFrom(modules, done + {name}) == DanglingFrom(modules, done) + (Elems(modules[name].outputs) - modules.Keys)
    ensures !IsGate(modules[name]) ==> DanglingFrom(modules, done + {name}) == DanglingFrom(modules, done)
  {
  }

  /** The second pass: visits every module once, in any order, and adds an
      Output sink for every output of a flip-flop or conjunction that is not
      a module. */
  method InsertSinks(modules: map<string, Module>) returns (modules': map<string, Module>)
    ensures modules' == AddSinks(modules)
  {
    var found: seq<string> := [];
    var remaining := modules.Keys;
    ghost var done: set<string> := {};
    while remaining != {}
      invariant remaining + done == modules.Keys && remaining !! done
      invariant Elems(found) == DanglingFrom(modules, done)
      decreases remaining
    {
      var name :| name in remaining;
      DanglingStep(modules, done, name);
      match modules[name] {
        case FlipFlop(outputs) =>
          found := CollectDangling(modules.Keys, outputs, found);
        case Conjunction(outputs) =>
          found := CollectDangling(modules.Keys, outputs, found);
        case _ =>
      }
      remaining, done := remaining - {name}, done + {name};
    }
    modules' := modules + map o | o in Elems(found) :: Output;
  }

  /** Rust's `load_modules`. */
  method LoadModules(lines: seq<string>) returns (r: Result<map<string, Module>>)
    ensures r.Panic? <==> Parse(lines).Panic?
    ensures r.Ok? ==> r.value == Load(Parse(lines).value)
  {
    var defined := DefineModules(lines);
    if defined.Panic? {
      return Panic;
    }
    var modules := InsertSinks(defined.value);
    r := Ok(modules);
  }
}
