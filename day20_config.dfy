/** The configuration format of the pulse network, shared by both parts of
    day 20: one module per line, `<name> -> <output>, <output>, ...`, where
    the name is `%x` for a flip-flop, `&x` for a conjunction or the literal
    `broadcaster`. */
module Day20Config {
  import opened Common

  datatype Kind = FlipFlopKind | ConjunctionKind | BroadcasterKind

  /** One configuration line, parsed: the module's kind, its name with the
      kind prefix stripped, and its outputs in listed order. */
  datatype Decl = Decl(kind: Kind, name: string, outputs: seq<string>)

  /** Classifies the text before " -> " by its prefix. */
  function ParseName(name: string): (r: Result<(Kind, string)>)
    ensures r.Ok? && r.value.0 == FlipFlopKind <==> |name| > 0 && name[0] == '%'
    ensures r.Ok? && r.value.0 == ConjunctionKind <==> |name| > 0 && name[0] == '&'
    ensures r.Ok? && r.value.0 == BroadcasterKind <==> name == "broadcaster"
    ensures r.Ok? && r.value.0 != BroadcasterKind ==> |name| > 0 && r.value.1 == name[1..]
    ensures r.Ok? && r.value.0 == BroadcasterKind ==> r.value.1 == name
  {
    if |name| > 0 && name[0] == '%' then Ok((FlipFlopKind, name[1..]))
    else if |name| > 0 && name[0] == '&' then Ok((ConjunctionKind, name[1..]))
    else if name == "broadcaster" then Ok((BroadcasterKind, name))
    else Panic
  }

  /** Parses one line; a line without " -> " or with an unknown name
      panics. */
  function ParseLine(line: string): Result<Decl>
  {
    match SplitOnce(line, " -> ")
    case None => Panic
    case Some((name, rest)) =>
      match ParseName(name)
      case Panic => Panic
      case Ok((kind, n)) => Ok(Decl(kind, n, Split(rest, ", ")))
  }

  /** Parses every line, in order: the declarations when every line parses,
      otherwise a panic. */
  function Parse(lines: seq<string>): (r: Result<seq<Decl>>)
    ensures r.Ok? <==> forall i :: 0 <= i < |lines| ==> ParseLine(lines[i]).Ok?
    ensures r.Ok? ==> |r.value| == |lines|
    ensures r.Ok? ==> forall i :: 0 <= i < |lines| ==> r.value[i] == ParseLine(lines[i]).value
  {
    Collect(ParseEach(lines))
  }

  /** Each line parsed on its own. */
  function ParseEach(lines: seq<string>): (r: seq<Result<Decl>>)
    ensures |r| == |lines| && forall i :: 0 <= i < |lines| ==> r[i] == ParseLine(lines[i])
  {
    seq(|lines|, i requires 0 <= i < |lines| => ParseLine(lines[i]))
  }

  /** Parsing one line more extends the declarations by that line's. */
  lemma ParseGrow(lines: seq<string>, i: nat)
    requires i < |lines| && forall j :: 0 <= j <= i ==> ParseLine(lines[j]).Ok?
    ensures Parse(lines[..i]).Ok? && Parse(lines[..i + 1]).Ok?
    ensures Parse(lines[..i + 1]).value == Parse(lines[..i]).value + [ParseLine(lines[i]).value]
  {
    var each := ParseEach(lines);
    assert ParseEach(lines[..i]) == each[..i];
    assert ParseEach(lines[..i + 1]) == each[..i + 1];
    CollectGrow(each, i);
  }

  /** The name as written on its line, with the kind prefix. */
  function Prefixed(d: Decl): string
  {
    match d.kind
    case FlipFlopKind => "%" + d.name
    case ConjunctionKind => "&" + d.name
    case BroadcasterKind => d.name
  }

  /** The line a declaration comes from. */
  function Render(d: Decl): string
  {
    Prefixed(d) + " -> " + Join(d.outputs, ", ")
  }

  /** A declaration that some line renders: a broadcaster is named
      `broadcaster`, no name contains a space, '-' or '>', there is at least
      one output and no output contains ',' or a space. */
  predicate Renderable(d: Decl)
  {
    && (d.kind == BroadcasterKind ==> d.name == "broadcaster")
    && Avoids(d.name, " -> ")
    && |d.outputs| >= 1
    && forall k :: 0 <= k < |d.outputs| ==> Avoids(d.outputs[k], ", ")
  }

  lemma PrefixedAvoids(d: Decl)
    requires Avoids(d.name, " -> ")
    ensures Avoids(Prefixed(d), " -> ")
  {
    var name := Prefixed(d);
    forall i | 0 <= i < |name|
      ensures name[i] !in " -> "
    {
      if d.kind != BroadcasterKind && i > 0 {
        assert name[i] == d.name[i - 1];
      }
    }
  }

  /** Parsing a rendered declaration gives it back. */
  lemma ParseRender(d: Decl)
    requires Renderable(d)
    ensures ParseLine(Render(d)) == Ok(d)
  {
    PrefixedAvoids(d);
    SplitOnceAfter(Prefixed(d), " -> ", Join(d.outputs, ", "));
    SplitJoin(d.outputs, ", ");
    if d.kind != BroadcasterKind {
      assert Prefixed(d)[1..] == d.name;
    }
  }
}
