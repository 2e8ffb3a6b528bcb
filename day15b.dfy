/** Day 15, part two: the steps of the initialization sequence arrange
    lenses in 256 boxes. A step `label-` takes the lens with that label out
    of box HASH(label); a step `label=f` replaces the focal length of the
    lens with that label there, or puts a new lens at the back. The answer
    is the focusing power of the arrangement. */
module Day15b {
  import opened Common
  import Day15a

  /** A lens; `name` is the source's `label` field. */
  datatype Lens = Lens(name: string, focal_length: nat)

  type Boxes = seq<seq<Lens>>

  /** `char::is_alphabetic`, for ASCII text. */
  predicate IsAlpha(c: char)
  {
    'a' <= c <= 'z' || 'A' <= c <= 'Z'
  }

  /** `take_while(is_alphabetic)`: the longest prefix of letters. */
  function Label(text: string): (r: string)
    ensures |r| <= |text| && r == text[..|r|]
    ensures forall i :: 0 <= i < |r| ==> IsAlpha(r[i])
    ensures |r| < |text| ==> !IsAlpha(text[|r|])
  {
    if text == [] || !IsAlpha(text[0]) then [] else [text[0]] + Label(text[1..])
  }

  /** `filter(is_numeric)`: the digits of the text, in order. */
  function Digits(text: string): (r: string)
    ensures AllDigits(r) && |r| <= |text|
  {
    if text == [] then []
    else if IsDigit(text[0]) then [text[0]] + Digits(text[1..])
    else Digits(text[1..])
  }

  /** The text's digits parsed as a `usize`, with `unwrap`. */
  function FocalLength(text: string): Result<nat>
  {
    ParseUnsigned(Digits(text), UsizeLimit)
  }

  // ---------------------------------------------------------------------
  // One box

  /** The slot of the first lens with the label. */
  function FirstWith(lenses: seq<Lens>, name: string): (r: Option<nat>)
    ensures r.Some? ==> r.value < |lenses| && lenses[r.value].name == name
    ensures r.Some? ==> forall k :: 0 <= k < r.value ==> lenses[k].name != name
    ensures r.None? ==> forall k :: 0 <= k < |lenses| ==> lenses[k].name != name
  {
    if lenses == [] then None
    else if lenses[0].name == name then Some(0)
    else match FirstWith(lenses[1..], name)
      case None => None
      case Some(k) => Some(k + 1)
  }

  /** `retain(|lens| lens.label != label)`. */
  function Without(lenses: seq<Lens>, name: string): (r: seq<Lens>)
    ensures forall k :: 0 <= k < |r| ==> r[k].name != name
  {
    if lenses == [] then []
    else if lenses[0].name == name then Without(lenses[1..], name)
    else [lenses[0]] + Without(lenses[1..], name)
  }

  /** A `label=f` step on its box: the lens with the label gets the new
      focal length in its slot; without one, a lens goes at the back. */
  function Put(lenses: seq<Lens>, name: string, f: nat): seq<Lens>
  {
    match FirstWith(lenses, name)
    case Some(k) => lenses[k := lenses[k].(focal_length := f)]
    case None => lenses + [Lens(name, f)]
  }

  /** The focal length of the first lens with the label: the box seen as a
      table from labels to focal lengths. */
  function Lookup(lenses: seq<Lens>, name: string): (r: Option<nat>)
    ensures r.None? <==> FirstWith(lenses, name).None?
  {
    match FirstWith(lenses, name)
    case Some(k) => Some(lenses[k].focal_length)
    case None => None
  }

  /** No two lenses of the box share a label. */
  predicate Distinct(lenses: seq<Lens>)
  {
    forall a, b :: 0 <= a < b < |lenses| ==> lenses[a].name != lenses[b].name
  }

  /** `retain` keeps exactly the lenses with other labels... */
  lemma {:induction false} WithoutKeeps(lenses: seq<Lens>, name: string)
    ensures forall x :: x in Without(lenses, name) <==> x in lenses && x.name != name
  {
    if lenses != [] {
      WithoutKeeps(lenses[1..], name);
      assert lenses == [lenses[0]] + lenses[1..];
    }
  }

  /** ... in their order: it distributes over concatenation ... */
  lemma {:induction false} WithoutAppend(a: seq<Lens>, b: seq<Lens>, name: string)
    ensures Without(a + b, name) == Without(a, name) + Without(b, name)
  {
    if a == [] {
      assert a + b == b;
    } else {
      assert (a + b)[0] == a[0] && (a + b)[1..] == a[1..] + b;
      WithoutAppend(a[1..], b, name);
    }
  }

  /** ... and a missing label is a no-op. */
  lemma {:induction false} WithoutMissing(lenses: seq<Lens>, name: string)
    requires FirstWith(lenses, name).None?
    ensures Without(lenses, name) == lenses
  {
    if lenses != [] {
      WithoutMissing(lenses[1..], name);
      assert lenses == [lenses[0]] + lenses[1..];
    }
  }

  lemma {:induction false} WithoutDistinct(lenses: seq<Lens>, name: string)
    requires Distinct(lenses)
    ensures Distinct(Without(lenses, name))
  {
    if lenses != [] {
      WithoutDistinct(lenses[1..], name);
      WithoutKeeps(lenses[1..], name);
      var rest := Without(lenses[1..], name);
      if lenses[0].name != name {
        forall b | 0 <= b < |rest|
          ensures lenses[0].name != rest[b].name
        {
          assert rest[b] in lenses[1..];
        }
      }
    }
  }

  /** A `-` step: the label is gone and every other label keeps its focal
      length. */
  lemma {:induction false} WithoutLookup(lenses: seq<Lens>, name: string, other: string)
    ensures Lookup(Without(lenses, name), name) == None
    ensures other != name ==> Lookup(Without(lenses, name), other) == Lookup(lenses, other)
  {
    if lenses != [] {
      WithoutLookup(lenses[1..], name, other);
    }
  }

  /** An `=` step: the label now has the new focal length, every other
      label keeps its own, and the lenses stay distinct. */
  lemma PutLookup(lenses: seq<Lens>, name: string, f: nat, other: string)
    ensures Lookup(Put(lenses, name, f), name) == Some(f)
    ensures other != name ==> Lookup(Put(lenses, name, f), other) == Lookup(lenses, other)
  {
    match FirstWith(lenses, name)
    case Some(k) =>
      var r := Put(lenses, name, f);
      assert FirstWith(r, name) == Some(k) by { FirstWithSame(lenses, r, name, k); }
      if other != name {
        FirstWithOther(lenses, r, other, k);
      }
    case None =>
      var r := lenses + [Lens(name, f)];
      FirstWithPrefix(lenses, [Lens(name, f)], name);
      if other != name {
        FirstWithPrefix(lenses, [Lens(name, f)], other);
        if FirstWith(lenses, other).None? {
          assert FirstWith([Lens(name, f)], other) == None;
        }
      }
  }

  /** Two boxes equal in labels up to slot `k`, with the label at `k`. */
  lemma FirstWithSame(a: seq<Lens>, b: seq<Lens>, name: string, k: nat)
    requires |a| == |b| && FirstWith(a, name) == Some(k)
    requires forall t :: 0 <= t < |a| ==> a[t].name == b[t].name
    ensures FirstWith(b, name) == Some(k)
  {
    var r := FirstWith(b, name);
    assert r.Some? by { assert b[k].name == name; }
    assert !(r.value < k) && !(r.value > k);
  }

  /** Changing the focal length at one slot leaves the slot of every label
      where it was, and the focal lengths of the other labels. */
  lemma FirstWithOther(a: seq<Lens>, b: seq<Lens>, other: string, k: nat)
    requires |a| == |b| && k < |a| && forall t :: 0 <= t < |a| ==> a[t].name == b[t].name
    requires forall t :: 0 <= t < |a| && t != k ==> a[t] == b[t]
    requires a[k].name != other
    ensures Lookup(b, other) == Lookup(a, other)
  {
    match FirstWith(a, other)
    case Some(j) => FirstWithSame(a, b, other, j);
    case None =>
      assert forall t :: 0 <= t < |b| ==> b[t].name != other;
  }

  /** A label found in the front part is found there in the whole. */
  lemma FirstWithPrefix(a: seq<Lens>, b: seq<Lens>, name: string)
    ensures FirstWith(a + b, name) == match FirstWith(a, name)
      case Some(k) => Some(k)
      case None => match FirstWith(b, name) case Some(k) => Some(|a| + k) case None => None
  {
    var r := FirstWith(a + b, name);
    match FirstWith(a, name)
    case Some(k) =>
      assert (a + b)[k] == a[k];
      assert r.Some? && !(r.value < k) && !(r.value > k);
    case None =>
      match FirstWith(b, name)
      case Some(k) =>
        assert (a + b)[|a| + k] == b[k];
        assert r.Some?;
        assert forall t :: 0 <= t < |a| ==> (a + b)[t] == a[t];
        assert r.value >= |a|;
        assert (a + b)[r.value] == b[r.value - |a|];
        assert !(r.value < |a| + k) && !(r.value > |a| + k);
      case None =>
        assert forall t :: 0 <= t < |a + b| ==> (a + b)[t].name != name by {
          forall t | 0 <= t < |a + b|
            ensures (a + b)[t].name != name
          {
            if t < |a| { assert (a + b)[t] == a[t]; } else { assert (a + b)[t] == b[t - |a|]; }
          }
        }
  }

  lemma PutDistinct(lenses: seq<Lens>, name: string, f: nat)
    requires Distinct(lenses)
    ensures Distinct(Put(lenses, name, f))
  {
  }

  // ---------------------------------------------------------------------
  // The boxes

  /** The effect of one step on the boxes; an `=` step without a focal
      length panics at `unwrap`. */
  function Apply(boxes: Boxes, text: string): (r: Result<Boxes>)
    requires |boxes| == 256
    ensures r.Ok? ==> |r.value| == 256
  {
    var name := Label(text);
    var i := Day15a.Hash(name);
    if |text| > 0 && text[|text| - 1] == '-' then Ok(boxes[i := Without(boxes[i], name)])
    else match FocalLength(text)
      case Panic => Panic
      case Ok(f) => Ok(boxes[i := Put(boxes[i], name, f)])
  }

  /** Only box HASH(label) changes, it keeps distinct labels, and it takes
      the step's meaning: the label removed, or set to the focal length. */
  lemma ApplyOneBox(boxes: Boxes, text: string)
    requires |boxes| == 256
    requires forall i :: 0 <= i < 256 ==> Distinct(boxes[i])
    ensures Apply(boxes, text).Ok? ==> forall i :: 0 <= i < 256 ==> Distinct(Apply(boxes, text).value[i])
    ensures Apply(boxes, text).Ok? ==> forall i :: 0 <= i < 256 && i != Day15a.Hash(Label(text)) ==> Apply(boxes, text).value[i] == boxes[i]
    ensures Apply(boxes, text).Ok? ==>
      var name := Label(text);
      var box := Apply(boxes, text).value[Day15a.Hash(name)];
      if |text| > 0 && text[|text| - 1] == '-' then Lookup(box, name) == None
      else Lookup(box, name) == Some(FocalLength(text).value)
    ensures Apply(boxes, text).Panic? <==> !(|text| > 0 && text[|text| - 1] == '-') && FocalLength(text).Panic?
  {
    var name := Label(text);
    var i := Day15a.Hash(name);
    if |text| > 0 && text[|text| - 1] == '-' {
      WithoutDistinct(boxes[i], name);
      WithoutLookup(boxes[i], name, name);
    } else if FocalLength(text).Ok? {
      PutDistinct(boxes[i], name, FocalLength(text).value);
      PutLookup(boxes[i], name, FocalLength(text).value, name);
    }
  }

  /** The steps in order; the first panic ends it. */
  function Run(boxes: Boxes, steps: seq<string>): (r: Result<Boxes>)
    requires |boxes| == 256
    ensures r.Ok? ==> |r.value| == 256
  {
    if steps == [] then Ok(boxes)
    else match Run(boxes, steps[..|steps| - 1])
      case Panic => Panic
      case Ok(b) => Apply(b, steps[|steps| - 1])
  }

  /** No box ever holds two lenses with the same label. */
  lemma {:induction false} RunDistinct(boxes: Boxes, steps: seq<string>)
    requires |boxes| == 256 && forall i :: 0 <= i < 256 ==> Distinct(boxes[i])
    ensures Run(boxes, steps).Ok? ==> forall i :: 0 <= i < 256 ==> Distinct(Run(boxes, steps).value[i])
  {
    if steps != [] {
      RunDistinct(boxes, steps[..|steps| - 1]);
      if Run(boxes, steps[..|steps| - 1]).Ok? {
        ApplyOneBox(Run(boxes, steps[..|steps| - 1]).value, steps[|steps| - 1]);
      }
    }
  }

  /** Once a step panics, the run does. */
  lemma {:induction false} RunPanics(boxes: Boxes, steps: seq<string>, k: nat)
    requires |boxes| == 256 && k <= |steps| && Run(boxes, steps[..k]).Panic?
    ensures Run(boxes, steps).Panic?
    decreases |steps| - k
  {
    if k < |steps| {
      var longer := steps[..k + 1];
      assert longer[..k] == steps[..k];
      assert Run(boxes, longer).Panic?;
      RunPanics(boxes, steps, k + 1);
    } else {
      assert steps[..k] == steps;
    }
  }

  function Empty(): (r: Boxes)
    ensures |r| == 256 && forall i :: 0 <= i < 256 ==> r[i] == []
  {
    seq(256, _ => [])
  }

  /** `(i + 1) * (j + 1) * focal_length` over the lenses of one box from
      slot `j` on. */
  function BoxPower(box: nat, lenses: seq<Lens>, j: nat): nat
    decreases |lenses| - j
  {
    if j >= |lenses| then 0 else (box + 1) * (j + 1) * lenses[j].focal_length + BoxPower(box, lenses, j + 1)
  }

  /** The focusing power: the sum over the boxes from `i` on. */
  function Power(boxes: Boxes, i: nat): nat
    decreases |boxes| - i
  {
    if i >= |boxes| then 0 else BoxPower(i, boxes[i], 0) + Power(boxes, i + 1)
  }

  lemma {:induction false} EmptyPower(boxes: Boxes, i: nat)
    requires forall k :: 0 <= k < |boxes| ==> boxes[k] == []
    ensures Power(boxes, i) == 0
    decreases |boxes| - i
  {
    if i < |boxes| {
      EmptyPower(boxes, i + 1);
    }
  }

  /** A box's power is its slot-weighted focal lengths times its number. */
  lemma {:induction false} BoxPowerScales(box: nat, lenses: seq<Lens>, j: nat)
    ensures BoxPower(box, lenses, j) == (box + 1) * BoxPower(0, lenses, j)
    decreases |lenses| - j
  {
    if j < |lenses| {
      BoxPowerScales(box, lenses, j + 1);
      var w := (j + 1) * lenses[j].focal_length;
      assert (box + 1) * (j + 1) * lenses[j].focal_length == (box + 1) * w;
      assert (box + 1) * (w + BoxPower(0, lenses, j + 1)) == (box + 1) * w + (box + 1) * BoxPower(0, lenses, j + 1);
    }
  }

  /** The answer of `solution` for the input. */
  function Answer(input: string): Result<nat>
  {
    match Run(Empty(), Split(input, ","))
    case Panic => Panic
    case Ok(boxes) => Ok(Power(boxes, 0))
  }

  /** An empty input is the one step "", which has no digit to parse. */
  lemma EmptyInput()
    ensures Answer("") == Panic
  {
    NotFoundIn("", ",");
    assert Split("", ",") == [""];
    assert Run(Empty(), [""]) == Apply(Empty(), "");
  }

  /** The first step of the puzzle's example: "rn" hashes to box 0, which
      then holds the one lens. */
  lemma FirstExampleStep()
    ensures Apply(Empty(), "rn=1") == Ok(Empty()[0 := [Lens("rn", 1)]])
  {
    assert Label("rn=1") == "rn" by {
      assert Label("=1") == [];
      assert Label("n=1") == "n";
    }
    assert Day15a.Hash("rn") == 0 by {
      assert Day15a.Mix(0, 'r') == 146 && Day15a.Mix(146, 'n') == 0;
      assert "rn"[1..] == "n" && "n"[1..] == "";
    }
    assert Digits("rn=1") == "1" by {
      assert Digits("1") == "1";
      assert Digits("=1") == "1";
      assert Digits("n=1") == "1";
    }
    assert FocalLength("rn=1") == Ok(1) by {
      assert DecimalValue("1") == 1;
    }
    assert "rn=1"[3] != '-';
    assert Put([], "rn", 1) == [Lens("rn", 1)];
  }

  /** With no lens in any box the power is 0. */
  lemma NoLensNoPower()
    ensures Power(Empty(), 0) == 0
  {
    EmptyPower(Empty(), 0);
  }

  // ---------------------------------------------------------------------
  // In place

  /** The `for lens in boxes[box_idx].iter_mut()` loop: the first lens
      with the label gets the new focal length, and `found` says whether
      there was one. */
  method SetFocal(lenses: seq<Lens>, name: string, f: nat) returns (updated: seq<Lens>, found: bool)
    ensures found <==> FirstWith(lenses, name).Some?
    ensures found ==> updated == Put(lenses, name, f)
    ensures !found ==> updated == lenses
  {
    updated := lenses;
    found := false;
    var k := 0;
    while k < |updated|
      invariant 0 <= k <= |lenses| && updated == lenses && !found
      invariant forall t :: 0 <= t < k ==> lenses[t].name != name
    {
      if updated[k].name == name {
        updated := updated[k := updated[k].(focal_length := f)];
        found := true;
        assert FirstWith(lenses, name) == Some(k);
        return;
      }
      k := k + 1;
    }
  }

  /** One step of the `for_each` closure on the 256 boxes. */
  method Step(boxes: array<seq<Lens>>, text: string) returns (ok: bool)
    requires boxes.Length == 256
    modifies boxes
    ensures ok <==> Apply(old(boxes[..]), text).Ok?
    ensures ok ==> boxes[..] == Apply(old(boxes[..]), text).value
  {
    var name := Label(text);
    var box_idx := Day15a.Hash(name);
    if |text| > 0 && text[|text| - 1] == '-' {
      boxes[box_idx] := Without(boxes[box_idx], name);
      return true;
    }
    var focal_length := FocalLength(text);
    if focal_length.Panic? {
      return false;
    }
    var updated, found := SetFocal(boxes[box_idx], name, focal_length.value);
    if !found {
      updated := updated + [Lens(name, focal_length.value)];
    }
    boxes[box_idx] := updated;
    return true;
  }

  /** Rust's `solution`. */
  method Solution(input: string) returns (r: Result<nat>)
    ensures r == Answer(input)
  {
    var boxes := new seq<Lens>[256](_ => []);
    assert boxes[..] == Empty();
    var steps := Split(input, ",");
    for s := 0 to |steps|
      invariant Run(Empty(), steps[..s]) == Ok(boxes[..])
    {
      assert steps[..s + 1][..s] == steps[..s];
      var ok := Step(boxes, steps[s]);
      if !ok {
        RunPanics(Empty(), steps, s + 1);
        return Panic;
      }
    }
    assert steps[..|steps|] == steps;
    r := Ok(Power(boxes[..], 0));
  }
}
