/** Helpers shared by the puzzle models: the Option and Result shapes used for
    Rust's `Option` and for operations that can panic, and a few folds over
    sequences of integers. */
module Common {

  datatype Option<T> = None | Some(value: T)

  /** The outcome of a Rust computation that either returns a value or panics
      (an `unwrap` on nothing, an index out of range, `unreachable!`, a failed
      `assert`). */
  datatype Result<T> = Ok(value: T) | Panic

  /** Sum of a sequence of integers (Rust's `.sum()`). */
  function Sum(s: seq<int>): int
  {
    if s == [] then 0 else Sum(s[..|s| - 1]) + s[|s| - 1]
  }

  lemma {:induction false} SumAppend(s: seq<int>, t: seq<int>)
    ensures Sum(s + t) == Sum(s) + Sum(t)
  {
    if t == [] {
      assert s + t == s;
    } else {
      assert (s + t)[..|s + t| - 1] == s + t[..|t| - 1];
      SumAppend(s, t[..|t| - 1]);
    }
  }

  lemma {:induction false} SumNonNegative(s: seq<int>)
    requires forall i :: 0 <= i < |s| ==> s[i] >= 0
    ensures Sum(s) >= 0
  {
    if s != [] {
      SumNonNegative(s[..|s| - 1]);
    }
  }

  /** Product of a sequence of integers (Rust's `.product()`): 1 when empty. */
  function Product(s: seq<int>): int
  {
    if s == [] then 1 else Product(s[..|s| - 1]) * s[|s| - 1]
  }

  /** The items in the opposite order (`.rev()`). */
  function Reverse<T>(s: seq<T>): (r: seq<T>)
    ensures |r| == |s| && forall i :: 0 <= i < |s| ==> r[i] == s[|s| - 1 - i]
  {
    seq(|s|, i requires 0 <= i < |s| => s[|s| - 1 - i])
  }

  /** Gathers per-item results: the values in order when every item is Ok,
      otherwise a panic (a loop that unwraps each item in turn). */
  function Collect<T>(rs: seq<Result<T>>): (r: Result<seq<T>>)
    ensures r.Ok? <==> forall i :: 0 <= i < |rs| ==> rs[i].Ok?
    ensures r.Ok? ==> |r.value| == |rs| && forall i :: 0 <= i < |rs| ==> r.value[i] == rs[i].value
  {
    if rs == [] then Ok([])
    else
      match Collect(rs[..|rs| - 1])
      case Panic => Panic
      case Ok(init) =>
        match rs[|rs| - 1]
        case Panic => Panic
        case Ok(v) => Ok(init + [v])
  }

  /** Collecting one item more extends the values by that item's. */
  lemma CollectGrow<T>(rs: seq<Result<T>>, i: nat)
    requires i < |rs| && forall j :: 0 <= j <= i ==> rs[j].Ok?
    ensures Collect(rs[..i]).Ok? && Collect(rs[..i + 1]).Ok?
    ensures Collect(rs[..i + 1]).value == Collect(rs[..i]).value + [rs[i].value]
  {
    assert rs[..i + 1][..i] == rs[..i];
  }

  /** One more item that is Ok extends the collected values by its value. */
  lemma CollectStep<T>(rs: seq<Result<T>>, k: nat, values: seq<T>)
    requires k < |rs| && Collect(rs[..k]) == Ok(values) && rs[k].Ok?
    ensures Collect(rs[..k + 1]) == Ok(values + [rs[k].value])
  {
    assert rs[..k + 1][..k] == rs[..k];
  }

  /** Collecting two runs of items one after the other. */
  lemma CollectAppend<T>(x: seq<Result<T>>, y: seq<Result<T>>)
    ensures Collect(x + y) == if Collect(x).Ok? && Collect(y).Ok? then Ok(Collect(x).value + Collect(y).value) else Panic
  {
    var xy := x + y;
    assert forall i :: 0 <= i < |x| ==> xy[i] == x[i];
    assert forall i :: 0 <= i < |y| ==> xy[|x| + i] == y[i];
    if Collect(x).Ok? && Collect(y).Ok? {
      assert forall i :: 0 <= i < |xy| ==> xy[i].Ok? by {
        forall i | 0 <= i < |xy|
          ensures xy[i].Ok?
        {
          if i >= |x| {
            assert xy[i] == y[i - |x|];
          }
        }
      }
      var v := Collect(x).value + Collect(y).value;
      assert Collect(xy).value == v;
    } else if !Collect(x).Ok? {
      var i :| 0 <= i < |x| && !x[i].Ok?;
      assert !xy[i].Ok?;
    } else {
      var i :| 0 <= i < |y| && !y[i].Ok?;
      assert !xy[|x| + i].Ok?;
    }
  }

  /** Greatest common divisor by Euclid's algorithm. */
  function Gcd(a: nat, b: nat): (g: nat)
    ensures g == 0 <==> a == 0 && b == 0
    decreases b
  {
    if b == 0 then a else Gcd(b, a % b)
  }

  predicate Divides(d: nat, n: nat)
  {
    d > 0 && n % d == 0
  }

  /** Euclidean division is unique: a quotient and remainder that satisfy the
      defining equation are the ones `/` and `%` return. */
  lemma DivModUnique(a: int, g: int, q: int, r: int)
    requires g > 0 && 0 <= r < g && a == q * g + r
    ensures a / g == q && a % g == r
  {
    var q', r' := a / g, a % g;
    assert a == q' * g + r';
    assert (q - q') * g == r' - r;
    if q > q' {
      MulAtLeast(q - q', g);
    } else if q < q' {
      MulAtLeast(q' - q, g);
    }
  }

  lemma MulDistributes(q: int, x: int, y: int, g: int)
    ensures q * (x * g) + y * g == (q * x + y) * g
  {
  }

  lemma MulAtLeast(k: int, g: int)
    requires k >= 1 && g > 0
    ensures k * g >= g
  {
  }

  lemma {:induction false} GcdDivides(a: nat, b: nat)
    requires a > 0 || b > 0
    ensures Divides(Gcd(a, b), a) && Divides(Gcd(a, b), b)
    decreases b
  {
    if b == 0 {
      DivModUnique(a, a, 1, 0);
      DivModUnique(0, a, 0, 0);
    } else {
      GcdDivides(b, a % b);
      DividesEuclid(a, b, Gcd(b, a % b));
    }
  }

  /** A common divisor of b and a % b divides a. */
  lemma DividesEuclid(a: nat, b: nat, g: nat)
    requires b > 0 && Divides(g, b) && Divides(g, a % b)
    ensures Divides(g, a)
  {
    var q := a / b;
    var x := b / g;
    var y := (a % b) / g;
    assert b == x * g;
    assert a % b == y * g;
    assert a == q * b + a % b;
    MulDistributes(q, x, y, g);
    DivModUnique(a, g, q * x + y, 0);
  }


  /** Least common multiple as the `num` crate computes it for unsigned
      integers: 0 when both are 0, otherwise a * (b / gcd(a, b)). */
  function Lcm(a: nat, b: nat): nat
  {
    if a == 0 && b == 0 then 0
    else
      var q: nat := b / Gcd(a, b);
      MulNonNegative(a, q);
      a * q
  }

  lemma MulNonNegative(x: nat, y: nat)
    ensures x * y >= 0
  {
  }

  /** lcm(a, b) is a common multiple of its arguments (a multiple of every
      non-zero argument). */
  lemma {:induction false} LcmIsCommonMultiple(a: nat, b: nat)
    ensures a > 0 ==> Lcm(a, b) % a == 0
    ensures b > 0 ==> Lcm(a, b) % b == 0
  {
    if a != 0 || b != 0 {
      GcdDivides(a, b);
      var g := Gcd(a, b);
      var x := a / g;
      var y := b / g;
      assert a == x * g;
      assert b == y * g;
      assert Lcm(a, b) == a * y;
      if a > 0 {
        DivModUnique(a * y, a, y, 0);
      }
      if b > 0 {
        assert a * y == x * g * y;
        assert a * y == x * b;
        DivModUnique(a * y, b, x, 0);
      }
    }
  }

  /** lcm(1, n) == n, the starting point of an lcm fold. */
  lemma LcmOne(n: nat)
    ensures Lcm(1, n) == n
  {
    if n > 0 {
      GcdDivides(1, n);
      if Gcd(1, n) > 1 {
        DivModUnique(1, Gcd(1, n), 0, 1);
      }
    }
  }

  /** lcm of two positive numbers is positive. */
  lemma LcmPositive(a: nat, b: nat)
    requires a > 0 && b > 0
    ensures Lcm(a, b) > 0
  {
    GcdDivides(a, b);
    var g := Gcd(a, b);
    assert b == (b / g) * g;
    MulAtLeast(b / g, g);
    assert a * (b / g) >= 1 * (b / g) by {
      MulMonotoneNat(1, a, b / g);
    }
  }

  lemma MulMonotoneNat(x: nat, y: nat, z: nat)
    requires x <= y
    ensures x * z <= y * z
  {
  }

  /** Bezout's identity: gcd(a, b) is an integer combination of a and b. */
  lemma {:induction false} Bezout(a: nat, b: nat) returns (x: int, y: int)
    ensures a * x + b * y == Gcd(a, b)
    decreases b
  {
    if b == 0 {
      x, y := 1, 0;
    } else {
      var x', y' := Bezout(b, a % b);
      var q := a / b;
      assert a == q * b + a % b;
      x, y := y', x' - q * y';
      calc {
        a * x + b * y;
        (q * b + a % b) * y' + b * (x' - q * y');
        { Expand(q * b, a % b, y'); Spread(b, x', q * y'); }
        q * b * y' + (a % b) * y' + b * x' - b * (q * y');
        { assert q * b * y' == b * (q * y'); }
        b * x' + (a % b) * y';
      }
    }
  }

  lemma Expand(u: int, v: int, w: int)
    ensures (u + v) * w == u * w + v * w
  {
  }

  lemma Spread(u: int, v: int, w: int)
    ensures u * (v - w) == u * v - u * w
  {
  }

  /** a divisor of a divisor: `m` a multiple of `n`, `n` of `k`. */
  lemma {:induction false} MultipleTransitive(m: nat, n: nat, k: nat)
    requires n > 0 && k > 0 && m % n == 0 && n % k == 0
    ensures m % k == 0
  {
    var p, q := m / n, n / k;
    assert m == p * n && n == q * k;
    assert m == (p * q) * k by {
      assert p * n == p * (q * k);
    }
    DivModUnique(m, k, p * q, 0);
  }

  /** lcm(a, b) divides every common multiple of a and b. */
  lemma LcmLeast(a: nat, b: nat, m: nat)
    requires a > 0 && b > 0 && m % a == 0 && m % b == 0
    ensures Lcm(a, b) > 0 && m % Lcm(a, b) == 0
  {
    LcmPositive(a, b);
    GcdDivides(a, b);
    var x, y := Bezout(a, b);
    var t := (m / b) * x + (m / a) * y;
    ScaledCombination(a, b, m, x, y);
    LcmTimesGcd(a, b);
    CancelCommon(m, Gcd(a, b), Lcm(a, b), t, a * b);
    DivModUnique(m, Lcm(a, b), t, 0);
  }

  lemma CancelCommon(m: int, g: int, l: int, t: int, ab: int)
    requires g > 0 && m * g == ab * t && ab == l * g
    ensures m == t * l
  {
    assert m * g == (t * l) * g by {
      assert ab * t == (l * g) * t;
      assert (l * g) * t == (t * l) * g;
    }
    CancelFactor(m, t * l, g);
  }

  /** lcm(a, b) · gcd(a, b) == a · b. */
  lemma LcmTimesGcd(a: nat, b: nat)
    requires a > 0 && b > 0
    ensures a * b == Lcm(a, b) * Gcd(a, b)
  {
    GcdDivides(a, b);
    var g := Gcd(a, b);
    var y1 := b / g;
    assert Lcm(a, b) == a * y1;
    assert b == y1 * g;
    assert a * b == a * (y1 * g);
  }

  /** A common multiple m of a and b, times a * x + b * y. */
  lemma ScaledCombination(a: nat, b: nat, m: nat, x: int, y: int)
    requires a > 0 && b > 0 && m % a == 0 && m % b == 0
    ensures m * (a * x + b * y) == (a * b) * ((m / b) * x + (m / a) * y)
  {
    var p, q := m / a, m / b;
    assert m == a * p && m == b * q;
    calc {
      m * (a * x + b * y);
      { Spread2(m, a * x, b * y); }
      m * (a * x) + m * (b * y);
      { assert m * (a * x) == (b * q) * (a * x); assert m * (b * y) == (a * p) * (b * y); }
      (b * q) * (a * x) + (a * p) * (b * y);
      { Regroup(a, b, q, x, p, y); }
      a * b * (q * x + p * y);
    }
  }

  lemma Spread2(u: int, v: int, w: int)
    ensures u * (v + w) == u * v + u * w
  {
  }

  lemma Regroup(a: int, b: int, q: int, x: int, p: int, y: int)
    ensures (b * q) * (a * x) + (a * p) * (b * y) == a * b * (q * x + p * y)
  {
  }

  lemma CancelFactor(u: int, v: int, g: int)
    requires g > 0 && u * g == v * g
    ensures u == v
  {
    assert (u - v) * g == u * g - v * g;
  }


  /** `x` is the least common multiple of the positive numbers `counts`:
      a multiple of each that divides every other common multiple. */
  ghost predicate IsLcmOf(x: nat, counts: set<nat>)
  {
    && x > 0
    && (forall c :: c in counts ==> c > 0 && x % c == 0)
    && (forall m: nat :: m > 0 && (forall c :: c in counts ==> m % c == 0) ==> m % x == 0)
  }

  /** A set has one least common multiple. */
  lemma IsLcmUnique(x: nat, y: nat, counts: set<nat>)
    requires IsLcmOf(x, counts) && IsLcmOf(y, counts)
    ensures x == y
  {
    assert x % y == 0 && y % x == 0;
    var p, q := x / y, y / x;
    assert x == p * y && y == q * x;
    if p == 0 || q == 0 {
      assert false;
    }
    MulMonotoneNat(1, p, y);
    MulMonotoneNat(1, q, x);
  }

  /** The fold `lcm = lcm.lcm(&c)` keeps the least common multiple of the
      numbers seen so far. */
  lemma LcmFoldStep(acc: nat, counts: set<nat>, c: nat)
    requires IsLcmOf(acc, counts) && c > 0
    ensures IsLcmOf(Lcm(acc, c), counts + {c})
  {
    var l := Lcm(acc, c);
    LcmPositive(acc, c);
    LcmIsCommonMultiple(acc, c);
    forall d | d in counts
      ensures l % d == 0
    {
      MultipleTransitive(l, acc, d);
    }
    forall m: nat | m > 0 && (forall d :: d in counts + {c} ==> m % d == 0)
      ensures m % l == 0
    {
      LcmLeast(acc, c, m);
    }
  }

  lemma LcmOfNone()
    ensures IsLcmOf(1, {})
  {
  }

  /** `pat` occurs in `s` starting at index `j`. */
  predicate OccursAt(s: string, pat: string, j: nat)
  {
    j + |pat| <= |s| && s[j..j + |pat|] == pat
  }

  /** Index of the first occurrence of `pat` in `s` (Rust's `str::find`). */
  function IndexOf(s: string, pat: string): (r: Option<nat>)
    ensures r.Some? ==> OccursAt(s, pat, r.value)
    ensures r.Some? ==> forall j: nat :: j < r.value ==> !OccursAt(s, pat, j)
    ensures r.None? ==> forall j: nat :: !OccursAt(s, pat, j)
    decreases |s|
  {
    if |s| < |pat| then None
    else if s[..|pat|] == pat then Some(0)
    else
      assert forall j: nat :: 1 <= j ==> OccursAt(s, pat, j) == OccursAt(s[1..], pat, j - 1) by {
        forall j: nat | 1 <= j
          ensures OccursAt(s, pat, j) == OccursAt(s[1..], pat, j - 1)
        {
          if j + |pat| <= |s| {
            var t := s[1..];
            assert t[j - 1..] == s[j..];
            assert t[j - 1..j - 1 + |pat|] == t[j - 1..][..|pat|];
            assert s[j..j + |pat|] == s[j..][..|pat|];
          }
        }
      }
      match IndexOf(s[1..], pat)
      case None => None
      case Some(i) => Some(i + 1)
  }

  /** Index of the last occurrence of `pat` in `s` (Rust's `str::rfind`). */
  function LastIndexOf(s: string, pat: string): (r: Option<nat>)
    ensures r.Some? ==> OccursAt(s, pat, r.value)
    ensures r.Some? ==> forall j: nat :: j > r.value ==> !OccursAt(s, pat, j)
    ensures r.None? ==> forall j: nat :: !OccursAt(s, pat, j)
    decreases |s|
  {
    if |s| < |pat| then None
    else if s[|s| - |pat|..] == pat then Some(|s| - |pat|)
    else
      assert forall j: nat :: j + |pat| < |s| ==> OccursAt(s, pat, j) == OccursAt(s[..|s| - 1], pat, j) by {
        forall j: nat | j + |pat| < |s|
          ensures OccursAt(s, pat, j) == OccursAt(s[..|s| - 1], pat, j)
        {
          assert s[..|s| - 1][j..j + |pat|] == s[j..j + |pat|];
        }
      }
      LastIndexOf(s[..|s| - 1], pat)
  }

  /** No character of `s` occurs in `pat`. */
  predicate Avoids(s: string, pat: string)
  {
    forall i :: 0 <= i < |s| ==> s[i] !in pat
  }

  lemma NotFoundIn(s: string, pat: string)
    requires |pat| > 0 && Avoids(s, pat)
    ensures IndexOf(s, pat).None?
  {
    forall j: nat
      ensures !OccursAt(s, pat, j)
    {
      if j + |pat| <= |s| {
        assert s[j..j + |pat|][0] == s[j];
        assert pat[0] in pat;
      }
    }
  }

  /** When `a` shares no character with `pat`, the first occurrence of `pat`
      in `a + pat + b` is the one right after `a`. */
  lemma IndexOfAfter(a: string, pat: string, b: string)
    requires |pat| > 0 && Avoids(a, pat)
    ensures IndexOf(a + pat + b, pat) == Some(|a|)
  {
    var s := a + pat + b;
    assert s[|a|..|a| + |pat|] == pat;
    assert OccursAt(s, pat, |a|);
    forall j: nat | j < |a|
      ensures !OccursAt(s, pat, j)
    {
      if j + |pat| <= |s| {
        assert s[j..j + |pat|][0] == a[j];
        assert pat[0] in pat;
      }
    }
  }

  /** Rust's `str::split_once`: the text before and after the first
      occurrence of `pat`, or nothing when `pat` does not occur. */
  function SplitOnce(s: string, pat: string): (r: Option<(string, string)>)
    ensures r.Some? ==> r.value.0 + pat + r.value.1 == s
    ensures r.Some? ==> forall j: nat :: j < |r.value.0| ==> !OccursAt(s, pat, j)
    ensures r.None? <==> IndexOf(s, pat).None?
  {
    match IndexOf(s, pat)
    case None => None
    case Some(i) =>
      assert s == s[..i] + s[i..i + |pat|] + s[i + |pat|..];
      Some((s[..i], s[i + |pat|..]))
  }

  /** Splitting once at a pattern that `a` does not touch gives back `a` and
      `b`. */
  lemma SplitOnceAfter(a: string, pat: string, b: string)
    requires |pat| > 0 && Avoids(a, pat)
    ensures SplitOnce(a + pat + b, pat) == Some((a, b))
  {
    IndexOfAfter(a, pat, b);
    var s := a + pat + b;
    assert s[..|a|] == a;
    assert s[|a| + |pat|..] == b;
  }

  /** Rust's `str::split` with a non-empty pattern: the pieces between the
      occurrences of `pat`, scanned left to right. */
  function Split(s: string, pat: string): (r: seq<string>)
    requires |pat| > 0
    ensures |r| >= 1
    decreases |s|
  {
    match IndexOf(s, pat)
    case None => [s]
    case Some(i) => [s[..i]] + Split(s[i + |pat|..], pat)
  }

  /** The inverse of Split: the pieces glued back together with `pat`. */
  function Join(pieces: seq<string>, pat: string): string
  {
    if |pieces| == 0 then ""
    else if |pieces| == 1 then pieces[0]
    else pieces[0] + pat + Join(pieces[1..], pat)
  }

  /** Split at a first occurrence at `i`: the piece before it, then the
      pieces of the rest. */
  lemma SplitFound(s: string, pat: string, i: nat)
    requires |pat| > 0 && IndexOf(s, pat) == Some(i)
    ensures Split(s, pat) == [s[..i]] + Split(s[i + |pat|..], pat)
  {
  }

  lemma JoinCons(p: string, rest: seq<string>, pat: string)
    requires |rest| >= 1
    ensures Join([p] + rest, pat) == p + pat + Join(rest, pat)
  {
    assert ([p] + rest)[1..] == rest;
  }

  /** Splitting and joining again gives back the text. */
  lemma {:induction false} JoinSplit(s: string, pat: string)
    requires |pat| > 0
    ensures Join(Split(s, pat), pat) == s
    decreases |s|
  {
    match IndexOf(s, pat)
    case None =>
    case Some(i) =>
      var rest := s[i + |pat|..];
      SplitFound(s, pat, i);
      JoinSplit(rest, pat);
      JoinCons(s[..i], Split(rest, pat), pat);
      assert s[i..i + |pat|] == pat;
      assert s == s[..i] + s[i..i + |pat|] + rest;
  }

  /** Joining pieces that share no character with `pat` and splitting again
      gives back the pieces. */
  lemma {:induction false} SplitJoin(pieces: seq<string>, pat: string)
    requires |pat| > 0 && |pieces| >= 1
    requires forall k :: 0 <= k < |pieces| ==> Avoids(pieces[k], pat)
    ensures Split(Join(pieces, pat), pat) == pieces
  {
    if |pieces| == 1 {
      NotFoundIn(pieces[0], pat);
    } else {
      var rest := Join(pieces[1..], pat);
      var s := pieces[0] + pat + rest;
      assert Join(pieces, pat) == s;
      IndexOfAfter(pieces[0], pat, rest);
      SplitFound(s, pat, |pieces[0]|);
      assert s[..|pieces[0]|] == pieces[0];
      assert s[|pieces[0]| + |pat|..] == rest;
      SplitJoin(pieces[1..], pat);
      assert pieces == [pieces[0]] + pieces[1..];
    }
  }

  /** A first occurrence in `s` stays the first one when text is appended. */
  lemma IndexOfExtended(s: string, t: string, pat: string)
    requires IndexOf(s, pat).Some?
    ensures IndexOf(s + t, pat) == IndexOf(s, pat)
  {
    var i := IndexOf(s, pat).value;
    var st := s + t;
    assert OccursAt(s, pat, i);
    assert st[i..i + |pat|] == s[i..i + |pat|];
    assert OccursAt(st, pat, i);
    forall j: nat | j < i
      ensures !OccursAt(st, pat, j)
    {
      assert !OccursAt(s, pat, j);
      assert st[j..j + |pat|] == s[j..j + |pat|];
    }
    var k := IndexOf(st, pat);
    assert k.Some?;
    assert !(k.value > i);
    assert !(k.value < i);
  }

  /** Splitting at a one-character separator distributes over text glued
      together with that separator. */
  lemma {:induction false} SplitAppend(a: string, c: char, b: string)
    ensures Split(a + [c] + b, [c]) == Split(a, [c]) + Split(b, [c])
    decreases |a|
  {
    if IndexOf(a, [c]).None? {
      SplitAtFirst(a, c, b);
    } else {
      var i := IndexOf(a, [c]).value;
      SplitAppend(a[i + 1..], c, b);
      SplitLater(a, [c], b, i);
    }
  }

  lemma SplitAtFirst(a: string, c: char, b: string)
    requires IndexOf(a, [c]).None?
    ensures Split(a + [c] + b, [c]) == Split(a, [c]) + Split(b, [c])
  {
    var pat := [c];
    var s := a + pat + b;
    forall i | 0 <= i < |a|
      ensures a[i] !in pat
    {
      assert a[i..i + 1] == [a[i]];
      assert !OccursAt(a, pat, i);
    }
    IndexOfAfter(a, pat, b);
    SplitFound(s, pat, |a|);
    assert s[..|a|] == a;
    assert s[|a| + 1..] == b;
  }

  /** The text before and after an occurrence of `pat` inside `a`, once
      `pat + b` is appended. */
  lemma SlicesAround(a: string, pat: string, b: string, i: nat)
    requires i + |pat| <= |a|
    ensures a + (pat + b) == a + pat + b
    ensures (a + pat + b)[..i] == a[..i]
    ensures (a + pat + b)[i + |pat|..] == a[i + |pat|..] + pat + b
  {
    DropInFirst(a, pat + b, i + |pat|);
    assert a[i + |pat|..] + (pat + b) == a[i + |pat|..] + pat + b;
  }

  /** Dropping a prefix of the first part of a concatenation. */
  lemma DropInFirst(x: string, y: string, k: nat)
    requires k <= |x|
    ensures (x + y)[k..] == x[k..] + y
  {
  }

  lemma SplitLater(a: string, pat: string, b: string, i: nat)
    requires |pat| > 0 && IndexOf(a, pat) == Some(i)
    requires Split(a[i + |pat|..] + pat + b, pat) == Split(a[i + |pat|..], pat) + Split(b, pat)
    ensures Split(a + pat + b, pat) == Split(a, pat) + Split(b, pat)
  {
    var s := a + pat + b;
    var tail := a[i + |pat|..];
    SlicesAround(a, pat, b, i);
    IndexOfExtended(a, pat + b, pat);
    SplitFound(s, pat, i);
    SplitFound(a, pat, i);
    Reassociate([a[..i]], Split(tail, pat), Split(b, pat), Split(s, pat), Split(a, pat), Split(tail + pat + b, pat));
  }

  /** Reassociating a concatenation of three parts named by their sums. */
  lemma Reassociate<T>(u: seq<T>, v: seq<T>, w: seq<T>, whole: seq<T>, part: seq<T>, rest: seq<T>)
    requires whole == u + rest && rest == v + w && part == u + v
    ensures whole == part + w
  {
  }

  // ---------------------------------------------------------------------
  // Decimal numerals

  /** An ASCII decimal digit. */
  predicate IsDigit(c: char)
  {
    '0' <= c <= '9'
  }

  function DigitValue(c: char): (v: nat)
    requires IsDigit(c)
    ensures v < 10
  {
    c as int - '0' as int
  }

  function DigitChar(v: nat): (c: char)
    requires v < 10
    ensures IsDigit(c) && DigitValue(c) == v
  {
    ('0' as int + v) as char
  }

  predicate AllDigits(s: string)
  {
    forall i :: 0 <= i < |s| ==> IsDigit(s[i])
  }

  /** The number a string of digits denotes, most significant first. */
  function DecimalValue(s: string): nat
    requires AllDigits(s)
  {
    if s == [] then 0 else 10 * DecimalValue(s[..|s| - 1]) + DigitValue(s[|s| - 1])
  }

  /** The decimal numeral of `n`, without leading zeros. */
  function Decimal(n: nat): (s: string)
    ensures |s| > 0 && AllDigits(s)
  {
    if n < 10 then [DigitChar(n)] else Decimal(n / 10) + [DigitChar(n % 10)]
  }

  const UsizeLimit: nat := 0x1_0000_0000_0000_0000
  const U32Limit: nat := 0x1_0000_0000

  /** Rust's `str::parse` into an unsigned integer type whose values lie
      below `limit`, followed by `unwrap`: an optional `+`, then at least
      one digit, and a value that fits; anything else panics. */
  function ParseUnsigned(s: string, limit: nat): (r: Result<nat>)
    ensures r.Ok? ==> r.value < limit
  {
    var digits := if |s| > 0 && s[0] == '+' then s[1..] else s;
    if digits != [] && AllDigits(digits) && DecimalValue(digits) < limit then Ok(DecimalValue(digits))
    else Panic
  }

  lemma {:induction false} DecimalRoundTrip(n: nat)
    ensures DecimalValue(Decimal(n)) == n
  {
    if n >= 10 {
      DecimalRoundTrip(n / 10);
      var s := Decimal(n);
      assert s[..|s| - 1] == Decimal(n / 10);
    }
  }

  /** Parsing a rendered number gives the number back. */
  lemma ParseDecimal(n: nat, limit: nat)
    requires n < limit
    ensures ParseUnsigned(Decimal(n), limit) == Ok(n)
  {
    DecimalRoundTrip(n);
  }

  /** A sign other than `+`, or no digit at all, makes the parse panic. */
  lemma ParseRejects(s: string, limit: nat)
    requires s == [] || s == "+" || (!IsDigit(s[0]) && s[0] != '+')
    ensures ParseUnsigned(s, limit) == Panic
  {
  }

  /** A digit string is parsed to its value when it fits. */
  lemma ParseDigits(s: string, limit: nat)
    requires s != [] && AllDigits(s) && DecimalValue(s) < limit
    ensures ParseUnsigned(s, limit) == Ok(DecimalValue(s))
  {
  }

  // ---------------------------------------------------------------------
  // Whitespace-separated numbers

  /** `split(' ').filter_map(|x| x.parse().ok())`: the numbers among the
      space-separated pieces of `s`, in order; pieces that do not parse
      (the empty pieces between two spaces, words) are dropped. */
  function Numbers(s: string, limit: nat): seq<nat>
  {
    Parsed(Split(s, " "), limit)
  }

  function Parsed(pieces: seq<string>, limit: nat): (r: seq<nat>)
    ensures |r| <= |pieces|
    ensures forall i :: 0 <= i < |r| ==> r[i] < limit
  {
    if pieces == [] then []
    else
      (match ParseUnsigned(pieces[0], limit)
       case Ok(n) => [n]
       case Panic => []) + Parsed(pieces[1..], limit)
  }

  /** The decimal numerals of `nums`. */
  function Decimals(nums: seq<nat>): (r: seq<string>)
    ensures |r| == |nums| && forall i :: 0 <= i < |nums| ==> r[i] == Decimal(nums[i])
  {
    if nums == [] then [] else [Decimal(nums[0])] + Decimals(nums[1..])
  }

  /** Numbers written out in decimal and separated by single spaces are
      read back. */
  lemma NumbersOfDecimals(nums: seq<nat>, limit: nat)
    requires forall i :: 0 <= i < |nums| ==> nums[i] < limit
    ensures Numbers(Join(Decimals(nums), " "), limit) == nums
  {
    if nums == [] {
      assert Split("", " ") == [""] by {
        assert IndexOf("", " ") == None;
      }
      ParseRejects("", limit);
    } else {
      var pieces := Decimals(nums);
      forall k | 0 <= k < |pieces|
        ensures Avoids(pieces[k], " ")
      {
        assert AllDigits(pieces[k]);
      }
      SplitJoin(pieces, " ");
      ParsedDecimals(nums, limit);
    }
  }

  lemma {:induction false} ParsedDecimals(nums: seq<nat>, limit: nat)
    requires forall i :: 0 <= i < |nums| ==> nums[i] < limit
    ensures Parsed(Decimals(nums), limit) == nums
  {
    if nums != [] {
      ParseDecimal(nums[0], limit);
      assert Decimals(nums)[1..] == Decimals(nums[1..]);
      ParsedDecimals(nums[1..], limit);
    }
  }

  // ---------------------------------------------------------------------
  // Sums over a set, in any order

  /** The sum of `f` over `keys`, adding the keys in an arbitrary order;
      SumOverRemove shows that the order does not matter. */
  ghost function SumOver<K>(keys: set<K>, f: K -> int): int
    decreases keys
  {
    if keys == {} then 0
    else
      var k :| k in keys;
      f(k) + SumOver(keys - {k}, f)
  }

  lemma {:induction false} SumOverRemove<K>(keys: set<K>, f: K -> int, k: K)
    requires k in keys
    ensures SumOver(keys, f) == f(k) + SumOver(keys - {k}, f)
    decreases keys
  {
    var j :| j in keys && SumOver(keys, f) == f(j) + SumOver(keys - {j}, f);
    if j != k {
      SumOverRemove(keys - {j}, f, k);
      SumOverRemove(keys - {k}, f, j);
      assert keys - {j} - {k} == keys - {k} - {j};
    }
  }
}
