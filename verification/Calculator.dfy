/** lab3/ch2: an accumulator of C type `long`, driven by ioctl commands, with wrap-around. */
module Calculator {

  datatype Command = Get | Set(v: int) | Add(v: int) | Mul(v: int) | Unknown

  /** `x` reduced to a signed long of `m` values (2^32 or 2^64). */
  function Wrap(x: int, m: int): int
    requires m > 0
  {
    var r := x % m;
    if r < m / 2 then r else r - m
  }

  /** What one command leaves in `result`. */
  function Act(x: int, c: Command, m: int): int
    requires m > 0
  {
    match c
    case Set(v) => Wrap(v, m)
    case Add(v) => Wrap(x + v, m)
    case Mul(v) => Wrap(x * v, m)
    case _ => x
  }

  function ActAll(x: int, cs: seq<Command>, m: int): int
    requires m > 0
  {
    if cs == [] then x else Act(ActAll(x, cs[..|cs| - 1], m), cs[|cs| - 1], m)
  }

  class Device {
    var result: int
    const m: int

    ghost predicate Valid() reads this { m > 0 && Wrap(result, m) == result }

    constructor (m: int)
      requires m > 1
      ensures Valid() && result == 0 && this.m == m
    {
      result := 0;
      this.m := m;
    }

    /** ch2_ioctl; the argument is an unsigned long reinterpreted as signed. */
    method Ioctl(c: Command) returns (ret: int)
      requires Valid()
      modifies this
      ensures Valid() && result == Act(old(result), c, m)
      ensures ret == if c.Unknown? then -1 else result
    {
      WrapTwice(result, m);
      match c
      case Get => return result;
      case Set(v) =>
        WrapTwice(v, m);
        result := Wrap(v, m);
        return result;
      case Add(v) =>
        WrapTwice(result + v, m);
        result := Wrap(result + v, m);
        return result;
      case Mul(v) =>
        WrapTwice(result * v, m);
        result := Wrap(result * v, m);
        return result;
      case Unknown => return -1;
    }
  }

  // ---------- Arithmetic modulo m ----------

  lemma MultipleIsFar(d: int, m: int)
    requires m > 0
    ensures d >= 1 ==> d * m >= m
    ensures d <= -1 ==> d * m <= -m
  {}

  lemma QuotientUnique(x: int, m: int, q: int, r: int)
    requires m > 0 && x == q * m + r && 0 <= r < m
    ensures x % m == r
  {
    var d := x / m - q;
    assert x == (x / m) * m + x % m;
    assert d * m == r - x % m;
    MultipleIsFar(d, m);
  }

  /** Adding multiples of m changes nothing after wrapping. */
  lemma WrapShift(x: int, k: int, m: int)
    requires m > 0
    ensures Wrap(x + k * m, m) == Wrap(x, m)
  {
    assert x == (x / m) * m + x % m;
    assert x + k * m == (x / m + k) * m + x % m;
    QuotientUnique(x + k * m, m, x / m + k, x % m);
  }

  /** Wrapping subtracts a multiple of m. */
  lemma WrapIsShift(x: int, m: int) returns (k: int)
    requires m > 0
    ensures Wrap(x, m) == x + k * m
  {
    assert x == (x / m) * m + x % m;
    k := if x % m < m / 2 then -(x / m) else -(x / m) - 1;
    assert k * m == -(x / m) * m - (if x % m < m / 2 then 0 else m);
  }

  lemma WrapTwice(x: int, m: int)
    requires m > 0
    ensures Wrap(Wrap(x, m), m) == Wrap(x, m)
  {
    var k := WrapIsShift(x, m);
    WrapShift(x, k, m);
  }

  /** Wrapping early does not matter to a later addition and multiplication. */
  lemma WrapInside(x: int, a: int, b: int, m: int)
    requires m > 0
    ensures Wrap(Wrap(x, m) * a + b, m) == Wrap(x * a + b, m)
  {
    var k := WrapIsShift(x, m);
    assert Wrap(x, m) * a + b == x * a + b + (k * a) * m by {
      assert (x + k * m) * a == x * a + (k * a) * m;
    }
    WrapShift(x * a + b, k * a, m);
  }

  /** Wrapped values are equal exactly when the numbers differ by a multiple of m. */
  lemma WrapEqual(x: int, y: int, m: int)
    requires m > 0
    ensures Wrap(x, m) == Wrap(y, m) <==> (x - y) % m == 0
  {
    if Wrap(x, m) == Wrap(y, m) {
      var j := WrapIsShift(x, m);
      var k := WrapIsShift(y, m);
      assert x - y == (k - j) * m + 0;
      QuotientUnique(x - y, m, k - j, 0);
    }
    if (x - y) % m == 0 {
      var q := (x - y) / m;
      assert x == y + q * m;
      WrapShift(y, q, m);
    }
  }

  /** For even m, as 2^32 and 2^64 are: the one value of a signed word that is congruent to `x`. */
  lemma WrapIsSignedWord(x: int, y: int, m: int)
    requires m > 0 && m % 2 == 0
    ensures -(m / 2) <= Wrap(x, m) < m / 2 && (x - Wrap(x, m)) % m == 0
    ensures -(m / 2) <= y < m / 2 && (x - y) % m == 0 ==> y == Wrap(x, m)
  {
    WrapTwice(x, m);
    WrapEqual(x, Wrap(x, m), m);
    if -(m / 2) <= y < m / 2 && (x - y) % m == 0 {
      WrapEqual(x, y, m);
      QuotientUnique(y, m, if y < 0 then -1 else 0, if y < 0 then y + m else y);
    }
  }

  // ---------- Command sequences are affine maps ----------

  /** The map x -> a * x + b. */
  datatype Affine = Affine(a: int, b: int)

  function Eval(f: Affine, x: int): int { f.a * x + f.b }

  function Then(f: Affine, c: Command): Affine {
    match c
    case Set(v) => Affine(0, v)
    case Add(v) => Affine(f.a, f.b + v)
    case Mul(v) => Affine(f.a * v, f.b * v)
    case _ => f
  }

  function MapOf(cs: seq<Command>): Affine {
    if cs == [] then Affine(1, 0) else Then(MapOf(cs[..|cs| - 1]), cs[|cs| - 1])
  }

  /** A command on unbounded integers. */
  function Exact(y: int, c: Command): int {
    match c case Set(v) => v case Add(v) => y + v case Mul(v) => y * v case _ => y
  }

  lemma EvalThen(f: Affine, c: Command, x: int)
    ensures Eval(Then(f, c), x) == Exact(Eval(f, x), c)
  {
    match c
    case Mul(v) => Distribute(f.a, x, f.b, v);
    case _ =>
  }

  lemma Distribute(a: int, x: int, b: int, v: int)
    ensures (a * x + b) * v == a * v * x + b * v
  {}

  /** One command on a wrapped value is the exact command on the unwrapped one, wrapped. */
  lemma ActOnWrapped(y: int, c: Command, m: int)
    requires m > 0
    ensures Act(Wrap(y, m), c, m) == Wrap(Exact(y, c), m)
  {
    match c
    case Add(v) => WrapInside(y, 1, v, m);
    case Mul(v) => WrapInside(y, v, 0, m);
    case _ =>
  }

  /** Any command sequence is one affine map on the initial value, reduced once at the end. */
  lemma {:induction false} SequenceIsAffine(x: int, cs: seq<Command>, m: int)
    requires m > 0 && Wrap(x, m) == x
    ensures ActAll(x, cs, m) == Wrap(Eval(MapOf(cs), x), m)
  {
    if cs != [] {
      var n := |cs| - 1;
      var f := MapOf(cs[..n]);
      SequenceIsAffine(x, cs[..n], m);
      ActOnWrapped(Eval(f, x), cs[n], m);
      EvalThen(f, cs[n], x);
    }
  }

  function Product(cs: seq<Command>): int {
    if cs == [] then 1
    else Product(cs[..|cs| - 1]) * (if cs[|cs| - 1].Mul? then cs[|cs| - 1].v else 1)
  }

  predicate NoSet(cs: seq<Command>) {
    forall i :: 0 <= i < |cs| ==> !cs[i].Set?
  }

  lemma {:induction false} SlopeIsProduct(cs: seq<Command>)
    requires NoSet(cs)
    ensures MapOf(cs).a == Product(cs)
  {
    if cs != [] { SlopeIsProduct(cs[..|cs| - 1]); }
  }

  lemma EvalDifference(f: Affine, x: int, y: int)
    ensures Eval(f, x) - Eval(f, y) == f.a * (x - y)
  {}

  /**
   Without SET, two starts end equal exactly when m divides the product of the MUL arguments
   times their difference.
   */
  lemma StartsConverge(x: int, y: int, cs: seq<Command>, m: int)
    requires m > 0 && Wrap(x, m) == x && Wrap(y, m) == y && NoSet(cs)
    ensures ActAll(x, cs, m) == ActAll(y, cs, m) <==> (Product(cs) * (x - y)) % m == 0
  {
    var f := MapOf(cs);
    SequenceIsAffine(x, cs, m);
    SequenceIsAffine(y, cs, m);
    SlopeIsProduct(cs);
    EvalDifference(f, x, y);
    WrapEqual(Eval(f, x), Eval(f, y), m);
  }

  /** In general the two results differ by that product modulo m. */
  lemma DifferenceScales(x: int, y: int, cs: seq<Command>, m: int)
    requires m > 0 && Wrap(x, m) == x && Wrap(y, m) == y && NoSet(cs)
    ensures Wrap(ActAll(x, cs, m) - ActAll(y, cs, m), m) == Wrap(Product(cs) * (x - y), m)
  {
    var f := MapOf(cs);
    SequenceIsAffine(x, cs, m);
    SequenceIsAffine(y, cs, m);
    SlopeIsProduct(cs);
    EvalDifference(f, x, y);
    WrapOfDifference(Eval(f, x), Eval(f, y), m);
  }

  lemma WrapOfDifference(u: int, v: int, m: int)
    requires m > 0
    ensures Wrap(Wrap(u, m) - Wrap(v, m), m) == Wrap(u - v, m)
  {
    var j := WrapIsShift(u, m);
    var k := WrapIsShift(v, m);
    assert Wrap(u, m) - Wrap(v, m) == u - v + (j - k) * m;
    WrapShift(u - v, j - k, m);
  }

  /** Everything before a SET is irrelevant, whatever it was and from whatever start. */
  lemma {:induction false} SetForgets(x: int, y: int, before: seq<Command>, other: seq<Command>, v: int,
                                      rest: seq<Command>, m: int)
    requires m > 0
    ensures ActAll(x, before + [Set(v)] + rest, m) == ActAll(y, other + [Set(v)] + rest, m)
  {
    if rest == [] {
      assert (before + [Set(v)] + rest)[..|before|] == before && (other + [Set(v)] + rest)[..|other|] == other;
    } else {
      var n := |rest| - 1;
      SetForgets(x, y, before, other, v, rest[..n], m);
      var p, q := before + [Set(v)] + rest, other + [Set(v)] + rest;
      assert p[..|p| - 1] == before + [Set(v)] + rest[..n] && q[..|q| - 1] == other + [Set(v)] + rest[..n];
    }
  }
}
