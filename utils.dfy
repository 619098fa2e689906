/** The helpers of src/lib/utils.ts: `classNames` and the index step of `useAutoCarousel`. */
module Utils {
  import opened Seqs

  /** An argument of `classNames`: a string, a boolean (from `cond && 'cls'`) or `undefined`. */
  datatype ClassArg = Text(s: string) | Flag(b: bool) | Undefined

  /** `Boolean(arg)` */
  predicate IsTruthy(a: ClassArg) {
    match a
    case Text(s) => s != ""
    case Flag(b) => b
    case Undefined => false
  }

  /** Each element as `join` writes it: `undefined` becomes ''. */
  function ToText(a: ClassArg): string {
    match a
    case Text(s) => s
    case Flag(b) => if b then "true" else "false"
    case Undefined => ""
  }

  function Texts(args: seq<ClassArg>): (r: seq<string>)
    ensures |r| == |args| && forall i | 0 <= i < |r| :: r[i] == ToText(args[i])
  {
    seq(|args|, i requires 0 <= i < |args| => ToText(args[i]))
  }

  /** `classes.filter(Boolean).join(' ')` */
  function ClassNames(args: seq<ClassArg>): string {
    Join(Texts(Filter(args, IsTruthy)), " ")
  }

  /** The result is empty exactly when every argument is falsy. */
  lemma ClassNamesEmpty(args: seq<ClassArg>)
    ensures ClassNames(args) == "" <==> forall i | 0 <= i < |args| :: !IsTruthy(args[i])
  {
    var kept := Filter(args, IsTruthy);
    JoinEmpty(Texts(kept), " ");
    FilterEmpty(args, IsTruthy);
  }

  /** A single non-empty class name comes back unchanged. */
  lemma ClassNamesSingle(s: string)
    requires s != ""
    ensures ClassNames([Text(s)]) == s
  {
    assert [Text(s)][1..] == [];
    assert Filter([Text(s)], IsTruthy) == [Text(s)];
  }

  /** Falsy arguments contribute nothing, and the truthy ones of two argument lists are joined
      with a single space between them. */
  lemma ClassNamesAppend(a: seq<ClassArg>, b: seq<ClassArg>)
    ensures Filter(b, IsTruthy) == [] ==> ClassNames(a + b) == ClassNames(a)
    ensures Filter(a, IsTruthy) == [] ==> ClassNames(a + b) == ClassNames(b)
    ensures Filter(a, IsTruthy) != [] && Filter(b, IsTruthy) != [] ==>
      ClassNames(a + b) == ClassNames(a) + " " + ClassNames(b)
  {
    var fa, fb := Filter(a, IsTruthy), Filter(b, IsTruthy);
    FilterAppend(a, b, IsTruthy);
    assert Texts(fa + fb) == Texts(fa) + Texts(fb);
    if fa != [] && fb != [] {
      JoinAppend(Texts(fa), Texts(fb), " ");
    } else if fa == [] {
      assert fa + fb == fb;
    } else {
      assert fa + fb == fa;
    }
  }

  /** A carousel index: a number, or NaN once `% 0` has been taken. */
  datatype Index = At(i: int) | NaN

  /** JavaScript's `a % b` for `b > 0`: the remainder takes the sign of `a`. */
  function JsRemainder(a: int, b: int): (r: int)
    requires b > 0
    ensures -b < r < b
    ensures a >= 0 ==> r == a % b
    ensures a < 0 ==> r <= 0
    ensures (a - r) % b == 0
  {
    if a >= 0 then
      RemainderUnique(a - a % b, b, a / b, 0);
      a % b
    else
      var q := (-a) / b;
      RemainderUnique(a + (-a) % b, b, -q, 0);
      -((-a) % b)
  }

  /** The three facts above leave one value: JavaScript's `%` is determined by them. */
  lemma JsRemainderDetermined(a: int, b: int, r: int)
    requires b > 0 && -b < r < b && (a >= 0 ==> 0 <= r) && (a < 0 ==> r <= 0) && (a - r) % b == 0
    ensures r == JsRemainder(a, b)
  {
    var s := JsRemainder(a, b);
    var d := (a - s) / b - (a - r) / b;
    assert r - s == d * b;
    if d > 0 {
      MultipleAtLeast(d, b);
    } else if d < 0 {
      MultipleAtLeast(-d, b);
    }
  }

  /** The interval callback `(i) => (i + 1) % length`. */
  function Step(index: Index, length: nat): (r: Index)
    ensures length == 0 || index.NaN? ==> r == NaN
    ensures index.At? && 0 <= index.i < length ==> r == At(if index.i + 1 == length then 0 else index.i + 1)
  {
    if index.NaN? || length == 0 then NaN else At(JsRemainder(index.i + 1, length))
  }

  /** The index after `k` ticks from the initial index 0. */
  function Ticks(length: nat, k: nat): Index {
    if k == 0 then At(0) else Step(Ticks(length, k - 1), length)
  }

  /** After `k` ticks the index is `k % length`: it stays within the slides. */
  lemma {:induction false} TicksFromZero(length: nat, k: nat)
    requires length > 0
    ensures Ticks(length, k) == At(k % length)
  {
    if k > 0 {
      TicksFromZero(length, k - 1);
      SuccessorRemainder(k - 1, length);
    }
  }

  /** `n % m` is the only remainder in [0, m) of a division of `n` by `m`. */
  lemma RemainderUnique(n: int, m: int, q: int, r: int)
    requires m > 0 && 0 <= r < m && n == q * m + r
    ensures n % m == r
  {
    var d := q - n / m;
    assert d * m == n % m - r;
    if d > 0 {
      MultipleAtLeast(d, m);
    } else if d < 0 {
      MultipleAtLeast(-d, m);
    }
  }

  lemma MultipleAtLeast(d: int, m: int)
    requires d >= 1 && m > 0
    ensures d * m >= m
  {
  }

  lemma SuccessorRemainder(n: nat, m: nat)
    requires m > 0
    ensures (n + 1) % m == (if n % m + 1 == m then 0 else n % m + 1)
  {
    var q, r := n / m, n % m;
    if r + 1 == m {
      assert n + 1 == (q + 1) * m + 0;
      RemainderUnique(n + 1, m, q + 1, 0);
    } else {
      RemainderUnique(n + 1, m, q, r + 1);
    }
  }

  /** A full round of `length` ticks brings the carousel back to the first slide. */
  lemma FullCycle(length: nat, rounds: nat)
    requires length > 0
    ensures Ticks(length, rounds * length) == At(0)
  {
    TicksFromZero(length, rounds * length);
    RemainderUnique(rounds * length, length, rounds, 0);
  }

  /** With no slides the first tick makes the index NaN, and it stays NaN. */
  lemma {:induction false} NoSlides(k: nat)
    requires k > 0
    ensures Ticks(0, k) == NaN
  {
    if k > 1 {
      NoSlides(k - 1);
    }
  }

  /** The `useAutoCarousel` state. */
  class Carousel {
    const length: nat
    var index: Index

    /** `useState(0)` */
    constructor (length: nat)
      ensures this.length == length && index == At(0)
    {
      this.length := length;
      index := At(0);
    }

    predicate InRange()
      reads this
    {
      index.At? && 0 <= index.i < length
    }

    /** One interval tick; an index within the slides stays within them. */
    method Tick()
      modifies this
      ensures index == Step(old(index), length)
      ensures old(InRange()) ==> InRange()
    {
      index := Step(index, length);
    }

    /** The returned `setIndex`, called by a slide's dot. */
    method Jump(i: int)
      modifies this
      ensures index == At(i)
    {
      index := At(i);
    }
  }
}
