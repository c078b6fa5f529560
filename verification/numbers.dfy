/** JavaScript numbers as the calculator sees them, with exact real arithmetic. */
module Numbers {

  /** A number operand: a finite value, one of the IEEE special values, or a missing argument. */
  datatype Num = Finite(r: real) | NaN | PosInf | NegInf | Undefined

  /** The global `isFinite` on a number operand (`undefined` converts to NaN, so it is not finite). */
  predicate IsFinite(n: Num)
  {
    n.Finite?
  }

  /** The global `isNaN` on a number operand (`undefined` converts to NaN, so it is NaN). */
  predicate IsNaN(n: Num)
  {
    n.NaN? || n.Undefined?
  }

  predicate AllFinite(ns: seq<Num>)
  {
    forall i :: 0 <= i < |ns| ==> IsFinite(ns[i])
  }

  /** Index of the first operand that is not finite, or |ns| when there is none. */
  function FirstNonFinite(ns: seq<Num>): (k: nat)
    ensures k <= |ns|
    ensures forall j :: 0 <= j < k ==> IsFinite(ns[j])
    ensures k < |ns| ==> !IsFinite(ns[k])
  {
    if ns == [] then 0
    else if !IsFinite(ns[0]) then 0
    else 1 + FirstNonFinite(ns[1..])
  }

  /** The real values of a sequence of finite operands. */
  function Reals(ns: seq<Num>): (xs: seq<real>)
    requires AllFinite(ns)
    ensures |xs| == |ns|
  {
    if ns == [] then [] else Reals(ns[..|ns| - 1]) + [ns[|ns| - 1].r]
  }

  lemma {:induction false} RealsAt(ns: seq<Num>, i: nat)
    requires AllFinite(ns) && i < |ns|
    ensures Reals(ns)[i] == ns[i].r
  {
    if i < |ns| - 1 {
      RealsAt(ns[..|ns| - 1], i);
    }
  }

  /** Finite operands carrying the given values. */
  function Lift(xs: seq<real>): (ns: seq<Num>)
    ensures |ns| == |xs| && AllFinite(ns)
  {
    if xs == [] then [] else Lift(xs[..|xs| - 1]) + [Finite(xs[|xs| - 1])]
  }

  lemma {:induction false} RealsLift(xs: seq<real>)
    ensures Reals(Lift(xs)) == xs
  {
    if xs != [] {
      var ns := Lift(xs);
      assert ns[..|ns| - 1] == Lift(xs[..|xs| - 1]);
      RealsLift(xs[..|xs| - 1]);
    }
  }

  /** The two accumulating operations of the calculator. */
  datatype Op = Add | Mul

  /** The starting value of the accumulator: 0 for sum, 1 for multiply. */
  function Identity(op: Op): real
  {
    match op
    case Add => 0.0
    case Mul => 1.0
  }

  function Apply(op: Op, a: real, b: real): real
  {
    match op
    case Add => a + b
    case Mul => a * b
  }

  /** Left fold `((Identity op x0) op x1) ...`, the order in which the source accumulates. */
  function Fold(op: Op, xs: seq<real>): real
  {
    if xs == [] then Identity(op) else Apply(op, Fold(op, xs[..|xs| - 1]), xs[|xs| - 1])
  }

  /** Folding one more operand of a finite prefix applies the operator to it once. */
  lemma FoldPrefixStep(op: Op, ns: seq<Num>, i: nat)
    requires i < |ns| && AllFinite(ns[..i + 1])
    ensures AllFinite(ns[..i])
    ensures Fold(op, Reals(ns[..i + 1])) == Apply(op, Fold(op, Reals(ns[..i])), ns[i].r)
  {
    var p := ns[..i + 1];
    assert p[..i] == ns[..i];
    var xs := Reals(p);
    assert xs == Reals(ns[..i]) + [ns[i].r];
    assert xs[..|xs| - 1] == Reals(ns[..i]);
  }

  lemma {:induction false} FoldAppend(op: Op, xs: seq<real>, ys: seq<real>)
    ensures Fold(op, xs + ys) == Apply(op, Fold(op, xs), Fold(op, ys))
    decreases |ys|
  {
    if ys == [] {
      assert xs + ys == xs;
    } else {
      var zs := xs + ys;
      assert zs[..|zs| - 1] == xs + ys[..|ys| - 1];
      FoldAppend(op, xs, ys[..|ys| - 1]);
    }
  }

  lemma FoldSingle(op: Op, x: real)
    ensures Fold(op, [x]) == x
  {
  }

  /** Moving the middle operand to the end: both operations are associative and commutative. */
  lemma ApplyRotate(op: Op, a: real, x: real, b: real)
    ensures Apply(op, a, Apply(op, x, b)) == Apply(op, Apply(op, a, b), x)
  {
  }

  /** Removing the element at i and applying it afterwards leaves the fold unchanged. */
  lemma FoldRemove(op: Op, xs: seq<real>, i: nat)
    requires i < |xs|
    ensures Fold(op, xs) == Apply(op, Fold(op, xs[..i] + xs[i + 1..]), xs[i])
  {
    var front, x, back := xs[..i], xs[i], xs[i + 1..];
    assert xs == front + ([x] + back);
    FoldAppend(op, front, [x] + back);
    FoldAppend(op, [x], back);
    FoldSingle(op, x);
    FoldAppend(op, front, back);
    ApplyRotate(op, Fold(op, front), x, Fold(op, back));
  }

  /** Sum and product do not depend on the order of the operands. */
  lemma {:induction false} FoldPermutation(op: Op, xs: seq<real>, ys: seq<real>)
    requires multiset(xs) == multiset(ys)
    ensures Fold(op, xs) == Fold(op, ys)
    decreases |xs|
  {
    if xs != [] {
      var last := xs[|xs| - 1];
      assert xs == xs[..|xs| - 1] + [last];
      assert last in multiset(ys);
      var i :| 0 <= i < |ys| && ys[i] == last;
      assert ys == ys[..i] + [ys[i]] + ys[i + 1..];
      var rest := ys[..i] + ys[i + 1..];
      assert multiset(ys) == multiset(rest) + multiset{last};
      assert multiset(xs) == multiset(xs[..|xs| - 1]) + multiset{last};
      assert multiset(rest) == multiset(ys) - multiset{last};
      assert multiset(xs[..|xs| - 1]) == multiset(xs) - multiset{last};
      FoldPermutation(op, xs[..|xs| - 1], rest);
      FoldRemove(op, ys, i);
    } else {
      assert |ys| == |multiset(ys)| == 0;
    }
  }

  /** A zero factor anywhere makes the product zero. */
  lemma {:induction false} ProductWithZero(xs: seq<real>, i: nat)
    requires i < |xs| && xs[i] == 0.0
    ensures Fold(Mul, xs) == 0.0
  {
    FoldRemove(Mul, xs, i);
  }
}
