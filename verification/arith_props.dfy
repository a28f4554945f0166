/** What the numeric folds compute, stated without the loops. */
module ArithProps {
  import opened Errors
  import opened Arith

  /** The sum splits over concatenation, so `+` does not depend on how its
      operands are grouped. */
  lemma {:induction false} SumAppend(a: seq<int>, b: seq<int>)
    ensures Sum(a + b) == Sum(a) + Sum(b)
    decreases |b|
  {
    if b == [] {
      assert a + b == a;
    } else {
      var b' := b[..|b| - 1];
      assert (a + b)[..|a + b| - 1] == a + b';
      SumAppend(a, b');
    }
  }

  /** Likewise for the product. */
  lemma {:induction false} ProductAppend(a: seq<int>, b: seq<int>)
    ensures Product(a + b) == Product(a) * Product(b)
    decreases |b|
  {
    if b == [] {
      assert a + b == a;
    } else {
      var b' := b[..|b| - 1];
      assert (a + b)[..|a + b| - 1] == a + b';
      ProductAppend(a, b');
      assert Product(a + b) == Product(a) * Product(b') * b[|b| - 1];
    }
  }

  /** `(- a b c ...)` is `a` minus the sum of the rest. */
  lemma {:induction false} SubFoldIsDifference(acc: int, ns: seq<int>)
    ensures SubFold(acc, ns) == acc - Sum(ns)
    decreases ns
  {
    if ns != [] {
      SubFoldIsDifference(acc - ns[0], ns[1..]);
      SumAppend([ns[0]], ns[1..]);
      assert [ns[0]] + ns[1..] == ns;
      assert Sum([ns[0]]) == ns[0] by { assert [ns[0]][..0] == []; }
    }
  }

  /** The comparison loop holds exactly when the relation holds between
      every pair of neighbours. */
  lemma {:induction false} ChainAllAdjacent(c: Comparison, ns: seq<int>)
    ensures Chain(c, ns) <==> forall i :: 0 <= i < |ns| - 1 ==> Holds(c, ns[i], ns[i + 1])
    decreases ns
  {
    if |ns| >= 2 {
      ChainAllAdjacent(c, ns[1..]);
      if Holds(c, ns[0], ns[1]) {
        forall i | 0 <= i < |ns| - 1
          ensures Chain(c, ns) ==> Holds(c, ns[i], ns[i + 1])
        {
          if i > 0 {
            assert ns[1..][i - 1] == ns[i] && ns[1..][i] == ns[i + 1];
          }
        }
      }
    }
  }

  /** The maximum fold yields one of its inputs that no input exceeds. */
  lemma {:induction false} MaxFoldIsMaximum(acc: int, ns: seq<int>)
    ensures MaxFold(acc, ns) == acc || MaxFold(acc, ns) in ns
    ensures MaxFold(acc, ns) >= acc
    ensures forall i :: 0 <= i < |ns| ==> MaxFold(acc, ns) >= ns[i]
    decreases ns
  {
    if ns != [] {
      var acc' := if ns[0] > acc then ns[0] else acc;
      MaxFoldIsMaximum(acc', ns[1..]);
      forall i | 0 < i < |ns| ensures MaxFold(acc, ns) >= ns[i] {
        assert ns[1..][i - 1] == ns[i];
      }
    }
  }

  /** The minimum fold yields one of its inputs that no input undercuts. */
  lemma {:induction false} MinFoldIsMinimum(acc: int, ns: seq<int>)
    ensures MinFold(acc, ns) == acc || MinFold(acc, ns) in ns
    ensures MinFold(acc, ns) <= acc
    ensures forall i :: 0 <= i < |ns| ==> MinFold(acc, ns) <= ns[i]
    decreases ns
  {
    if ns != [] {
      var acc' := if ns[0] < acc then ns[0] else acc;
      MinFoldIsMinimum(acc', ns[1..]);
      forall i | 0 < i < |ns| ensures MinFold(acc, ns) <= ns[i] {
        assert ns[1..][i - 1] == ns[i];
      }
    }
  }

  /** Truncating division agrees with the Euclidean one on a non-negative
      dividend and a positive divisor. */
  lemma {:induction false} TruncDivNonNegative(a: int, b: int)
    requires a >= 0 && b > 0
    ensures TruncDiv(a, b) == a / b
  {
  }

  /** Truncating division is symmetric about zero in the dividend, which
      is where it departs from Euclidean division. */
  lemma {:induction false} TruncDivNegate(a: int, b: int)
    requires b != 0
    ensures TruncDiv(-a, b) == -TruncDiv(a, b)
  {
    var q := AbsValue(a) / AbsValue(b);
    assert AbsValue(-a) == AbsValue(a);
    if a == 0 {
      assert q == 0;
    } else {
      assert ((-a < 0) == (b < 0)) != ((a < 0) == (b < 0));
    }
  }
}
