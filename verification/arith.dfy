/** The integer folds behind the numeric primitives. Numbers are unbounded
    here; the 64-bit range of the interpreter is not modelled. */
module Arith {
  import opened Errors

  /** `+`: running sum from 0, left to right. */
  function Sum(ns: seq<int>): (total: int) {
    if ns == [] then 0 else Sum(ns[..|ns| - 1]) + ns[|ns| - 1]
  }

  /** `*`: running product from 1, left to right. */
  function Product(ns: seq<int>): (total: int) {
    if ns == [] then 1 else Product(ns[..|ns| - 1]) * ns[|ns| - 1]
  }

  /** `-`: subtract each of `ns` from `acc` in turn. */
  function SubFold(acc: int, ns: seq<int>): (r: int)
    decreases ns
  {
    if ns == [] then acc else SubFold(acc - ns[0], ns[1..])
  }

  function AbsValue(n: int): (r: nat)
    ensures r == n || r == -n
  {
    if n < 0 then -n else n
  }

  /** C++ integer division, which truncates toward zero (Dafny's `/` is
      Euclidean). */
  function TruncDiv(a: int, b: int): (q: int)
    requires b != 0
    ensures AbsValue(a - q * b) < AbsValue(b)
    ensures a - q * b == 0 || (a - q * b < 0 <==> a < 0)
  {
    var q := AbsValue(a) / AbsValue(b);
    var q' := if (a < 0) == (b < 0) then q else -q;
    TruncDivRemainder(a, b, q');
    q'
  }

  /** The remainder left by truncating division has the magnitude of the
      Euclidean remainder of the magnitudes and the sign of the dividend. */
  lemma {:induction false} TruncDivRemainder(a: int, b: int, q': int)
    requires b != 0
    requires q' == if (a < 0) == (b < 0) then AbsValue(a) / AbsValue(b) else -(AbsValue(a) / AbsValue(b))
    ensures a - q' * b == if a < 0 then -(AbsValue(a) % AbsValue(b)) else AbsValue(a) % AbsValue(b)
  {
    var A: int, B: int := AbsValue(a), AbsValue(b);
    var q: int, m: int := A / B, A % B;
    assert A == q * B + m;
    if a < 0 && b < 0 {
      assert q' == q && b == -B;
      assert q' * b == -(q * B) == -(A - m);
    } else if a < 0 {
      assert q' == -q && b == B;
      assert q' * b == -(q * B) == -(A - m);
    } else if b < 0 {
      assert q' == -q && b == -B;
      assert q' * b == q * B == A - m;
    } else {
      assert q' == q && b == B;
      assert q' * b == q * B == A - m;
    }
  }

  /** `/`: divide `acc` by each of `ns` in turn; a zero divisor aborts the
      whole fold. */
  function DivFold(acc: int, ns: seq<int>): (r: Result<int>)
    ensures r.Err? <==> 0 in ns
    ensures r.Err? ==> r.error == RuntimeError
    decreases ns
  {
    if ns == [] then Ok(acc)
    else if ns[0] == 0 then Err(RuntimeError)
    else
      assert 0 in ns <==> 0 in ns[1..] by { assert ns == [ns[0]] + ns[1..]; }
      DivFold(TruncDiv(acc, ns[0]), ns[1..])
  }

  /** `max`: start from the first element and keep the larger. */
  function MaxFold(acc: int, ns: seq<int>): (m: int)
    decreases ns
  {
    if ns == [] then acc else MaxFold(if ns[0] > acc then ns[0] else acc, ns[1..])
  }

  /** `min`: start from the first element and keep the smaller. */
  function MinFold(acc: int, ns: seq<int>): (m: int)
    decreases ns
  {
    if ns == [] then acc else MinFold(if ns[0] < acc then ns[0] else acc, ns[1..])
  }

  /** The relations of the chained comparison primitives. */
  datatype Comparison = Eq | Gt | Lt | Ge | Le

  predicate Holds(c: Comparison, a: int, b: int) {
    match c
    case Eq => a == b
    case Gt => a > b
    case Lt => a < b
    case Ge => a >= b
    case Le => a <= b
  }

  /** The comparison loop: stops at the first adjacent pair that fails. */
  function Chain(c: Comparison, ns: seq<int>): (b: bool) {
    if |ns| < 2 then true
    else if !Holds(c, ns[0], ns[1]) then false
    else Chain(c, ns[1..])
  }
}
