/** Evaluation and application, and the primitive procedures. `Eval` and
    `Apply` are mutually recursive: a cell evaluates its head and applies the
    result to its unevaluated tail, and every primitive decides for itself
    which of its operands to evaluate.

    Every call evaluates a sub-expression of its argument list or of the
    expression itself, so the recursion decreases on `Size`; the second and
    third components order the functions that share an argument list. */
module Evaluator {
  import opened Errors
  import opened Objects
  import opened Arith

  /** `Object::Eval` for each kind of node. Null and primitive procedures
      have no defined value (a null dereference and a missing return in the
      C++ code). */
  function Eval(e: Obj): (r: Result<Obj>)
    decreases Size(e), 0, 0
  {
    match e
    case Nil => Err(Undefined)
    case Num(_) => Ok(e)
    case Bool(b) => Ok(Bool(b))
    case Sym(name) => Ok(Lookup(name))
    case Func(_) => Err(Undefined)
    case Cell(f, s) =>
      if f.Nil? then Err(RuntimeError)
      else
        var head :- Eval(f);
        if head.Nil? then Err(RuntimeError) else Apply(head, s)
  }

  /** `Object::Apply`: only a procedure can be applied. */
  function Apply(head: Obj, args: Obj): (r: Result<Obj>)
    decreases Size(args), 4, 0
  {
    match head
    case Func(p) => ApplyPrim(p, args)
    case _ => Err(RuntimeError)
  }

  /** `GetVector`: the evaluated elements of an argument list, in order.
      A null element is refused before it is evaluated; a non-cell tail is
      evaluated and then refused by the cast to a cell. */
  function GetVector(args: Obj): (r: Result<seq<Obj>>)
    ensures r.Ok? ==> IsProperList(args) && |r.value| == Length(args)
    decreases Size(args), 1, 0
  {
    match args
    case Nil => Ok([])
    case Cell(f, s) =>
      if f.Nil? then Err(RuntimeError)
      else
        var v :- Eval(f);
        var vs :- GetVector(s);
        Ok([v] + vs)
    case _ =>
      match Eval(args)
      case Err(k) => Err(k)
      case Ok(_) => Err(RuntimeError)
  }

  function ApplyPrim(p: Prim, args: Obj): (r: Result<Obj>)
    decreases Size(args), 3, 0
  {
    match p
    case IsBoolean => ApplyIsBoolean(args)
    case Not => ApplyNot(args)
    case And => ApplyAnd(args)
    case Or => ApplyOr(args)
    case Quote => ApplyQuote(args)
    case IsPair => ApplyIsPair(args)
    case IsNull => ApplyIsNull(args)
    case IsList => ApplyIsList(args)
    case Cons => ApplyCons(args)
    case Car => ApplyCar(args)
    case Cdr => ApplyCdr(args)
    case List => ApplyList(args)
    case ListRef => ApplyListRef(args)
    case ListTail => ApplyListTail(args)
    case IsNumber => ApplyIsNumber(args)
    case NumEq => ApplyCompare(Eq, args)
    case Greater => ApplyCompare(Gt, args)
    case Less => ApplyCompare(Lt, args)
    case GreaterEq => ApplyCompare(Ge, args)
    case LessEq => ApplyCompare(Le, args)
    case Add => ApplyAdd(args)
    case Sub => ApplySub(args)
    case Mul => ApplyMul(args)
    case Div => ApplyDiv(args)
    case Max => ApplyMax(args)
    case Min => ApplyMin(args)
    case Abs => ApplyAbs(args)
  }

  /** `boolean?`: evaluates its first operand, then insists there is no other. */
  function ApplyIsBoolean(args: Obj): (r: Result<Obj>)
    decreases Size(args), 2, 0
  {
    if !args.Cell? then Err(RuntimeError)
    else
      var v :- Eval(args.first);
      if !args.second.Nil? then Err(RuntimeError) else Ok(Bool(v.Bool?))
  }

  /** `not`: looks at its single operand without evaluating it. */
  function ApplyNot(args: Obj): (r: Result<Obj>)
    decreases Size(args), 2, 0
  {
    var raw := GetRawVector(args);
    if |raw| != 1 then Err(RuntimeError)
    else if raw[0].Bool? then Ok(Bool(!raw[0].b))
    else Ok(Bool(false))
  }

  function ApplyAnd(args: Obj): (r: Result<Obj>)
    decreases Size(args), 2, 0
  {
    var raw := GetRawVector(args);
    RawVectorSize(args);
    if raw == [] then Ok(Bool(true)) else AndFrom(raw, 0)
  }

  /** The loop of `and` over the raw operands from the `i`-th on: `#f` stops
      it; after the last operand, that operand is evaluated once more for
      the result. */
  function AndFrom(raw: seq<Obj>, i: nat): (r: Result<Obj>)
    requires 0 < |raw| && i <= |raw|
    decreases SizeOfAll(raw), 1, |raw| - i
  {
    if i == |raw| then
      Eval(raw[|raw| - 1])
    else
      var v :- Eval(raw[i]);
      if v == Bool(false) then Ok(Bool(false)) else AndFrom(raw, i + 1)
  }

  function ApplyOr(args: Obj): (r: Result<Obj>)
    decreases Size(args), 2, 0
  {
    var raw := GetRawVector(args);
    RawVectorSize(args);
    if raw == [] then Ok(Bool(false)) else OrFrom(raw, 0)
  }

  /** The loop of `or` over the raw operands from the `i`-th on: the first
      value that is not `#f` is the result. */
  function OrFrom(raw: seq<Obj>, i: nat): (r: Result<Obj>)
    requires i <= |raw|
    decreases SizeOfAll(raw), 1, |raw| - i
  {
    if i == |raw| then Ok(Bool(false))
    else
      var v :- Eval(raw[i]);
      if v != Bool(false) then Ok(v) else OrFrom(raw, i + 1)
  }

  /** `quote`: its single operand, unevaluated. */
  function ApplyQuote(args: Obj): (r: Result<Obj>)
    decreases Size(args), 2, 0
  {
    if !args.Cell? then Err(RuntimeError)
    else if !args.second.Nil? then Err(RuntimeError)
    else Ok(args.first)
  }

  function ApplyIsPair(args: Obj): (r: Result<Obj>)
    decreases Size(args), 2, 0
  {
    var v :- GetVector(args);
    if |v| != 1 then Ok(Bool(false)) else Ok(Bool(v[0].Cell?))
  }

  function ApplyIsNull(args: Obj): (r: Result<Obj>)
    decreases Size(args), 2, 0
  {
    var v :- GetVector(args);
    if |v| != 1 then Ok(Bool(false)) else Ok(Bool(GetRawVector(v[0]) == []))
  }

  /** `list?`. The C++ code recurses on the tail by applying `list?` to
      `MakeArgsForList(tail)`, which evaluates back to the tail itself (see
      `EvalProps.IsListRequote`); that walk down the spine is
      `IsProperList`. */
  function ApplyIsList(args: Obj): (r: Result<Obj>)
    decreases Size(args), 2, 0
  {
    var v :- GetVector(args);
    if |v| != 1 then Err(RuntimeError) else Ok(Bool(IsProperList(v[0])))
  }

  function ApplyCons(args: Obj): (r: Result<Obj>)
    decreases Size(args), 2, 0
  {
    var v :- GetVector(args);
    if |v| == 0 then Ok(Nil)
    else if |v| == 1 then Ok(Cell(v[0], Nil))
    else if |v| == 2 then Ok(Cell(v[0], v[1]))
    else Err(RuntimeError)
  }

  /** `car`: the call-site operand must itself be a cell (otherwise a
      NameError, before anything is evaluated). */
  function ApplyCar(args: Obj): (r: Result<Obj>)
    decreases Size(args), 2, 0
  {
    if args.Cell? && args.first.Cell? then
      var v :- Eval(args.first);
      if v.Nil? then Err(RuntimeError)
      else
        var elems := GetRawVector(v);
        if elems != [] then Ok(elems[0]) else Err(RuntimeError)
    else
      Err(NameError)
  }

  function ApplyCdr(args: Obj): (r: Result<Obj>)
    decreases Size(args), 2, 0
  {
    if args.Cell? && args.first.Cell? then
      var v :- Eval(args.first);
      if v.Nil? then Err(RuntimeError)
      else if !v.Cell? then Err(RuntimeError)
      else Ok(v.second)
    else
      Err(NameError)
  }

  function ApplyList(args: Obj): (r: Result<Obj>)
    decreases Size(args), 2, 0
  {
    var v :- GetVector(args);
    Ok(GetObjFrowVector(v, 0))
  }

  /** The index operand of `list-ref`/`list-tail`. A negative index becomes
      a huge unsigned value in the C++ code, larger than any list, so it is
      refused like any other out-of-range index. */
  function ApplyListRef(args: Obj): (r: Result<Obj>)
    decreases Size(args), 2, 0
  {
    var v :- GetVector(args);
    if |v| == 2 && !v[1].Nil? then
      if !v[1].Num? then Err(RuntimeError)
      else
        var list := GetRawVector(v[0]);
        if 0 <= v[1].n < |list| then Ok(list[v[1].n]) else Err(RuntimeError)
    else
      Err(RuntimeError)
  }

  function ApplyListTail(args: Obj): (r: Result<Obj>)
    decreases Size(args), 2, 0
  {
    var v :- GetVector(args);
    if |v| == 2 && !v[1].Nil? then
      if !v[1].Num? then Err(RuntimeError)
      else
        var list := GetRawVector(v[0]);
        if 0 <= v[1].n <= |list| then Ok(GetObjFrowVector(list, v[1].n)) else Err(RuntimeError)
    else
      Err(RuntimeError)
  }

  /** `number?`: looks at its single operand without evaluating it. */
  function ApplyIsNumber(args: Obj): (r: Result<Obj>)
    decreases Size(args), 2, 0
  {
    if !args.Cell? then Err(RuntimeError)
    else if !args.second.Nil? then Err(RuntimeError)
    else Ok(Bool(args.first.Num?))
  }

  /** `=`, `>`, `<`, `>=`, `<=`: the type check comes before the count check,
      and only a single operand is refused. */
  function ApplyCompare(c: Comparison, args: Obj): (r: Result<Obj>)
    decreases Size(args), 2, 0
  {
    var v :- GetVector(args);
    if !AllNumbers(v) then Err(RuntimeError)
    else if |v| == 1 then Err(RuntimeError)
    else Ok(Bool(Chain(c, Values(v))))
  }

  function ApplyAdd(args: Obj): (r: Result<Obj>)
    decreases Size(args), 2, 0
  {
    var v :- GetVector(args);
    if !AllNumbers(v) then Err(RuntimeError) else Ok(Num(Sum(Values(v))))
  }

  function ApplySub(args: Obj): (r: Result<Obj>)
    decreases Size(args), 2, 0
  {
    var v :- GetVector(args);
    if !AllNumbers(v) then Err(RuntimeError)
    else if |v| < 2 then Err(RuntimeError)
    else
      var ns := Values(v);
      Ok(Num(SubFold(ns[0], ns[1..])))
  }

  function ApplyMul(args: Obj): (r: Result<Obj>)
    decreases Size(args), 2, 0
  {
    var v :- GetVector(args);
    if !AllNumbers(v) then Err(RuntimeError) else Ok(Num(Product(Values(v))))
  }

  function ApplyDiv(args: Obj): (r: Result<Obj>)
    decreases Size(args), 2, 0
  {
    var v :- GetVector(args);
    if !AllNumbers(v) then Err(RuntimeError)
    else if |v| < 2 then Err(RuntimeError)
    else
      var ns := Values(v);
      var q :- DivFold(ns[0], ns[1..]);
      Ok(Num(q))
  }

  function ApplyMax(args: Obj): (r: Result<Obj>)
    decreases Size(args), 2, 0
  {
    var v :- GetVector(args);
    if !AllNumbers(v) then Err(RuntimeError)
    else if |v| == 0 then Err(RuntimeError)
    else
      var ns := Values(v);
      Ok(Num(MaxFold(ns[0], ns)))
  }

  function ApplyMin(args: Obj): (r: Result<Obj>)
    decreases Size(args), 2, 0
  {
    var v :- GetVector(args);
    if !AllNumbers(v) then Err(RuntimeError)
    else if |v| == 0 then Err(RuntimeError)
    else
      var ns := Values(v);
      Ok(Num(MinFold(ns[0], ns)))
  }

  function ApplyAbs(args: Obj): (r: Result<Obj>)
    decreases Size(args), 2, 0
  {
    var v :- GetVector(args);
    if !AllNumbers(v) then Err(RuntimeError)
    else if |v| != 1 then Err(RuntimeError)
    else Ok(Num(AbsValue(v[0].n)))
  }
}
