/** Properties of evaluation and of the primitive procedures, stated
    against independent descriptions of what each primitive means. */
module EvalProps {
  import opened Errors
  import opened Objects
  import opened Arith
  import opened Evaluator
  import opened ObjectProps
  import opened ArithProps

  /** The expression `(name e1 ... en)`. */
  function Call(name: string, es: seq<Obj>): (e: Obj) {
    Cell(Sym(name), GetObjFrowVector(es, 0))
  }

  /** Every expression of `es` is non-null and evaluates without error. */
  predicate AllEvaluate(es: seq<Obj>) {
    forall i :: 0 <= i < |es| ==> es[i] != Nil && Eval(es[i]).Ok?
  }

  /** The values of expressions that all evaluate. */
  function ValuesOf(es: seq<Obj>): (vs: seq<Obj>)
    requires AllEvaluate(es)
    ensures |vs| == |es|
    ensures forall i :: 0 <= i < |es| ==> vs[i] == Eval(es[i]).value
  {
    if es == [] then [] else [Eval(es[0]).value] + ValuesOf(es[1..])
  }

  // ---------------------------------------------------------------------
  // Evaluation of nodes

  /** Numbers and booleans evaluate to themselves, so evaluating twice
      changes nothing. */
  lemma {:induction false} SelfEvaluating(e: Obj)
    requires e.Num? || e.Bool?
    ensures Eval(e) == Ok(e)
    ensures Eval(Eval(e).value) == Eval(e)
  {
  }

  /** A symbol evaluates to the primitive bound to its name, or to null
      when the name is unbound. */
  lemma {:induction false} SymbolLookup(name: string)
    ensures forall p :: PrimName(p) == name ==> Eval(Sym(name)) == Ok(Func(p))
    ensures (forall p :: PrimName(p) != name) <==> Eval(Sym(name)) == Ok(Nil)
  {
    TableIsNaming();
    if Eval(Sym(name)) != Ok(Nil) {
      var p := Lookup(name).prim;
      assert PrimName(p) == name;
    }
  }

  /** A cell whose head is null, evaluates to null (an unbound name), or
      evaluates to anything but a procedure is a RuntimeError. */
  lemma {:induction false} HeadMustBeProcedure(f: Obj, s: Obj)
    requires f == Nil || (Eval(f).Ok? && !Eval(f).value.Func?)
    ensures Eval(Cell(f, s)) == Err(RuntimeError)
  {
  }

  /** A cell headed by a procedure applies it to the unevaluated tail. */
  lemma {:induction false} HeadAppliedToRawTail(f: Obj, s: Obj, p: Prim)
    requires f != Nil && Eval(f) == Ok(Func(p))
    ensures Eval(Cell(f, s)) == ApplyPrim(p, s)
  {
  }

  // ---------------------------------------------------------------------
  // Argument flattening

  /** An argument list evaluates exactly when it is a proper list whose
      elements are all non-null and all evaluate; the values are the
      elements' values, in order. */
  lemma {:induction false} GetVectorElementwise(args: Obj)
    ensures GetVector(args).Ok? <==> IsProperList(args) && AllEvaluate(GetRawVector(args))
    ensures GetVector(args).Ok? ==> GetVector(args).value == ValuesOf(GetRawVector(args))
    decreases args
  {
    match args
    case Nil =>
    case Cell(f, s) =>
      GetVectorElementwise(s);
      var raw := GetRawVector(args);
      assert raw == [f] + GetRawVector(s);
      assert raw[1..] == GetRawVector(s);
      if IsProperList(args) && AllEvaluate(raw) {
        assert AllEvaluate(GetRawVector(s)) by {
          forall i | 0 <= i < |GetRawVector(s)|
            ensures GetRawVector(s)[i] != Nil && Eval(GetRawVector(s)[i]).Ok?
          {
            assert GetRawVector(s)[i] == raw[i + 1];
          }
        }
      }
      if GetVector(args).Ok? {
        assert AllEvaluate(raw) by {
          forall i | 0 <= i < |raw| ensures raw[i] != Nil && Eval(raw[i]).Ok? {
            if i > 0 {
              assert raw[i] == GetRawVector(s)[i - 1];
            }
          }
        }
      }
    case _ =>
  }

  /** A non-cell tail makes the evaluated flattening fail, while the raw
      flattening keeps it as a last element. When every element before it
      evaluates, the failure is the tail's own evaluation error, or the
      RuntimeError of the cast to a cell. */
  lemma {:induction false} ImproperArgumentsRejected(args: Obj)
    requires !IsProperList(args)
    ensures GetVector(args).Err?
    ensures |GetRawVector(args)| == Length(args) + 1
    ensures (forall j :: 0 <= j < Length(args) ==> Nth(args, j) != Nil && Eval(Nth(args, j)).Ok?) ==>
      GetVector(args) == Err(if Eval(FinalTail(args)).Err? then Eval(FinalTail(args)).error else RuntimeError)
    decreases args
  {
    if args.Cell? {
      ImproperArgumentsRejected(args.second);
      if forall j :: 0 <= j < Length(args) ==> Nth(args, j) != Nil && Eval(Nth(args, j)).Ok? {
        assert Nth(args, 0) == args.first;
        forall j | 0 <= j < Length(args.second)
          ensures Nth(args.second, j) != Nil && Eval(Nth(args.second, j)).Ok?
        {
          assert Nth(args, j + 1) == Nth(args.second, j);
        }
      }
    }
  }

  /** The first element of an argument list that is null or fails to
      evaluate decides the failure: a null element is a RuntimeError, and
      an evaluation error is passed on. */
  lemma {:induction false} FirstFailingArgument(args: Obj, i: nat)
    requires i < Length(args)
    requires forall j :: 0 <= j < i ==> Nth(args, j) != Nil && Eval(Nth(args, j)).Ok?
    ensures Nth(args, i) == Nil ==> GetVector(args) == Err(RuntimeError)
    ensures Nth(args, i) != Nil && Eval(Nth(args, i)).Err? ==> GetVector(args) == Err(Eval(Nth(args, i)).error)
    decreases i
  {
    if i > 0 {
      assert Nth(args, 0) == args.first;
      forall j | 0 <= j < i - 1
        ensures Nth(args.second, j) != Nil && Eval(Nth(args.second, j)).Ok?
      {
        assert Nth(args, j + 1) == Nth(args.second, j);
      }
      FirstFailingArgument(args.second, i - 1);
      assert Nth(args, i) == Nth(args.second, i - 1);
    }
  }

  /** The arguments of `(name e1 ... en)` are `e1 ... en` themselves. */
  lemma {:induction false} CallArguments(es: seq<Obj>)
    ensures GetRawVector(GetObjFrowVector(es, 0)) == es
    ensures AllEvaluate(es) ==> GetVector(GetObjFrowVector(es, 0)) == Ok(ValuesOf(es))
  {
    RawOfBuiltList(es, 0);
    assert es[0..] == es;
    GetVectorElementwise(GetObjFrowVector(es, 0));
  }

  /** Calling a primitive by its name applies it to the unevaluated
      operands. */
  lemma {:induction false} CallByName(p: Prim, es: seq<Obj>)
    ensures Eval(Call(PrimName(p), es)) == ApplyPrim(p, GetObjFrowVector(es, 0))
  {
    SymbolLookup(PrimName(p));
  }

  /** The form `(quote x)` evaluates to `x`, unevaluated, whatever `x` is. */
  lemma {:induction false} QuoteFormEvaluates(x: Obj)
    ensures Eval(Cell(Sym("quote"), Cell(x, Nil))) == Ok(x)
  {
    LookupFromBinds(Quote, 0);
    assert Eval(Sym("quote")) == Ok(Func(Quote));
    HeadAppliedToRawTail(Sym("quote"), Cell(x, Nil), Quote);
  }

  /** `MakeArgsForList(x)` evaluates back to `x` alone, unevaluated. */
  lemma {:induction false} RequotedArguments(x: Obj)
    ensures GetVector(MakeArgsForList(x)) == Ok([x])
  {
    QuoteFormEvaluates(x);
    assert GetVector(Nil) == Ok([]);
    assert [x] + [] == [x];
  }

  /** `list?` recursing through `MakeArgsForList` checks the spine of the
      value: on a cell it asks the same question of the tail, and overall it
      answers whether the value is a proper list. */
  lemma {:induction false} IsListRequote(x: Obj)
    ensures ApplyIsList(MakeArgsForList(x)) == Ok(Bool(IsProperList(x)))
    ensures x.Cell? ==> ApplyIsList(MakeArgsForList(x)) == ApplyIsList(MakeArgsForList(x.second))
  {
    RequotedArguments(x);
    if x.Cell? {
      RequotedArguments(x.second);
    }
  }

  // ---------------------------------------------------------------------
  // Logic

  /** `not` answers #t exactly for the literal false operand, and needs
      exactly one operand. */
  lemma {:induction false} NotMeaning(args: Obj)
    ensures |GetRawVector(args)| != 1 ==> ApplyNot(args) == Err(RuntimeError)
    ensures |GetRawVector(args)| == 1 ==> ApplyNot(args) == Ok(Bool(GetRawVector(args)[0] == Bool(false)))
  {
  }

  /** Index of the first #f among `vs[i..]`, or `|vs|`. */
  function FirstFalse(vs: seq<Obj>, i: nat): (j: nat)
    requires i <= |vs|
    ensures i <= j <= |vs|
    ensures forall k :: i <= k < j ==> vs[k] != Bool(false)
    ensures j < |vs| ==> vs[j] == Bool(false)
    decreases |vs| - i
  {
    if i == |vs| || vs[i] == Bool(false) then i else FirstFalse(vs, i + 1)
  }

  /** What the `and` loop yields from the `i`-th value on: #f when a #f
      follows, otherwise the last value. */
  function AndResult(vs: seq<Obj>, i: nat): (v: Obj)
    requires 0 < |vs| && i <= |vs|
  {
    if FirstFalse(vs, i) < |vs| then Bool(false) else vs[|vs| - 1]
  }

  /** The `and` loop from the `i`-th operand on yields `AndResult`. */
  lemma {:induction false} AndFromMeaning(es: seq<Obj>, i: nat)
    requires 0 < |es| && i <= |es|
    requires AllEvaluate(es)
    ensures AndFrom(es, i) == Ok(AndResult(ValuesOf(es), i))
    decreases |es| - i
  {
    var vs := ValuesOf(es);
    AndFromStep(es, i);
    if i < |vs| && vs[i] != Bool(false) {
      AndFromMeaning(es, i + 1);
      assert FirstFalse(vs, i) == FirstFalse(vs, i + 1);
    } else {
      assert FirstFalse(vs, i) == i;
    }
  }

  /** One turn of the `and` loop, once the operands are known to evaluate. */
  lemma {:induction false} AndFromStep(es: seq<Obj>, i: nat)
    requires 0 < |es| && i <= |es|
    requires AllEvaluate(es)
    ensures var vs := ValuesOf(es);
      AndFrom(es, i) == if i == |vs| then Ok(vs[|vs| - 1])
                          else if vs[i] == Bool(false) then Ok(Bool(false))
                          else AndFrom(es, i + 1)
  {
  }

  /** `and` with all operands evaluating: #t for none, #f when any operand
      is #f, and otherwise the value of the last operand. */
  lemma {:induction false} AndMeaning(args: Obj)
    requires AllEvaluate(GetRawVector(args))
    ensures var vs := ValuesOf(GetRawVector(args));
      ApplyAnd(args) == Ok(if vs == [] then Bool(true)
                           else if Bool(false) in vs then Bool(false)
                           else vs[|vs| - 1])
  {
    AndApplied(args);
    if GetRawVector(args) != [] {
      AndResultMeaning(ValuesOf(GetRawVector(args)));
    }
  }

  /** `and` runs its loop over the raw operands from the first. */
  lemma {:induction false} AndApplied(args: Obj)
    requires AllEvaluate(GetRawVector(args))
    ensures GetRawVector(args) == [] ==> ApplyAnd(args) == Ok(Bool(true))
    ensures GetRawVector(args) != [] ==> ApplyAnd(args) == Ok(AndResult(ValuesOf(GetRawVector(args)), 0))
  {
    var raw := GetRawVector(args);
    if raw != [] {
      assert ApplyAnd(args) == AndFrom(raw, 0);
      AndFromMeaning(raw, 0);
    }
  }

  /** The `and` loop from the start yields #f exactly when some value is #f. */
  lemma {:induction false} AndResultMeaning(vs: seq<Obj>)
    requires vs != []
    ensures AndResult(vs, 0) == if Bool(false) in vs then Bool(false) else vs[|vs| - 1]
  {
    var j := FirstFalse(vs, 0);
    if Bool(false) in vs {
      var k :| 0 <= k < |vs| && vs[k] == Bool(false);
      assert j <= k;
    }
  }

  /** Index of the first value of `vs[i..]` that is not #f, or `|vs|`. */
  function FirstTruthy(vs: seq<Obj>, i: nat): (j: nat)
    requires i <= |vs|
    ensures i <= j <= |vs|
    ensures forall k :: i <= k < j ==> vs[k] == Bool(false)
    ensures j < |vs| ==> vs[j] != Bool(false)
    decreases |vs| - i
  {
    if i == |vs| || vs[i] != Bool(false) then i else FirstTruthy(vs, i + 1)
  }

  /** What the `or` loop yields from the `i`-th value on: the first value
      that is not #f, or #f. */
  function OrResult(vs: seq<Obj>, i: nat): (v: Obj)
    requires i <= |vs|
  {
    var j := FirstTruthy(vs, i);
    if j < |vs| then vs[j] else Bool(false)
  }

  /** The `or` loop from the `i`-th operand on yields `OrResult`. */
  lemma {:induction false} OrFromMeaning(es: seq<Obj>, i: nat)
    requires i <= |es|
    requires AllEvaluate(es)
    ensures OrFrom(es, i) == Ok(OrResult(ValuesOf(es), i))
    decreases |es| - i
  {
    var vs := ValuesOf(es);
    OrFromStep(es, i);
    if i < |vs| && vs[i] == Bool(false) {
      OrFromMeaning(es, i + 1);
      assert FirstTruthy(vs, i) == FirstTruthy(vs, i + 1);
      assert OrResult(vs, i) == OrResult(vs, i + 1);
    } else {
      assert FirstTruthy(vs, i) == i;
      assert OrResult(vs, i) == if i < |vs| then vs[i] else Bool(false);
    }
  }

  /** One turn of the `or` loop, once the operands are known to evaluate. */
  lemma {:induction false} OrFromStep(es: seq<Obj>, i: nat)
    requires i <= |es|
    requires AllEvaluate(es)
    ensures var vs := ValuesOf(es);
      OrFrom(es, i) == if i == |vs| then Ok(Bool(false))
                         else if vs[i] != Bool(false) then Ok(vs[i])
                         else OrFrom(es, i + 1)
  {
  }

  /** `or` with all operands evaluating: the first value that is not #f,
      or #f when there is none (in particular for no operands). */
  lemma {:induction false} OrMeaning(args: Obj)
    requires AllEvaluate(GetRawVector(args))
    ensures var vs := ValuesOf(GetRawVector(args));
      (forall k :: 0 <= k < |vs| ==> vs[k] == Bool(false)) ==> ApplyOr(args) == Ok(Bool(false))
    ensures var vs := ValuesOf(GetRawVector(args));
      forall j :: 0 <= j < |vs| && vs[j] != Bool(false) && (forall k :: 0 <= k < j ==> vs[k] == Bool(false))
        ==> ApplyOr(args) == Ok(vs[j])
  {
    OrApplied(args);
    OrResultMeaning(ValuesOf(GetRawVector(args)));
  }

  /** `or` runs its loop over the raw operands from the first. */
  lemma {:induction false} OrApplied(args: Obj)
    requires AllEvaluate(GetRawVector(args))
    ensures ApplyOr(args) == Ok(OrResult(ValuesOf(GetRawVector(args)), 0))
  {
    var raw := GetRawVector(args);
    if raw == [] {
      assert ApplyOr(args) == Ok(Bool(false));
    } else {
      assert ApplyOr(args) == OrFrom(raw, 0);
      OrFromMeaning(raw, 0);
    }
  }

  /** The `or` loop from the start yields the first value that is not #f,
      or #f when every value is #f. */
  lemma {:induction false} OrResultMeaning(vs: seq<Obj>)
    ensures (forall k :: 0 <= k < |vs| ==> vs[k] == Bool(false)) ==> OrResult(vs, 0) == Bool(false)
    ensures forall j :: (0 <= j < |vs| && vs[j] != Bool(false) && (forall k :: 0 <= k < j ==> vs[k] == Bool(false)))
                        ==> OrResult(vs, 0) == vs[j]
  {
    var j := FirstTruthy(vs, 0);
    forall j' | 0 <= j' < |vs| && vs[j'] != Bool(false) && (forall k :: 0 <= k < j' ==> vs[k] == Bool(false))
      ensures j' == j
    {
      if j' < j {
        assert false;
      } else if j < j' {
        assert false;
      }
    }
  }

  // ---------------------------------------------------------------------
  // Pairs and lists

  /** `cons` by argument count: none gives the empty list, one a
      one-element list, two a pair, more a RuntimeError. */
  lemma {:induction false} ConsByCount(args: Obj, v: seq<Obj>)
    requires GetVector(args) == Ok(v)
    ensures |v| == 0 ==> ApplyCons(args) == Ok(Nil)
    ensures |v| == 1 ==> ApplyCons(args) == Ok(Cell(v[0], Nil)) && GetRawVector(ApplyCons(args).value) == v
    ensures |v| == 2 ==> ApplyCons(args).Ok? && ApplyCons(args).value.first == v[0] && ApplyCons(args).value.second == v[1]
    ensures |v| > 2 <==> ApplyCons(args).Err?
    ensures |v| > 2 ==> ApplyCons(args) == Err(RuntimeError)
  {
  }

  /** `car` and `cdr` refuse a call-site operand that is not itself a cell
      with a NameError, before evaluating anything. */
  lemma {:induction false} CarCdrOperandMustBeCell(args: Obj)
    requires !(args.Cell? && args.first.Cell?)
    ensures ApplyCar(args) == Err(NameError)
    ensures ApplyCdr(args) == Err(NameError)
  {
  }

  /** `car` and `cdr` of a cell operand evaluate it once, ignore any
      further operands, and split a pair; the empty list is a RuntimeError,
      and any other value is its own `car` but has no `cdr`. */
  lemma {:induction false} CarCdrMeaning(args: Obj)
    requires args.Cell? && args.first.Cell? && Eval(args.first).Ok?
    ensures var v := Eval(args.first).value;
      v.Cell? ==> ApplyCar(args) == Ok(v.first) && ApplyCdr(args) == Ok(v.second)
    ensures Eval(args.first).value.Nil? ==>
      ApplyCar(args) == Err(RuntimeError) && ApplyCdr(args) == Err(RuntimeError)
    ensures var v := Eval(args.first).value;
      !v.Cell? && !v.Nil? ==> ApplyCar(args) == Ok(v) && ApplyCdr(args) == Err(RuntimeError)
  {
  }

  /** `(car (c a b))` is the value of `a` and `(cdr (c a b))` the value of
      `b` when the head `c` evaluates to `cons`. */
  lemma {:induction false} CarCdrOfCons(c: Obj, a: Obj, b: Obj)
    requires c != Nil && Eval(c) == Ok(Func(Cons)) && AllEvaluate([a, b])
    ensures var consCall := Cell(c, GetObjFrowVector([a, b], 0));
      ApplyCar(Cell(consCall, Nil)) == Eval(a) && ApplyCdr(Cell(consCall, Nil)) == Eval(b)
  {
    var operands := GetObjFrowVector([a, b], 0);
    var consCall := Cell(c, operands);
    HeadAppliedToRawTail(c, operands, Cons);
    CallArguments([a, b]);
    ConsByCount(operands, ValuesOf([a, b]));
    CarCdrMeaning(Cell(consCall, Nil));
  }

  /** `quote` needs exactly one operand and hands it back unevaluated. */
  lemma {:induction false} QuoteMeaning(args: Obj)
    ensures ApplyQuote(args).Ok? <==> IsProperList(args) && Length(args) == 1
    ensures ApplyQuote(args).Ok? ==> ApplyQuote(args).value == GetRawVector(args)[0]
    ensures ApplyQuote(args).Err? ==> ApplyQuote(args).error == RuntimeError
  {
  }

  /** `boolean?` evaluates its first operand before it looks at the count:
      a failing operand fails the call, an extra operand is a RuntimeError,
      and otherwise the answer is whether the value is a boolean. */
  lemma {:induction false} IsBooleanMeaning(args: Obj)
    ensures !args.Cell? ==> ApplyIsBoolean(args) == Err(RuntimeError)
    ensures args.Cell? && Eval(args.first).Err? ==> ApplyIsBoolean(args) == Err(Eval(args.first).error)
    ensures args.Cell? && Eval(args.first).Ok? && args.second != Nil ==> ApplyIsBoolean(args) == Err(RuntimeError)
    ensures args.Cell? && Eval(args.first).Ok? && args.second == Nil ==>
      ApplyIsBoolean(args) == Ok(Bool(Eval(args.first).value.Bool?))
  {
  }

  /** `number?` looks at its single operand as written, without evaluating
      it: `(number? (+ 1 2))` is #f. Any other count is a RuntimeError. */
  lemma {:induction false} IsNumberMeaning(args: Obj)
    ensures ApplyIsNumber(args).Ok? <==> IsProperList(args) && Length(args) == 1
    ensures ApplyIsNumber(args).Ok? ==> ApplyIsNumber(args) == Ok(Bool(GetRawVector(args)[0].Num?))
    ensures ApplyIsNumber(args).Err? ==> ApplyIsNumber(args).error == RuntimeError
  {
  }

  /** A call of `number?` on a call expression is #f, whatever that call
      would evaluate to. */
  lemma {:induction false} IsNumberOfCall(name: string, es: seq<Obj>)
    ensures ApplyIsNumber(Cell(Call(name, es), Nil)) == Ok(Bool(false))
  {
    IsNumberMeaning(Cell(Call(name, es), Nil));
  }

  /** `pair?` is #t exactly for a single operand whose value is a cell; any
      other count gives #f rather than an error. */
  lemma {:induction false} IsPairMeaning(args: Obj, v: seq<Obj>)
    requires GetVector(args) == Ok(v)
    ensures ApplyIsPair(args) == Ok(Bool(|v| == 1 && v[0].Cell?))
  {
  }

  /** `null?` is #t exactly for a single operand whose value is the empty
      list; any other count gives #f rather than an error. */
  lemma {:induction false} IsNullMeaning(args: Obj, v: seq<Obj>)
    requires GetVector(args) == Ok(v)
    ensures ApplyIsNull(args) == Ok(Bool(|v| == 1 && v[0] == Nil))
  {
    if |v| == 1 {
      RawEmptyIffNil(v[0]);
    }
  }

  /** `list?` needs exactly one operand, and is whether its value is a
      proper list. */
  lemma {:induction false} IsListMeaning(args: Obj, v: seq<Obj>)
    requires GetVector(args) == Ok(v)
    ensures |v| != 1 <==> ApplyIsList(args) == Err(RuntimeError)
    ensures |v| == 1 ==> ApplyIsList(args) == Ok(Bool(IsProperList(v[0])))
  {
  }

  /** `list-ref` needs two operands, the second a number; it succeeds
      exactly for an index below the length of the flattened first operand,
      and yields the element at that index. Everything else is a
      RuntimeError. */
  lemma {:induction false} ListRefBounds(args: Obj, v: seq<Obj>)
    requires GetVector(args) == Ok(v)
    ensures ApplyListRef(args).Ok? <==> |v| == 2 && v[1].Num? && 0 <= v[1].n < |GetRawVector(v[0])|
    ensures ApplyListRef(args).Ok? ==> ApplyListRef(args).value == GetRawVector(v[0])[v[1].n]
    ensures ApplyListRef(args).Err? ==> ApplyListRef(args).error == RuntimeError
  {
  }

  /** `list-tail` needs two operands, the second a number; it succeeds
      exactly for an index up to and including the length, the result
      flattens to the elements from the index on, and it is the empty list
      at the length itself. Everything else is a RuntimeError. */
  lemma {:induction false} ListTailBounds(args: Obj, v: seq<Obj>)
    requires GetVector(args) == Ok(v)
    ensures ApplyListTail(args).Ok? <==> |v| == 2 && v[1].Num? && 0 <= v[1].n <= |GetRawVector(v[0])|
    ensures ApplyListTail(args).Ok? ==> GetRawVector(ApplyListTail(args).value) == GetRawVector(v[0])[v[1].n..]
    ensures ApplyListTail(args).Ok? && v[1].n == |GetRawVector(v[0])| ==> ApplyListTail(args) == Ok(Nil)
    ensures ApplyListTail(args).Err? ==> ApplyListTail(args).error == RuntimeError
  {
    if |v| == 2 && v[1].Num? && 0 <= v[1].n <= |GetRawVector(v[0])| {
      RawOfBuiltList(GetRawVector(v[0]), v[1].n);
    }
  }

  /** `list` applied to `e1 ... en` flattens back to the values of
      `e1 ... en`, and `list?` holds of the result. */
  lemma {:induction false} ListBuildsProperList(es: seq<Obj>)
    requires AllEvaluate(es)
    ensures ApplyList(GetObjFrowVector(es, 0)).Ok?
    ensures GetRawVector(ApplyList(GetObjFrowVector(es, 0)).value) == ValuesOf(es)
    ensures IsProperList(ApplyList(GetObjFrowVector(es, 0)).value)
  {
    CallArguments(es);
    RawOfBuiltList(ValuesOf(es), 0);
    assert ValuesOf(es)[0..] == ValuesOf(es);
  }

  // ---------------------------------------------------------------------
  // Numbers

  /** The comparison primitives: every operand must be a number, a single
      operand is refused, and otherwise the answer is whether the relation
      holds between every pair of neighbours. */
  lemma {:induction false} CompareMeaning(c: Comparison, args: Obj, v: seq<Obj>)
    requires GetVector(args) == Ok(v)
    ensures !AllNumbers(v) || |v| == 1 <==> ApplyCompare(c, args) == Err(RuntimeError)
    ensures AllNumbers(v) && |v| != 1 ==>
      ApplyCompare(c, args) == Ok(Bool(forall i :: 0 <= i < |v| - 1 ==> Holds(c, v[i].n, v[i + 1].n)))
  {
    if AllNumbers(v) && |v| != 1 {
      ChainAllAdjacent(c, Values(v));
    }
  }

  /** `-` is the first operand minus the sum of the others. */
  lemma {:induction false} SubMeaning(args: Obj, v: seq<Obj>)
    requires GetVector(args) == Ok(v) && AllNumbers(v) && |v| >= 2
    ensures ApplySub(args) == Ok(Num(v[0].n - Sum(Values(v)[1..])))
  {
    SubFoldIsDifference(v[0].n, Values(v)[1..]);
  }

  /** `/` fails exactly when some divisor after the first operand is zero,
      and with one divisor it is truncating division. */
  lemma {:induction false} DivMeaning(args: Obj, v: seq<Obj>)
    requires GetVector(args) == Ok(v) && AllNumbers(v) && |v| >= 2
    ensures ApplyDiv(args).Err? <==> exists i :: 1 <= i < |v| && v[i].n == 0
    ensures ApplyDiv(args).Err? ==> ApplyDiv(args).error == RuntimeError
    ensures |v| == 2 && v[1].n != 0 ==> ApplyDiv(args) == Ok(Num(TruncDiv(v[0].n, v[1].n)))
  {
    var ns := Values(v);
    assert 0 in ns[1..] <==> exists i :: 1 <= i < |v| && v[i].n == 0 by {
      if 0 in ns[1..] {
        var j :| 0 <= j < |ns[1..]| && ns[1..][j] == 0;
        assert v[j + 1].n == 0;
      }
      if exists i :: 1 <= i < |v| && v[i].n == 0 {
        var i :| 1 <= i < |v| && v[i].n == 0;
        assert ns[1..][i - 1] == 0;
      }
    }
    if |v| == 2 && v[1].n != 0 {
      assert ns[1..] == [ns[1]];
      assert DivFold(ns[0], [ns[1]]) == Ok(TruncDiv(ns[0], ns[1]));
    }
  }

  /** `max` yields one of its operands that none exceeds; `min` one that
      none undercuts. Both need at least one operand. */
  lemma {:induction false} MaxMinMeaning(args: Obj, v: seq<Obj>)
    requires GetVector(args) == Ok(v) && AllNumbers(v)
    ensures |v| == 0 <==> ApplyMax(args).Err?
    ensures |v| == 0 <==> ApplyMin(args).Err?
    ensures |v| == 0 ==> ApplyMax(args) == Err(RuntimeError) && ApplyMin(args) == Err(RuntimeError)
    ensures ApplyMax(args).Ok? ==>
      (ApplyMax(args).value.Num? && ApplyMax(args).value in v &&
       forall i :: 0 <= i < |v| ==> ApplyMax(args).value.n >= v[i].n)
    ensures ApplyMin(args).Ok? ==>
      (ApplyMin(args).value.Num? && ApplyMin(args).value in v &&
       forall i :: 0 <= i < |v| ==> ApplyMin(args).value.n <= v[i].n)
  {
    if |v| > 0 {
      var ns := Values(v);
      MaxFoldIsMaximum(ns[0], ns);
      MinFoldIsMinimum(ns[0], ns);
      var mx := MaxFold(ns[0], ns);
      var mn := MinFold(ns[0], ns);
      assert mx in ns;
      assert mn in ns;
      var i :| 0 <= i < |ns| && ns[i] == mx;
      assert v[i] == Num(mx);
      var j :| 0 <= j < |ns| && ns[j] == mn;
      assert v[j] == Num(mn);
    }
  }

  /** The expression list of the given numbers. */
  function Numerals(ns: seq<int>): (es: seq<Obj>)
    ensures |es| == |ns|
    ensures forall i :: 0 <= i < |ns| ==> es[i] == Num(ns[i])
  {
    if ns == [] then [] else [Num(ns[0])] + Numerals(ns[1..])
  }

  /** Numerals evaluate to themselves, so an argument list of numerals
      evaluates to the numbers. */
  lemma {:induction false} NumeralArguments(ns: seq<int>)
    ensures GetVector(GetObjFrowVector(Numerals(ns), 0)) == Ok(Numerals(ns))
    ensures AllNumbers(Numerals(ns)) && Values(Numerals(ns)) == ns
  {
    var es := Numerals(ns);
    assert AllEvaluate(es) by {
      forall i | 0 <= i < |es| ensures es[i] != Nil && Eval(es[i]).Ok? {
        assert es[i] == Num(ns[i]);
      }
    }
    CallArguments(es);
    assert ValuesOf(es) == es;
  }

  /** The arithmetic primitives on operands that are all numbers. */
  lemma {:induction false} ArithmeticOnNumbers(args: Obj, v: seq<Obj>)
    requires GetVector(args) == Ok(v) && AllNumbers(v)
    ensures ApplyAdd(args) == Ok(Num(Sum(Values(v))))
    ensures ApplyMul(args) == Ok(Num(Product(Values(v))))
    ensures |v| < 2 ==> ApplySub(args) == Err(RuntimeError) && ApplyDiv(args) == Err(RuntimeError)
  {
  }

  /** A value other than a number among the operands makes every numeric
      primitive a RuntimeError. */
  lemma {:induction false} NonNumberRejected(args: Obj, v: seq<Obj>)
    requires GetVector(args) == Ok(v) && !AllNumbers(v)
    ensures ApplyAdd(args) == Err(RuntimeError) && ApplyMul(args) == Err(RuntimeError)
    ensures ApplySub(args) == Err(RuntimeError) && ApplyDiv(args) == Err(RuntimeError)
    ensures ApplyMax(args) == Err(RuntimeError) && ApplyMin(args) == Err(RuntimeError)
    ensures ApplyAbs(args) == Err(RuntimeError)
    ensures forall c :: ApplyCompare(c, args) == Err(RuntimeError)
  {
  }

  /** `abs` needs exactly one numeric operand. */
  lemma {:induction false} AbsMeaning(args: Obj, v: seq<Obj>)
    requires GetVector(args) == Ok(v) && AllNumbers(v)
    ensures |v| != 1 <==> ApplyAbs(args) == Err(RuntimeError)
    ensures |v| == 1 ==> ApplyAbs(args) == Ok(Num(if v[0].n < 0 then -v[0].n else v[0].n))
  {
  }
}
