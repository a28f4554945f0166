/** The expression/value graph: numbers, booleans, symbols, cons cells and
    primitive procedures, the fixed table binding names to primitives, and
    the list helpers shared by the primitives. */
module Objects {

  /** The 27 primitive procedures of the global table. */
  datatype Prim =
    | IsBoolean | Not | And | Or | Quote
    | IsPair | IsNull | IsList
    | Cons | Car | Cdr | List | ListRef | ListTail
    | IsNumber
    | NumEq | Greater | Less | GreaterEq | LessEq
    | Add | Sub | Mul | Div | Max | Min | Abs

  /** A node of the expression graph. `Nil` is the null pointer, which the
      interpreter uses as the empty list. */
  datatype Obj =
    | Nil
    | Num(n: int)
    | Bool(b: bool)
    | Sym(name: string)
    | Cell(first: Obj, second: Obj)
    | Func(prim: Prim)

  /** The name each primitive is registered under. */
  function PrimName(p: Prim): (name: string) {
    match p
    case IsBoolean => "boolean?"
    case Not => "not"
    case And => "and"
    case Or => "or"
    case Quote => "quote"
    case IsPair => "pair?"
    case IsNull => "null?"
    case IsList => "list?"
    case Cons => "cons"
    case Car => "car"
    case Cdr => "cdr"
    case List => "list"
    case ListRef => "list-ref"
    case ListTail => "list-tail"
    case IsNumber => "number?"
    case NumEq => "="
    case Greater => ">"
    case Less => "<"
    case GreaterEq => ">="
    case LessEq => "<="
    case Add => "+"
    case Sub => "-"
    case Mul => "*"
    case Div => "/"
    case Max => "max"
    case Min => "min"
    case Abs => "abs"
  }

  /** The global symbol table is built once and never changed; it holds
      this many entries. */
  const TableSize: nat := 27

  /** The `i`-th entry of the table, in registration order. */
  function Registered(i: nat): (p: Prim)
    requires i < TableSize
  {
    match i
    case 0 => IsBoolean
    case 1 => Not
    case 2 => And
    case 3 => Or
    case 4 => Quote
    case 5 => IsPair
    case 6 => IsNull
    case 7 => IsList
    case 8 => Cons
    case 9 => Car
    case 10 => Cdr
    case 11 => List
    case 12 => ListRef
    case 13 => ListTail
    case 14 => IsNumber
    case 15 => NumEq
    case 16 => Greater
    case 17 => Less
    case 18 => GreaterEq
    case 19 => LessEq
    case 20 => Add
    case 21 => Sub
    case 22 => Mul
    case 23 => Div
    case 24 => Max
    case 25 => Min
    case _ => Abs
  }

  /** The position at which a primitive is registered. */
  function RegistrationIndex(p: Prim): (i: nat)
    ensures i < TableSize && Registered(i) == p
  {
    match p
    case IsBoolean => 0
    case Not => 1
    case And => 2
    case Or => 3
    case Quote => 4
    case IsPair => 5
    case IsNull => 6
    case IsList => 7
    case Cons => 8
    case Car => 9
    case Cdr => 10
    case List => 11
    case ListRef => 12
    case ListTail => 13
    case IsNumber => 14
    case NumEq => 15
    case Greater => 16
    case Less => 17
    case GreaterEq => 18
    case LessEq => 19
    case Add => 20
    case Sub => 21
    case Mul => 22
    case Div => 23
    case Max => 24
    case Min => 25
    case Abs => 26
  }

  /** Distinct primitives are registered under distinct names. */
  lemma {:induction false} PrimNameInjective(p: Prim, q: Prim)
    requires PrimName(p) == PrimName(q)
    ensures p == q
  {
  }

  /** Looking a name up among the entries from the `i`-th on. The name is
      part of the measure so that a lookup is unfolded eagerly only when
      both the name and the position are known. */
  function LookupFrom(name: string, i: nat): (o: Obj)
    requires i <= TableSize
    decreases TableSize - i, |name|
  {
    if i == TableSize then Nil
    else if PrimName(Registered(i)) == name then Func(Registered(i))
    else LookupFrom(name, i + 1)
  }

  /** Looking a name up in the global table; an unbound name yields null. */
  function Lookup(name: string): (o: Obj) {
    LookupFrom(name, 0)
  }

  /** The number of nodes of an expression, the measure evaluation
      decreases on. */
  function Size(o: Obj): (n: nat)
    ensures n >= 1
  {
    match o
    case Cell(f, s) => 1 + Size(f) + Size(s)
    case _ => 1
  }

  /** A chain of cells ending in null. */
  predicate IsProperList(o: Obj) {
    match o
    case Nil => true
    case Cell(_, s) => IsProperList(s)
    case _ => false
  }

  /** Number of cells on the spine of `o`. */
  function Length(o: Obj): (n: nat) {
    match o
    case Cell(_, s) => 1 + Length(s)
    case _ => 0
  }

  /** The object the spine of `o` ends in: null for a proper list, the
      atom of a dotted tail otherwise. */
  function FinalTail(o: Obj): (t: Obj)
    ensures !t.Cell?
    ensures t.Nil? <==> IsProperList(o)
  {
    match o
    case Cell(_, s) => FinalTail(s)
    case _ => o
  }

  /** `GetRawVector`: the unevaluated elements of a list; a non-cell,
      non-null tail counts as a final element. */
  function GetRawVector(args: Obj): (v: seq<Obj>)
    ensures |v| == Length(args) + (if args.Nil? || IsProperList(args) then 0 else 1)
    ensures args.Cell? ==> v != [] && v[0] == args.first
  {
    match args
    case Nil => []
    case Cell(f, s) => [f] + GetRawVector(s)
    case _ => [args]
  }

  /** The combined size of the objects of a vector. */
  function SizeOfAll(v: seq<Obj>): (n: nat)
    ensures forall i :: 0 <= i < |v| ==> Size(v[i]) <= n
  {
    if v == [] then 0 else Size(v[0]) + SizeOfAll(v[1..])
  }

  /** The raw vector of a list is no larger than the list. */
  lemma {:induction false} RawVectorSize(args: Obj)
    ensures SizeOfAll(GetRawVector(args)) <= Size(args)
  {
    if args.Cell? {
      RawVectorSize(args.second);
      assert GetRawVector(args)[1..] == GetRawVector(args.second);
    } else if !args.Nil? {
      assert GetRawVector(args)[1..] == [];
    }
  }

  /** `GetObjFrowVector`: a proper list holding `v[i..]`. */
  function GetObjFrowVector(v: seq<Obj>, i: nat): (o: Obj)
    ensures IsProperList(o)
    ensures Length(o) == if i < |v| then |v| - i else 0
    decreases |v| - i
  {
    if i >= |v| then Nil else Cell(v[i], GetObjFrowVector(v, i + 1))
  }

  /** `MakeArgsForList`: the argument list `((quote x))`, which hands `x`
      to a primitive without evaluating it again. */
  function MakeArgsForList(x: Obj): (args: Obj)
    ensures GetRawVector(args) == [Cell(Sym("quote"), Cell(x, Nil))]
  {
    Cell(Cell(Sym("quote"), Cell(x, Nil)), Nil)
  }

  /** `Is<Number>` over a vector of values (`ValidateObj<Number>`). */
  predicate AllNumbers(v: seq<Obj>) {
    forall i :: 0 <= i < |v| ==> v[i].Num?
  }

  /** The integers held by a vector of numbers. */
  function Values(v: seq<Obj>): (ns: seq<int>)
    requires AllNumbers(v)
    ensures |ns| == |v|
    ensures forall i :: 0 <= i < |v| ==> ns[i] == v[i].n
  {
    if v == [] then [] else [v[0].n] + Values(v[1..])
  }
}
