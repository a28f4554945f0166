/** The reader: recursive descent from tokens to cons cells, with one
    token of lookahead. The lookahead is the scanner state `Scan`; taking the
    current token and advancing runs the scanner once more on the rest of the
    text, and a scan error there aborts the read. */
module Parser {
  import opened Errors
  import opened Tokenizer
  import opened Objects

  /** An expression read and the scanner state after it. */
  datatype Parsed = Parsed(obj: Obj, next: Scan)

  /** How much input is left; every consumed token makes it smaller. */
  function Remaining(la: Scan): (n: nat) {
    match la
    case End => 0
    case Tok(_, rest) => |rest| + 1
  }

  /** The expression `(quote x)`, as `'x` reads. */
  function Quoted(x: Obj): (q: Obj) {
    Cell(Sym("quote"), Cell(x, Nil))
  }

  /** `Read`: one expression starting at the current token. */
  function Read(la: Scan): (r: Result<Parsed>)
    ensures r.Ok? ==> Remaining(r.value.next) < Remaining(la)
    ensures r.Err? ==> r.error == SyntaxError
    decreases Remaining(la), 0
  {
    match la
    case End => Err(SyntaxError)
    case Tok(token, rest) =>
      var la1 :- Next(rest);
      match token
      case Open => ReadList(la1, true)
      case Close => Err(SyntaxError)
      case Boolean(b) => Ok(Parsed(Bool(b), la1))
      case Dot =>
        // a dot where an expression is expected stands for the expression after it
        if la1.End? then Err(SyntaxError) else Read(la1)
      case Quote =>
        if la1.End? then Err(SyntaxError)
        else
          var x :- Read(la1);
          Ok(Parsed(Quoted(x.obj), x.next))
      case Symbol(name) => Ok(Parsed(Sym(name), la1))
      case Constant(n) => Ok(Parsed(Num(n), la1))
  }

  /** `ReadList`: the elements of a list after its open bracket. Only the
      outermost call for a bracket consumes the close bracket; the calls for
      the rest of the list leave it to that one. */
  function ReadList(la: Scan, withCloseBracket: bool): (r: Result<Parsed>)
    ensures r.Ok? ==> Remaining(r.value.next) < Remaining(la)
    ensures r.Err? ==> r.error == SyntaxError
    decreases Remaining(la), 1
  {
    if la.End? then Err(SyntaxError)
    else if la.token == Dot then Err(SyntaxError)
    else if la.token == Close then
      var la1 :- Next(la.rest);
      Ok(Parsed(Nil, la1))
    else
      var head :- Read(la);
      var tail :- ReadTail(head.next);
      var cell := Cell(head.obj, tail.obj);
      if !withCloseBracket then Ok(Parsed(cell, tail.next))
      else if tail.next.End? then Err(SyntaxError)
      else if tail.next.token == Close then
        var la2 :- Next(tail.next.rest);
        Ok(Parsed(cell, la2))
      else Err(SyntaxError)
  }

  /** What follows a list element decides the rest of the cell: a dot
      introduces a dotted tail, a close bracket ends the list, and anything
      else is the rest of the list. */
  function ReadTail(la: Scan): (r: Result<Parsed>)
    ensures r.Ok? ==> Remaining(r.value.next) <= Remaining(la)
    ensures r.Err? ==> r.error == SyntaxError
    decreases Remaining(la), 2
  {
    if la.Tok? && la.token == Dot then Read(la)
    else if la.Tok? && la.token == Close then Ok(Parsed(Nil, la))
    else ReadList(la, false)
  }
}
