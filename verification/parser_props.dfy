/** The reader's refusals and its quote sugar: which token sequences are
    not an expression, and what `'x` reads as. */
module ParserProps {
  import opened Errors
  import opened Tokenizer
  import opened Objects
  import opened Parser

  /** At the end of input there is no expression and no list to read. */
  lemma {:induction false} NothingAtEnd(withCloseBracket: bool)
    ensures Read(End) == Err(SyntaxError)
    ensures ReadList(End, withCloseBracket) == Err(SyntaxError)
  {
  }

  /** A close bracket cannot start an expression. */
  lemma {:induction false} CloseStartsNothing(rest: string)
    ensures Read(Tok(Close, rest)) == Err(SyntaxError)
  {
  }

  /** A dot where an expression is expected reads the expression after it,
      and is a SyntaxError when nothing follows. */
  lemma {:induction false} DotReadsNext(rest: string)
    ensures Next(rest) == Ok(End) ==> Read(Tok(Dot, rest)) == Err(SyntaxError)
    ensures Next(rest).Ok? ==> Read(Tok(Dot, rest)) == Read(Next(rest).value)
    ensures Read(Tok(Dot, rest)).Ok? <==> Next(rest).Ok? && Read(Next(rest).value).Ok?
  {
  }

  /** `'x` reads as `(quote x)`, and is a SyntaxError when no expression
      follows the quote. */
  lemma {:induction false} QuoteReadsQuoted(rest: string)
    ensures Next(rest) == Ok(End) ==> Read(Tok(Token.Quote, rest)) == Err(SyntaxError)
    ensures Read(Tok(Token.Quote, rest)).Ok? <==> Next(rest).Ok? && Read(Next(rest).value).Ok?
    ensures Next(rest).Ok? && Read(Next(rest).value).Ok? ==>
      var x := Read(Next(rest).value).value;
      Read(Tok(Token.Quote, rest)) == Ok(Parsed(Cell(Sym("quote"), Cell(x.obj, Nil)), x.next))
  {
  }

  /** A list cannot start with a dot. */
  lemma {:induction false} LeadingDotRejected(rest: string, withCloseBracket: bool)
    ensures ReadList(Tok(Dot, rest), withCloseBracket) == Err(SyntaxError)
  {
  }

  /** A bracketed list whose elements are not followed by a close bracket,
      because the input ends or another token comes, is a SyntaxError. */
  lemma {:induction false} UnclosedListRejected(la: Scan, f: Obj, mid: Scan, s: Obj, after: Scan)
    requires la.Tok? && la.token != Dot && la.token != Close
    requires Read(la) == Ok(Parsed(f, mid))
    requires ReadTail(mid) == Ok(Parsed(s, after))
    requires !(after.Tok? && after.token == Close)
    ensures ReadList(la, true) == Err(SyntaxError)
  {
  }

  /** A bracketed list is read only when its elements end at a close
      bracket: success means a close bracket followed them. */
  lemma {:induction false} ClosedListNeedsBracket(la: Scan, f: Obj, mid: Scan)
    requires la.Tok? && la.token != Dot && la.token != Close
    requires Read(la) == Ok(Parsed(f, mid))
    ensures ReadList(la, true).Ok? ==>
      ReadTail(mid).Ok? && ReadTail(mid).value.next.Tok? && ReadTail(mid).value.next.token == Close
  {
  }

  /** After a list element, a dot makes the one expression after it the
      tail, whatever that expression is; a dot at the end of input is a
      SyntaxError. */
  lemma {:induction false} TailAfterDot(x: string)
    ensures Next(x) == Ok(End) ==> ReadTail(Tok(Dot, x)) == Err(SyntaxError)
    ensures Next(x).Ok? ==> ReadTail(Tok(Dot, x)) == Read(Next(x).value)
  {
  }

  /** After a list element, a close bracket ends the list: the tail is null
      and the bracket is left for the list to consume. */
  lemma {:induction false} TailAtClose(rest: string)
    ensures ReadTail(Tok(Close, rest)) == Ok(Parsed(Nil, Tok(Close, rest)))
  {
  }

  /** After a list element, any other token, or the end of input, starts
      the rest of the list, read without a close bracket of its own. */
  lemma {:induction false} TailIsRestOfList(la: Scan)
    requires !(la.Tok? && (la.token == Dot || la.token == Close))
    ensures ReadTail(la) == ReadList(la, false)
  {
  }

  /** A dotted tail that is itself a list splices into the list: an
      element `f`, a dot and an expression read as `x`, then the close
      bracket, read as the cell of `f` and `x`. */
  lemma {:induction false} DottedListSplices(la: Scan, f: Obj, x: string, x1: Scan, t: Obj, after: Scan)
    requires la.Tok? && la.token != Dot && la.token != Close
    requires Read(la) == Ok(Parsed(f, Tok(Dot, x)))
    requires Next(x) == Ok(x1) && Read(x1) == Ok(Parsed(t, after))
    requires after.Tok? && after.token == Close && Next(after.rest).Ok?
    ensures ReadList(la, true) == Ok(Parsed(Cell(f, t), Next(after.rest).value))
  {
    TailAfterDot(x);
  }
}
