/** Whole-program properties of the driver: what reads as one program, and
    what some programs print. */
module InterpreterProps {
  import opened Errors
  import opened Tokenizer
  import opened TokenizerProps
  import opened Objects
  import opened Parser
  import opened ParserProps
  import opened Evaluator
  import opened Printer
  import opened ReaderProps
  import opened EvalProps
  import opened Interpreter

  /** The printed form of a printable value is a whole program text that
      reads back as the value. */
  lemma {:induction false} ReadPrinted(v: Obj)
    requires Printable(v)
    ensures Render(v, true).Ok?
    ensures ReadFullString(Render(v, true).value) == Ok(v)
  {
    assert Next("") == Ok(End);
    ReadRendered(v, "");
    assert Render(v, true).value + "" == Render(v, true).value;
  }

  /** Two printed values one after the other are not one program: the
      reader stops after the first and finds more input. */
  lemma {:induction false} TrailingInputRejected(v: Obj, w: Obj)
    requires Printable(v) && Printable(w)
    ensures Render(v, true).Ok? && Render(w, true).Ok?
    ensures ReadFullString(Render(v, true).value + " " + Render(w, true).value) == Err(SyntaxError)
  {
    RenderDefined(v, true);
    RenderDefined(w, true);
    var tv := Render(v, true).value;
    var tw := Render(w, true).value;
    var rest := " " + tw;
    assert tv + " " + tw == tv + rest;
    LaterTokenPending(w);
    NextSkipsSpace(" ", tw);
    ReadRendered(v, rest);
    ReadStopsBefore(tv + rest, v, Next(rest).value);
  }

  /** A printed value leaves a token for the scanner to find. */
  lemma {:induction false} LaterTokenPending(w: Obj)
    requires Printable(w)
    ensures Render(w, true).Ok?
    ensures Next(Render(w, true).value).Ok? && Next(Render(w, true).value).value.Tok?
  {
    assert Next("") == Ok(End);
    ReadRendered(w, "");
    assert Render(w, true).value + "" == Render(w, true).value;
  }

  /** A read that stops before a pending token does not make a whole program. */
  lemma {:induction false} ReadStopsBefore(s: string, v: Obj, after: Scan)
    requires Next(s).Ok? && Read(Next(s).value) == Ok(Parsed(v, after)) && after.Tok?
    ensures ReadFullString(s) == Err(SyntaxError)
  {
  }

  /** Numbers and booleans are programs that print themselves. */
  lemma {:induction false} SelfEvaluatingProgram(v: Obj)
    requires v.Num? || v.Bool?
    ensures Render(v, true).Ok?
    ensures Run(Render(v, true).value) == Render(v, true)
  {
    ReadPrinted(v);
  }

  /** A quoted printable value is a program that prints the value. */
  lemma {:induction false} QuotedProgram(v: Obj)
    requires Printable(v)
    ensures Render(Quoted(v), true).Ok?
    ensures Run(Render(Quoted(v), true).value) == Render(v, true)
  {
    assert SymbolName("quote") by {
      assert "quote"[0] == 'q';
    }
    assert Printable(Sym("quote")) && Printable(Cell(v, Nil));
    ReadPrinted(Quoted(v));
    QuoteFormEvaluates(v);
  }

  /** `()` is the void program. */
  lemma {:induction false} VoidProgram()
    ensures Run("()") == Err(RuntimeError)
  {
    ReadPrinted(Nil);
  }

  /** `'` before the printed form of a value is one program, and it reads as
      `(quote v)`. */
  lemma {:induction false} QuoteSugarReads(v: Obj)
    requires Printable(v)
    ensures Render(v, true).Ok?
    ensures ReadFullString("'" + Render(v, true).value) == Ok(Cell(Sym("quote"), Cell(v, Nil)))
  {
    RenderDefined(v, true);
    var t := Render(v, true).value;
    assert "'" + t == ['\''] + t;
    PunctuationToken('\'', t);
    assert Next("") == Ok(End);
    ReadRendered(v, "");
    assert t + "" == t;
    QuoteReadsQuoted(t);
  }

  /** The program `'v` prints `v` for any printable value. */
  lemma {:induction false} QuoteSugarProgram(v: Obj)
    requires Printable(v)
    ensures Render(v, true).Ok?
    ensures Run("'" + Render(v, true).value) == Render(v, true)
  {
    QuoteSugarReads(v);
    QuoteFormEvaluates(v);
  }

  /** An open bracket alone is not a program. */
  lemma {:induction false} LoneOpenRejected()
    ensures ReadFullString("(") == Err(SyntaxError)
  {
    assert Next("") == Ok(End);
    assert Next("(") == Ok(Tok(Open, ""));
    NothingAtEnd(true);
  }

  /** A close bracket alone is not a program. */
  lemma {:induction false} LoneCloseRejected()
    ensures ReadFullString(")") == Err(SyntaxError)
  {
    assert Next(")") == Ok(Tok(Close, ""));
    CloseStartsNothing("");
  }

  /** A quote with nothing after it is not a program. */
  lemma {:induction false} LoneQuoteRejected()
    ensures ReadFullString("'") == Err(SyntaxError)
  {
    assert Next("") == Ok(End);
    assert Next("'") == Ok(Tok(Token.Quote, ""));
    QuoteReadsQuoted("");
  }

  /** A list may not start with a dot. */
  lemma {:induction false} LeadingDotProgramRejected()
    ensures ReadFullString("(. 1)") == Err(SyntaxError)
  {
    assert Next("(. 1)") == Ok(Tok(Open, ". 1)"));
    assert Next(". 1)") == Ok(Tok(Dot, " 1)"));
    LeadingDotRejected(" 1)", true);
  }

  /** A list whose close bracket is missing is not a program. */
  lemma {:induction false} UnclosedProgramRejected()
    ensures ReadFullString("(1 2") == Err(SyntaxError)
  {
    var one := Tok(Constant(1), " 2");
    var two := Tok(Constant(2), "");
    assert Next("(1 2") == Ok(Tok(Open, "1 2"));
    OneTwoScans();
    UnclosedTail(two);
    assert Read(one) == Ok(Parsed(Num(1), two));
    assert ReadList(one, true) == Err(SyntaxError);
  }

  /** The tokens of `1 2`. */
  lemma {:induction false} OneTwoScans()
    ensures Next("1 2") == Ok(Tok(Constant(1), " 2"))
    ensures Next(" 2") == Ok(Tok(Constant(2), ""))
  {
    SingleDigitScan("1 2", '1', " 2");
    SpacedDigitScan(" 2", '2', "");
  }

  /** A one-digit number followed by text that does not start with a digit. */
  lemma {:induction false} DigitScan(d: string, rest: string)
    requires |d| == 1 && IsDigit(d[0])
    requires rest == [] || !IsDigit(rest[0])
    ensures Next(d + rest) == Ok(Tok(Constant(DecimalValue(d)), rest))
  {
    DigitRunToken(d, rest);
  }

  /** The last element of an unclosed list leaves no tail to read. */
  lemma {:induction false} UnclosedTail(la: Scan)
    requires la == Tok(Constant(2), "")
    ensures ReadTail(la) == Err(SyntaxError)
  {
    assert Next("") == Ok(End);
    assert Read(la) == Ok(Parsed(Num(2), End));
    NothingAtEnd(false);
    assert ReadTail(End) == Err(SyntaxError);
    assert ReadList(la, false) == Err(SyntaxError);
  }

  /** A dotted tail that is a list splices into the list: `(1 . (2 3))`
      reads as `(1 2 3)`. */
  lemma {:induction false} SplicedProgram()
    ensures ReadFullString("(1 . (2 3))") == Ok(Cell(Num(1), Cell(Num(2), Cell(Num(3), Nil))))
  {
    SpliceScans();
    SplicedList();
    BracketedProgram("(1 . (2 3))", "1 . (2 3))", Cell(Num(1), Cell(Num(2), Cell(Num(3), Nil))));
  }

  /** A program that is one bracketed list read up to the end of input. */
  lemma {:induction false} BracketedProgram(s: string, inner: string, v: Obj)
    requires Next(s) == Ok(Tok(Open, inner)) && Next(inner).Ok?
    requires ReadList(Next(inner).value, true) == Ok(Parsed(v, End))
    ensures ReadFullString(s) == Ok(v)
  {
    ReadOpenStep(inner);
  }

  /** The list body `1 . (2 3))`. */
  lemma {:induction false} SplicedList()
    ensures ReadList(Tok(Constant(1), " . (2 3))"), true) == Ok(Parsed(Cell(Num(1), Cell(Num(2), Cell(Num(3), Nil))), End))
  {
    SpliceScans();
    InnerListRead();
    var one := Tok(Constant(1), " . (2 3))");
    assert Read(one) == Ok(Parsed(Num(1), Tok(Dot, " (2 3))")));
    assert Next("") == Ok(End);
    DottedListSplices(one, Num(1), " (2 3))", Tok(Open, "2 3))"), Cell(Num(2), Cell(Num(3), Nil)), Tok(Close, ""));
  }

  /** The tokens of `(1 . (` and what follows them. */
  lemma {:induction false} SpliceScans()
    ensures Next("(1 . (2 3))") == Ok(Tok(Open, "1 . (2 3))"))
    ensures Next("1 . (2 3))") == Ok(Tok(Constant(1), " . (2 3))"))
    ensures Next(" . (2 3))") == Ok(Tok(Dot, " (2 3))"))
    ensures Next(" (2 3))") == Ok(Tok(Open, "2 3))"))
  {
    OpenScan("(1 . (2 3))", "1 . (2 3))");
    OneScan("1 . (2 3))", " . (2 3))");
    DotOpenScans();
  }

  /** An open bracket in front of `rest`. */
  lemma {:induction false} OpenScan(s: string, rest: string)
    requires s == ['('] + rest
    ensures Next(s) == Ok(Tok(Open, rest))
  {
    PunctuationToken('(', rest);
  }

  /** The digit 1 in front of text that starts with a space. */
  lemma {:induction false} OneScan(s: string, rest: string)
    requires s == "1" + rest && rest != [] && rest[0] == ' '
    ensures Next(s) == Ok(Tok(Constant(1), rest))
  {
    DigitScan("1", rest);
  }

  /** The tokens of ` . (`. */
  lemma {:induction false} DotOpenScans()
    ensures Next(" . (2 3))") == Ok(Tok(Dot, " (2 3))"))
    ensures Next(" (2 3))") == Ok(Tok(Open, "2 3))"))
  {
    assert " . (2 3))" == " " + (['.'] + " (2 3))");
    NextSkipsSpace(" ", ['.'] + " (2 3))");
    PunctuationToken('.', " (2 3))");
    assert " (2 3))" == " " + (['('] + "2 3))");
    NextSkipsSpace(" ", ['('] + "2 3))");
    PunctuationToken('(', "2 3))");
  }

  /** The inner list `(2 3)` of `(1 . (2 3))`, with the outer close bracket
      left pending. */
  lemma {:induction false} InnerListRead()
    ensures Read(Tok(Open, "2 3))")) == Ok(Parsed(Cell(Num(2), Cell(Num(3), Nil)), Tok(Close, "")))
  {
    InnerScans();
    var two := Tok(Constant(2), " 3))");
    var three := Tok(Constant(3), "))");
    var close := Tok(Close, ")");
    assert Read(two) == Ok(Parsed(Num(2), three));
    assert Read(three) == Ok(Parsed(Num(3), close));
    TailAtClose(")");
    ReadListStep(three, Num(3), Nil, close, close, false);
    TailIsRestOfList(three);
    ReadListStep(two, Num(2), Cell(Num(3), Nil), three, close, true);
  }

  /** The tokens of `2 3))`. */
  lemma {:induction false} InnerScans()
    ensures Next("2 3))") == Ok(Tok(Constant(2), " 3))"))
    ensures Next(" 3))") == Ok(Tok(Constant(3), "))"))
    ensures Next("))") == Ok(Tok(Close, ")"))
    ensures Next(")") == Ok(Tok(Close, ""))
  {
    SingleDigitScan("2 3))", '2', " 3))");
    SpacedDigitScan(" 3))", '3', "))");
    CloseScan("))", ")");
    CloseScan(")", "");
  }

  /** One digit in front of text that does not start with a digit. */
  lemma {:induction false} SingleDigitScan(s: string, d: char, rest: string)
    requires IsDigit(d) && s == [d] + rest && (rest == [] || !IsDigit(rest[0]))
    ensures Next(s) == Ok(Tok(Constant(DigitValue(d)), rest))
  {
    DigitScan([d], rest);
  }

  /** A space, then one digit in front of text that does not start with a
      digit. */
  lemma {:induction false} SpacedDigitScan(s: string, d: char, rest: string)
    requires IsDigit(d) && s == [' ', d] + rest && (rest == [] || !IsDigit(rest[0]))
    ensures Next(s) == Ok(Tok(Constant(DigitValue(d)), rest))
  {
    assert s == " " + ([d] + rest);
    NextSkipsSpace(" ", [d] + rest);
    SingleDigitScan([d] + rest, d, rest);
  }

  /** A close bracket in front of `rest`. */
  lemma {:induction false} CloseScan(s: string, rest: string)
    requires s == [')'] + rest
    ensures Next(s) == Ok(Tok(Close, rest))
  {
    PunctuationToken(')', rest);
  }

  /** A quoted element inside a list: `(1 'x)` reads as
      `(1 (quote x))`. */
  lemma {:induction false} QuotedElementProgram()
    ensures ReadFullString("(1 'x)") ==
      Ok(Cell(Num(1), Cell(Cell(Sym("quote"), Cell(Sym("x"), Nil)), Nil)))
  {
    QuotedElementScans();
    QuotedElementList();
    BracketedProgram("(1 'x)", "1 'x)", Cell(Num(1), Cell(Cell(Sym("quote"), Cell(Sym("x"), Nil)), Nil)));
  }

  /** The list body `1 'x)`. */
  lemma {:induction false} QuotedElementList()
    ensures ReadList(Tok(Constant(1), " 'x)"), true) ==
      Ok(Parsed(Cell(Num(1), Cell(Cell(Sym("quote"), Cell(Sym("x"), Nil)), Nil)), End))
  {
    QuotedElementScans();
    var one := Tok(Constant(1), " 'x)");
    var quote := Tok(Token.Quote, "x)");
    var close := Tok(Close, "");
    var qx := Cell(Sym("quote"), Cell(Sym("x"), Nil));
    assert Read(one) == Ok(Parsed(Num(1), quote));
    assert Read(Tok(Symbol("x"), ")")) == Ok(Parsed(Sym("x"), close));
    QuoteReadsQuoted("x)");
    assert Read(quote) == Ok(Parsed(qx, close));
    TailAtClose("");
    ReadListStep(quote, qx, Nil, close, close, false);
    TailIsRestOfList(quote);
    assert Next("") == Ok(End);
    ReadListStep(one, Num(1), Cell(qx, Nil), quote, close, true);
  }

  /** The tokens of `(1 'x)`. */
  lemma {:induction false} QuotedElementScans()
    ensures Next("(1 'x)") == Ok(Tok(Open, "1 'x)"))
    ensures Next("1 'x)") == Ok(Tok(Constant(1), " 'x)"))
    ensures Next(" 'x)") == Ok(Tok(Token.Quote, "x)"))
    ensures Next("x)") == Ok(Tok(Symbol("x"), ")"))
    ensures Next(")") == Ok(Tok(Close, ""))
  {
    OpenScan("(1 'x)", "1 'x)");
    SingleDigitScan("1 'x)", '1', " 'x)");
    QuoteAndNameScans();
  }

  /** The tokens of ` 'x)`. */
  lemma {:induction false} QuoteAndNameScans()
    ensures Next(" 'x)") == Ok(Tok(Token.Quote, "x)"))
    ensures Next("x)") == Ok(Tok(Symbol("x"), ")"))
    ensures Next(")") == Ok(Tok(Close, ""))
  {
    assert " 'x)" == " " + (['\''] + "x)");
    NextSkipsSpace(" ", ['\''] + "x)");
    PunctuationToken('\'', "x)");
    assert SymbolName("x");
    assert "x)" == "x" + ")";
    SymbolToken("x", ")");
    CloseScan(")", "");
  }
}
