/** The printer and the reader agree: the text the printer gives for a
    value reads back as that value. */
module ReaderProps {
  import opened Errors
  import opened Tokenizer
  import opened TokenizerProps
  import opened Objects
  import opened Parser
  import opened Printer

  /** Values the printer can write in a form the reader accepts: no
      procedures, and only symbol names the scanner produces. */
  predicate Printable(v: Obj) {
    match v
    case Nil => true
    case Num(_) => true
    case Bool(_) => true
    case Sym(name) => SymbolName(name)
    case Func(_) => false
    case Cell(f, s) => Printable(f) && Printable(s)
  }

  /** Text that cannot extend a token before it. */
  predicate Delimited(rest: string) {
    rest == [] || IsSpace(rest[0]) || rest[0] == ')'
  }

  predicate IsAtom(v: Obj) {
    v.Num? || v.Bool? || v.Sym?
  }

  /** The token an atom is written as. */
  function AtomToken(v: Obj): (t: Token)
    requires IsAtom(v)
  {
    match v
    case Num(n) => Constant(n)
    case Bool(b) => Boolean(b)
    case Sym(name) => Symbol(name)
  }

  /** The digits the printer writes have the value they were written for. */
  lemma {:induction false} DecimalOfNatToString(n: nat)
    ensures AllDigits(NatToString(n))
    ensures DecimalValue(NatToString(n)) == n
    decreases n
  {
    var s := NatToString(n);
    if n >= 10 {
      DecimalOfNatToString(n / 10);
      assert s[..|s| - 1] == NatToString(n / 10);
      assert DigitValue(s[|s| - 1]) == n % 10;
    }
  }

  /** A printed integer scans as the constant of that integer. */
  lemma {:induction false} NumberToken(n: int, rest: string)
    requires rest == [] || !IsDigit(rest[0])
    ensures Next(IntToString(n) + rest) == Ok(Tok(Constant(n), rest))
  {
    if n < 0 {
      NegativeNumberToken(n, rest);
    } else {
      var ds := NatToString(n);
      DecimalOfNatToString(n);
      DigitRunToken(ds, rest);
    }
  }

  /** A negative number is written as a minus sign glued to its digits. */
  lemma {:induction false} NegativeNumberToken(n: int, rest: string)
    requires n < 0
    requires rest == [] || !IsDigit(rest[0])
    ensures Next(IntToString(n) + rest) == Ok(Tok(Constant(n), rest))
  {
    var ds := NatToString(-n);
    DecimalOfNatToString(-n);
    MinusText(ds, rest);
    SignedToken('-', ds, rest);
  }

  lemma {:induction false} MinusText(ds: string, rest: string)
    ensures "-" + ds + rest == ['-'] + (ds + rest)
  {
  }

  /** A printable value always has a printed form. */
  lemma {:induction false} RenderDefined(v: Obj, brackets: bool)
    requires Printable(v)
    ensures Render(v, brackets).Ok?
    ensures v.Cell? ==> RenderTail(v.second).Ok?
    ensures v.Cell? && !brackets ==> Render(v, false).value == Render(v.first, true).value + RenderTail(v.second).value
    ensures v.Cell? && brackets ==> Render(v, true).value == "(" + Render(v.first, true).value + RenderTail(v.second).value + ")"
    decreases v
  {
    if v.Cell? {
      RenderDefined(v.first, true);
      RenderDefined(v.second, false);
    }
  }

  /** The tail of a printed cell starts with a space when it is not empty. */
  lemma {:induction false} TailStartsWithSpace(s: Obj)
    requires RenderTail(s).Ok?
    ensures var t := RenderTail(s).value; t == [] || t[0] == ' '
  {
  }

  /** A printed atom followed by a delimiter scans as its one token. */
  lemma {:induction false} AtomScans(v: Obj, brackets: bool, rest: string)
    requires Printable(v) && IsAtom(v) && Delimited(rest)
    ensures Render(v, brackets).Ok?
    ensures Next(Render(v, brackets).value + rest) == Ok(Tok(AtomToken(v), rest))
  {
    match v
    case Num(n) =>
      NumberToken(n, rest);
    case Bool(b) =>
      HashToken((if b then "t" else "f") + rest);
      assert Render(v, brackets).value + rest == "#" + ((if b then "t" else "f") + rest);
    case Sym(name) =>
      SymbolToken(name, rest);
  }

  /** A printed value followed by a delimiter starts with a token that can
      start an expression: neither a dot nor a close bracket. */
  lemma {:induction false} FirstTokenStartsExpression(v: Obj, brackets: bool, rest: string)
    requires Printable(v) && Delimited(rest)
    ensures Render(v, brackets).Ok?
    ensures var r := Next(Render(v, brackets).value + rest);
            r.Ok? && r.value.Tok? && r.value.token != Dot && r.value.token != Close
    decreases v
  {
    RenderDefined(v, brackets);
    var text := Render(v, brackets).value;
    if IsAtom(v) {
      AtomScans(v, brackets, rest);
    } else if v.Nil? || brackets {
      assert text[0] == '(';
      assert text + rest == ['('] + (text[1..] + rest);
      PunctuationToken('(', text[1..] + rest);
    } else {
      var head := Render(v.first, true).value;
      var tail := RenderTail(v.second).value;
      TailStartsWithSpace(v.second);
      assert text + rest == head + (tail + rest);
      FirstTokenStartsExpression(v.first, true, tail + rest);
    }
  }

  lemma {:induction false} Regroup(a: string, b: string, c: string, d: string, e: string)
    ensures a + b + c + d + e == a + (b + (c + (d + e)))
  {
  }

  lemma {:induction false} RegroupTail(x: string, y: string, z: string)
    ensures " " + (x + y) + z == " " + (x + (y + z))
    ensures " . " + x + z == " " + ("." + (" " + (x + z)))
  {
  }

  /** An open bracket is a token on its own. */
  lemma {:induction false} OpenToken(rest: string)
    ensures Next(['('] + rest) == Ok(Tok(Open, rest))
  {
    PunctuationToken('(', rest);
  }

  /** A close bracket is a token on its own. */
  lemma {:induction false} CloseToken(rest: string)
    ensures Next([')'] + rest) == Ok(Tok(Close, rest))
  {
    PunctuationToken(')', rest);
  }

  /** An open bracket token starts a bracketed list. */
  lemma {:induction false} ReadOpenStep(inner: string)
    requires Next(inner).Ok?
    ensures Read(Tok(Open, inner)) == ReadList(Next(inner).value, true)
  {
  }

  /** The list rule: an element, the rest of the list, and for the
      outermost call the close bracket. */
  lemma {:induction false} ReadListStep(la: Scan, f: Obj, s: Obj, mid: Scan, after: Scan, withCloseBracket: bool)
    requires la.Tok? && la.token != Dot && la.token != Close
    requires Read(la) == Ok(Parsed(f, mid))
    requires ReadTail(mid) == Ok(Parsed(s, after))
    requires withCloseBracket ==> after.Tok? && after.token == Close && Next(after.rest).Ok?
    ensures !withCloseBracket ==> ReadList(la, false) == Ok(Parsed(Cell(f, s), after))
    ensures withCloseBracket ==> ReadList(la, true) == Ok(Parsed(Cell(f, s), Next(after.rest).value))
  {
  }

  /** An atom token reads as the atom, and the reader moves to the next
      token. */
  lemma {:induction false} ReadAtom(v: Obj, rest: string)
    requires IsAtom(v) && Next(rest).Ok?
    ensures Read(Tok(AtomToken(v), rest)) == Ok(Parsed(v, Next(rest).value))
  {
    var la1 := Next(rest).value;
    if v.Num? {
      ReadToken(Constant(v.n), Num(v.n), rest);
    } else if v.Bool? {
      ReadToken(Boolean(v.b), Bool(v.b), rest);
    } else {
      ReadToken(Symbol(v.name), Sym(v.name), rest);
    }
  }

  /** One atom token followed by the text `rest`. */
  lemma {:induction false} ReadToken(t: Token, v: Obj, rest: string)
    requires Next(rest).Ok?
    requires (t.Constant? && v == Num(t.value)) || (t.Boolean? && v == Bool(t.state)) ||
             (t.Symbol? && v == Sym(t.name))
    ensures Read(Tok(t, rest)) == Ok(Parsed(v, Next(rest).value))
  {
  }

  /** A dot where an expression is expected stands for the expression after
      it. */
  lemma {:induction false} ReadDot(x: string)
    requires Next(x).Ok? && Next(x).value.Tok?
    ensures Read(Tok(Dot, x)) == Read(Next(x).value)
  {
  }

  /** A dotted tail: the dot, then one expression. */
  lemma {:induction false} DottedTailStep(x: string, v: Obj, rest: string)
    requires IsAtom(v) && Next(x) == Ok(Tok(AtomToken(v), rest)) && Next(rest).Ok?
    ensures ReadTail(Tok(Dot, x)) == Ok(Parsed(v, Next(rest).value))
  {
    assert ReadTail(Tok(Dot, x)) == Read(Tok(Dot, x));
    ReadDot(x);
    ReadAtom(v, rest);
  }

  /** A printed value followed by a delimiter reads back as that value, and
      the reader stops at the delimiter. */
  lemma {:induction false} ReadRendered(v: Obj, rest: string)
    requires Printable(v) && Delimited(rest) && Next(rest).Ok?
    ensures Render(v, true).Ok?
    ensures Next(Render(v, true).value + rest).Ok?
    ensures Read(Next(Render(v, true).value + rest).value) == Ok(Parsed(v, Next(rest).value))
    decreases v, 2
  {
    RenderDefined(v, true);
    if IsAtom(v) {
      AtomScans(v, true, rest);
      ReadAtom(v, rest);
    } else if v.Nil? {
      ReadRenderedEmpty(rest);
    } else {
      ReadRenderedCell(v, rest);
    }
  }

  /** `()` reads as the empty list. */
  lemma {:induction false} ReadRenderedEmpty(rest: string)
    requires Next(rest).Ok?
    ensures Next("()" + rest) == Ok(Tok(Open, [')'] + rest))
    ensures Read(Tok(Open, [')'] + rest)) == Ok(Parsed(Nil, Next(rest).value))
  {
    assert "()" + rest == ['('] + ([')'] + rest);
    PunctuationToken('(', [')'] + rest);
    PunctuationToken(')', rest);
    ReadOpenStep([')'] + rest);
    ReadCloseStep(rest);
  }

  /** A close bracket right after an open one ends the list at once. */
  lemma {:induction false} ReadCloseStep(rest: string)
    requires Next(rest).Ok?
    ensures ReadList(Tok(Close, rest), true) == Ok(Parsed(Nil, Next(rest).value))
  {
  }

  /** A printed cell is an open bracket, the body and a close bracket. */
  lemma {:induction false} ReadRenderedCell(v: Obj, rest: string)
    requires Printable(v) && v.Cell? && Delimited(rest) && Next(rest).Ok?
    ensures Render(v, true).Ok?
    ensures Next(Render(v, true).value + rest).Ok?
    ensures Read(Next(Render(v, true).value + rest).value) == Ok(Parsed(v, Next(rest).value))
    decreases v, 1
  {
    RenderDefined(v, true);
    CellText(v, rest);
    OpenToken(BodyText(v, rest));
    ListBodyRead(v, rest);
    OpenCompose(Render(v, true).value + rest, BodyText(v, rest), v, rest);
  }

  /** A printed cell and what follows it: an open bracket, then the body. */
  lemma {:induction false} CellText(v: Obj, rest: string)
    requires Printable(v) && v.Cell?
    ensures Render(v, true).Ok?
    ensures Render(v, true).value + rest == ['('] + BodyText(v, rest)
  {
    RenderDefined(v, true);
    var head := Render(v.first, true).value;
    var tail := RenderTail(v.second).value;
    Regroup("(", head, tail, ")", rest);
  }

  /** An open bracket followed by a list body that reads as `v`. */
  lemma {:induction false} OpenCompose(text: string, inner: string, v: Obj, rest: string)
    requires Next(text) == Ok(Tok(Open, inner)) && Next(inner).Ok? && Next(rest).Ok?
    requires ReadList(Next(inner).value, true) == Ok(Parsed(v, Next(rest).value))
    ensures Read(Next(text).value) == Ok(Parsed(v, Next(rest).value))
  {
    ReadOpenStep(inner);
  }

  /** The body of a printed list and its close bracket read back as the
      list. */
  lemma {:induction false} ListBodyRead(v: Obj, rest: string)
    requires Printable(v) && v.Cell? && Delimited(rest) && Next(rest).Ok?
    ensures RenderTail(v.second).Ok? && Render(v.first, true).Ok?
    ensures Next(BodyText(v, rest)).Ok?
    ensures ReadList(Next(BodyText(v, rest)).value, true) == Ok(Parsed(v, Next(rest).value))
    decreases v, 0
  {
    RenderDefined(v, true);
    var after := AfterHead(v, rest);
    assert Delimited(after) && Next(after).Ok? &&
           ReadTail(Next(after).value) == Ok(Parsed(v.second, Tok(Close, rest))) by {
      TailRead(v.second, rest);
    }
    assert Next(BodyText(v, rest)).Ok? &&
           Read(Next(BodyText(v, rest)).value) == Ok(Parsed(v.first, Next(after).value)) by {
      ReadRendered(v.first, after);
    }
    assert var la := Next(BodyText(v, rest)); la.Ok? && la.value.Tok? && la.value.token != Dot && la.value.token != Close by {
      FirstTokenStartsExpression(v.first, true, after);
    }
    ListCompose(BodyText(v, rest), after, rest, v.first, v.second);
    assert Cell(v.first, v.second) == v;
    assert ReadList(Next(BodyText(v, rest)).value, true) == Ok(Parsed(v, Next(rest).value));
  }

  /** What the printer writes for the rest of a list after its first
      element, followed by the close bracket and `rest`. */
  function AfterHead(v: Obj, rest: string): (s: string)
    requires Printable(v) && v.Cell?
  {
    RenderDefined(v, true);
    RenderTail(v.second).value + ([')'] + rest)
  }

  /** The text inside the open bracket of a printed list. */
  function BodyText(v: Obj, rest: string): (s: string)
    requires Printable(v) && v.Cell?
  {
    RenderDefined(v, true);
    Render(v.first, true).value + AfterHead(v, rest)
  }

  /** An element that reads up to `after`, then a tail that reads up to the
      close bracket at `close`. */
  lemma {:induction false} ListCompose(inner: string, after: string, rest: string, f: Obj, s: Obj)
    requires Next(inner).Ok? && Next(after).Ok? && Next(rest).Ok?
    requires Next(inner).value.Tok? && Next(inner).value.token != Dot && Next(inner).value.token != Close
    requires Read(Next(inner).value) == Ok(Parsed(f, Next(after).value))
    requires ReadTail(Next(after).value) == Ok(Parsed(s, Tok(Close, rest)))
    ensures ReadList(Next(inner).value, true) == Ok(Parsed(Cell(f, s), Next(rest).value))
  {
    ReadListStep(Next(inner).value, f, s, Next(after).value, Tok(Close, rest), true);
  }

  /** What the printer writes after the first element of a cell reads back,
      up to the close bracket that follows it, as the rest of the cell. */
  lemma {:induction false} TailRead(s: Obj, r: string)
    requires Printable(s)
    ensures RenderTail(s).Ok?
    ensures Delimited(RenderTail(s).value + ([')'] + r))
    ensures Next(RenderTail(s).value + ([')'] + r)).Ok?
    ensures ReadTail(Next(RenderTail(s).value + ([')'] + r)).value) == Ok(Parsed(s, Tok(Close, r)))
    decreases s, 2
  {
    var rest := [')'] + r;
    CloseToken(r);
    RenderDefined(s, false);
    if s.Nil? {
      assert RenderTail(s).value + rest == rest;
    } else if s.Cell? {
      TailReadCell(s, r);
    } else {
      var atom := Render(s, false).value;
      var x := " " + (atom + rest);
      RegroupTail(atom, [], rest);
      assert RenderTail(s).value + rest == " " + ("." + x);
      NextSkipsSpace(" ", "." + x);
      PunctuationToken('.', x);
      NextSkipsSpace(" ", atom + rest);
      AtomScans(s, false, rest);
      DottedTailStep(x, s, rest);
    }
  }

  /** The tail of a cell is itself a cell: a space, its first element and
      its own tail. */
  lemma {:induction false} TailReadCell(s: Obj, r: string)
    requires Printable(s) && s.Cell?
    ensures RenderTail(s).Ok?
    ensures Next(RenderTail(s).value + ([')'] + r)).Ok?
    ensures ReadTail(Next(RenderTail(s).value + ([')'] + r)).value) == Ok(Parsed(s, Tok(Close, r)))
    decreases s, 1
  {
    var rest := [')'] + r;
    RenderDefined(s, false);
    var head := Render(s.first, true).value;
    var tail := RenderTail(s.second).value;
    var after := tail + rest;
    RegroupTail(head, tail, rest);
    assert RenderTail(s).value + rest == " " + (head + after);
    NextSkipsSpace(" ", head + after);
    TailRead(s.second, r);
    assert Next(rest) == Ok(Tok(Close, r)) by {
      CloseToken(r);
    }
    ReadRendered(s.first, after);
    FirstTokenStartsExpression(s.first, true, after);
    var la := Next(head + after).value;
    ReadListStep(la, s.first, s.second, Next(after).value, Tok(Close, r), false);
    assert ReadTail(la) == ReadList(la, false);
  }
}
