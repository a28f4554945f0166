/** The scanner's rules, one lemma per kind of token, stated on whole input
    texts rather than on the scanner's branches. */
module TokenizerProps {
  import opened Errors
  import opened Tokenizer

  /** Names the scanner produces as symbol tokens: the four arithmetic
      signs on their own, or a letter or one of `<=>` followed by symbol
      characters. */
  predicate SymbolName(name: string) {
    name == "+" || name == "-" || name == "*" || name == "/" ||
    (|name| >= 1 && NameStart(name[0]) &&
     forall i :: 1 <= i < |name| ==> IsSymbolContinue(name[i]))
  }

  /** Characters that begin a symbol of more than one character. */
  predicate NameStart(c: char) {
    IsAlpha(c) || c == '<' || c == '=' || c == '>'
  }

  /** Characters that can begin a token. */
  predicate TokenStart(c: char) {
    IsPunctuation(c) || c == '+' || c == '-' || IsDigit(c) || c == '#' || NameStart(c)
  }

  /** True when `r` is a suffix of `s` strictly shorter than `s`. */
  predicate ProperSuffix(r: string, s: string) {
    |r| < |s| && r == s[|s| - |r|..]
  }

  /** Skipping whitespace drops a prefix of `s` made only of whitespace. */
  lemma {:induction false} SkipSpaceDropsBlankPrefix(s: string)
    ensures var r := SkipSpace(s); r == s[|s| - |r|..] && AllSpace(s[..|s| - |r|])
    decreases |s|
  {
    if s != [] && IsSpace(s[0]) {
      var r := SkipSpace(s[1..]);
      SkipSpaceDropsBlankPrefix(s[1..]);
      assert s[1..][|s[1..]| - |r|..] == s[|s| - |r|..];
      assert s[..|s| - |r|] == [s[0]] + s[1..][..|s[1..]| - |r|];
    }
  }

  /** The scanner reports the end of input exactly when only whitespace is
      left. */
  lemma {:induction false} NextEndIffBlank(s: string)
    ensures Next(s) == Ok(End) <==> AllSpace(s)
  {
    var t := SkipSpace(s);
    SkipSpaceDropsBlankPrefix(s);
    if t == [] {
      assert s[..|s|] == s;
    } else {
      assert s[|s| - |t|] == t[0];
      assert ScanToken(t) != Ok(End);
    }
  }

  /** The token rules consume a non-empty prefix of the text. */
  lemma {:induction false} ScanTokenConsumesPrefix(t: string)
    requires t != []
    ensures ScanToken(t).Ok? ==> ProperSuffix(ScanToken(t).value.rest, t)
  {
    var c := t[0];
    if IsPunctuation(c) {
    } else if c == '+' || c == '-' {
      var n := DigitSpan(t[1..]);
      assert t[1..][n..] == t[1 + n..];
    } else if IsDigit(c) {
    } else if c == '#' {
      if ScanHash(t[1..]).Ok? {
        assert t[1..][1..] == t[2..];
      }
    }
  }

  /** A step of the scanner consumes a non-empty prefix of the text: the
      skipped whitespace and the token. */
  lemma {:induction false} NextConsumesPrefix(s: string)
    ensures Next(s).Ok? && Next(s).value.Tok? ==> ProperSuffix(Next(s).value.rest, s)
  {
    var t := SkipSpace(s);
    SkipSpaceDropsBlankPrefix(s);
    if t != [] && ScanToken(t).Ok? {
      ScanTokenConsumesPrefix(t);
      var r := ScanToken(t).value.rest;
      assert s[|s| - |t|..][|t| - |r|..] == s[|s| - |r|..];
    }
  }

  /** Whitespace before a token is skipped wholesale. */
  lemma {:induction false} SkipSpaceOfPrefix(ws: string, s: string)
    requires AllSpace(ws)
    ensures SkipSpace(ws + s) == SkipSpace(s)
    decreases |ws|
  {
    if ws == [] {
      assert ws + s == s;
    } else {
      assert (ws + s)[0] == ws[0];
      assert (ws + s)[1..] == ws[1..] + s;
      SkipSpaceOfPrefix(ws[1..], s);
    }
  }

  /** Leading whitespace does not change the next token. */
  lemma {:induction false} NextSkipsSpace(ws: string, s: string)
    requires AllSpace(ws)
    ensures Next(ws + s) == Next(s)
  {
    SkipSpaceOfPrefix(ws, s);
  }

  /** A longest run: the digit span of `ds + rest` is all of `ds` when `ds`
      is all digits and `rest` does not start with one. */
  lemma {:induction false} DigitSpanOfRun(ds: string, rest: string)
    requires AllDigits(ds)
    requires rest == [] || !IsDigit(rest[0])
    ensures DigitSpan(ds + rest) == |ds|
    decreases |ds|
  {
    if ds == [] {
      assert ds + rest == rest;
    } else {
      assert (ds + rest)[0] == ds[0];
      assert (ds + rest)[1..] == ds[1..] + rest;
      DigitSpanOfRun(ds[1..], rest);
    }
  }

  /** Likewise for a run of symbol characters. */
  lemma {:induction false} NameSpanOfRun(cs: string, rest: string)
    requires forall i :: 0 <= i < |cs| ==> IsSymbolContinue(cs[i])
    requires rest == [] || !IsSymbolContinue(rest[0])
    ensures NameSpan(cs + rest) == |cs|
    decreases |cs|
  {
    if cs == [] {
      assert cs + rest == rest;
    } else {
      assert (cs + rest)[0] == cs[0];
      assert (cs + rest)[1..] == cs[1..] + rest;
      NameSpanOfRun(cs[1..], rest);
    }
  }

  /** Away from whitespace the scanner reads the token at the first
      character. */
  lemma {:induction false} NextAtToken(t: string)
    requires t != [] && !IsSpace(t[0])
    ensures Next(t) == ScanToken(t)
  {
    assert SkipSpace(t) == t;
  }

  /** The single-character tokens: brackets, dot, quote, and the `*` and
      `/` symbols, whatever follows them. */
  lemma {:induction false} PunctuationToken(c: char, rest: string)
    requires IsPunctuation(c)
    ensures Next([c] + rest) == Ok(Tok(Punctuation(c), rest))
  {
    var t := [c] + rest;
    assert t[0] == c && t[1..] == rest;
    NextAtToken(t);
  }

  /** The number rule on a run of digits. */
  lemma {:induction false} ScanNumberDigits(ds: string, rest: string)
    requires ds != [] && AllDigits(ds)
    requires rest == [] || !IsDigit(rest[0])
    ensures ScanNumber(ds + rest) == Tok(Constant(DecimalValue(ds)), rest)
  {
    var t := ds + rest;
    DigitSpanOfRun(ds, rest);
    assert t[..|ds|] == ds;
    assert t[|ds|..] == rest;
  }

  /** An unsigned run of digits is one constant token with the run's
      decimal value. */
  lemma {:induction false} DigitRunToken(ds: string, rest: string)
    requires ds != [] && AllDigits(ds)
    requires rest == [] || !IsDigit(rest[0])
    ensures Next(ds + rest) == Ok(Tok(Constant(DecimalValue(ds)), rest))
  {
    var t := ds + rest;
    assert t[0] == ds[0];
    NextAtToken(t);
    assert ScanToken(t) == Ok(ScanNumber(t));
    ScanNumberDigits(ds, rest);
  }

  /** The value of a constant with an explicit sign. */
  function SignedValue(c: char, v: nat): (n: int) {
    if c == '-' then -(v as int) else v
  }

  /** A sign character is scanned by the signed-number rule. */
  lemma {:induction false} SignStart(c: char, u: string)
    requires c == '+' || c == '-'
    ensures Next([c] + u) == Ok(ScanSigned(c, u))
  {
    var t := [c] + u;
    assert t[0] == c && t[1..] == u;
    NextAtToken(t);
  }

  /** The signed-number rule on a run of digits. */
  lemma {:induction false} ScanSignedDigits(c: char, ds: string, rest: string)
    requires c == '+' || c == '-'
    requires ds != [] && AllDigits(ds)
    requires rest == [] || !IsDigit(rest[0])
    ensures ScanSigned(c, ds + rest) == Tok(Constant(SignedValue(c, DecimalValue(ds))), rest)
  {
    var u := ds + rest;
    DigitSpanOfRun(ds, rest);
    assert u[..|ds|] == ds;
    assert u[|ds|..] == rest;
  }

  /** A sign directly followed by digits is a signed constant. */
  lemma {:induction false} SignedToken(c: char, ds: string, rest: string)
    requires c == '+' || c == '-'
    requires ds != [] && AllDigits(ds)
    requires rest == [] || !IsDigit(rest[0])
    ensures Next([c] + (ds + rest)) == Ok(Tok(Constant(SignedValue(c, DecimalValue(ds))), rest))
  {
    SignStart(c, ds + rest);
    ScanSignedDigits(c, ds, rest);
  }

  /** A sign is the symbol of that sign exactly when no digit follows it. */
  lemma {:induction false} LoneSignToken(c: char, rest: string)
    requires c == '+' || c == '-'
    ensures Next([c] + rest) == Ok(Tok(Symbol([c]), rest)) <==> rest == [] || !IsDigit(rest[0])
  {
    SignStart(c, rest);
    if rest != [] && IsDigit(rest[0]) {
      assert DigitSpan(rest) > 0;
    }
  }

  /** `#t` and `#f` are the booleans; a `#` followed by anything else is a
      syntax error. */
  lemma {:induction false} HashToken(rest: string)
    ensures rest != [] && rest[0] == 't' ==> Next("#" + rest) == Ok(Tok(Boolean(true), rest[1..]))
    ensures rest != [] && rest[0] == 'f' ==> Next("#" + rest) == Ok(Tok(Boolean(false), rest[1..]))
    ensures !(rest != [] && (rest[0] == 't' || rest[0] == 'f')) ==> Next("#" + rest) == Err(SyntaxError)
  {
    var t := "#" + rest;
    assert t[0] == '#' && t[1..] == rest;
    NextAtToken(t);
    assert ScanToken(t) == ScanHash(rest);
  }

  /** A name made of symbol characters reads back as one symbol token when
      it is not glued to a following symbol character. */
  lemma {:induction false} SymbolToken(name: string, rest: string)
    requires SymbolName(name)
    requires rest == [] || !IsSymbolContinue(rest[0])
    ensures Next(name + rest) == Ok(Tok(Symbol(name), rest))
  {
    var t := name + rest;
    assert t[0] == name[0];
    if name == "+" || name == "-" {
      assert t == [name[0]] + rest;
      LoneSignToken(name[0], rest);
    } else if name == "*" || name == "/" {
      assert t == [name[0]] + rest;
      PunctuationToken(name[0], rest);
    } else {
      NextAtToken(t);
      assert ScanToken(t) == Ok(ScanName(t));
      assert t[1..] == name[1..] + rest;
      NameSpanOfRun(name[1..], rest);
      assert t[..|name|] == name;
      assert t[|name|..] == rest;
    }
  }

  /** Every symbol token the scanner produces carries a symbol name. */
  lemma {:induction false} ScannedSymbolIsName(s: string)
    requires Next(s).Ok? && Next(s).value.Tok? && Next(s).value.token.Symbol?
    ensures SymbolName(Next(s).value.token.name)
  {
    var t := SkipSpace(s);
    assert Next(s) == ScanToken(t);
    var name := Next(s).value.token.name;
    if NameStart(t[0]) {
      assert !IsPunctuation(t[0]) && !IsDigit(t[0]) && t[0] != '+' && t[0] != '-' && t[0] != '#';
      assert Next(s) == Ok(ScanName(t));
      var n := NameSpan(t[1..]);
      assert name == t[..1 + n];
      forall i | 1 <= i < |name| ensures IsSymbolContinue(name[i]) {
        assert name[i] == t[1..][i - 1];
      }
    }
  }

  /** The scanner fails exactly at a character that starts no token, or at
      a `#` not followed by `t` or `f`; the failure is a syntax error. */
  lemma {:induction false} ScanErrors(s: string)
    ensures Next(s).Err? <==>
            var t := SkipSpace(s);
            t != [] && (!TokenStart(t[0]) || (t[0] == '#' && !(|t| >= 2 && (t[1] == 't' || t[1] == 'f'))))
    ensures Next(s).Err? ==> Next(s).error == SyntaxError
  {
    var t := SkipSpace(s);
    if t != [] {
      var c := t[0];
      assert Next(s) == ScanToken(t);
      if IsPunctuation(c) || c == '+' || c == '-' || IsDigit(c) {
        assert ScanToken(t).Ok?;
      } else if c == '#' {
        assert ScanToken(t) == ScanHash(t[1..]);
        assert |t| >= 2 ==> t[1..][0] == t[1];
      } else if NameStart(c) {
        assert ScanToken(t) == Ok(ScanName(t));
      } else {
        assert !IsSymbolStart(c);
        assert ScanToken(t) == Err(SyntaxError);
      }
    }
  }
}
