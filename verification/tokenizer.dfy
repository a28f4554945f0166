/** The lexical scanner: turns program text into tokens, one token of
    lookahead at a time. The input stream is modelled as the string that is
    still unread; end of input is the empty string. */
module Tokenizer {
  import opened Errors

  datatype Token =
    | Symbol(name: string)
    | Constant(value: int)
    | Boolean(state: bool)
    | Open
    | Close
    | Dot
    | Quote

  /** The scanner's state after a step: either the end flag is set, or a
      current token is available together with the text after it. */
  datatype Scan = End | Tok(token: Token, rest: string)

  /** `std::isspace` in the C locale. */
  predicate IsSpace(c: char) {
    c == ' ' || c == '\t' || c == '\n' || c == '\U{000B}' || c == '\U{000C}' || c == '\r'
  }

  predicate IsDigit(c: char) {
    '0' <= c <= '9'
  }

  /** `std::isalpha` in the C locale. */
  predicate IsAlpha(c: char) {
    ('a' <= c <= 'z') || ('A' <= c <= 'Z')
  }

  /** Characters that may start a symbol token. */
  predicate IsSymbolStart(c: char) {
    IsAlpha(c) || c == '<' || c == '=' || c == '>' || c == '*' || c == '#'
  }

  /** Characters that may continue a symbol token. */
  predicate IsSymbolContinue(c: char) {
    IsAlpha(c) || IsDigit(c) || c == '<' || c == '=' || c == '>' || c == '*' || c == '#' ||
    c == '?' || c == '!' || c == '-'
  }

  predicate AllSpace(s: string) {
    forall i :: 0 <= i < |s| ==> IsSpace(s[i])
  }

  predicate AllDigits(s: string) {
    forall i :: 0 <= i < |s| ==> IsDigit(s[i])
  }

  /** `s` with its leading whitespace removed. */
  function SkipSpace(s: string): (r: string)
    ensures |r| <= |s|
    ensures r == [] || !IsSpace(r[0])
  {
    if s != [] && IsSpace(s[0]) then SkipSpace(s[1..]) else s
  }

  /** Length of the run of digits at the front of `s`. */
  function DigitSpan(s: string): (n: nat)
    ensures n <= |s|
    ensures forall i :: 0 <= i < n ==> IsDigit(s[i])
    ensures n == |s| || !IsDigit(s[n])
  {
    if s != [] && IsDigit(s[0]) then 1 + DigitSpan(s[1..]) else 0
  }

  /** Length of the run of symbol characters at the front of `s`. */
  function NameSpan(s: string): (n: nat)
    ensures n <= |s|
    ensures forall i :: 0 <= i < n ==> IsSymbolContinue(s[i])
    ensures n == |s| || !IsSymbolContinue(s[n])
  {
    if s != [] && IsSymbolContinue(s[0]) then 1 + NameSpan(s[1..]) else 0
  }

  function DigitValue(c: char): (d: nat)
    requires IsDigit(c)
    ensures d < 10
  {
    (c as int) - ('0' as int)
  }

  /** Decimal value of a run of digits, read most significant digit first. */
  function DecimalValue(ds: string): (v: nat)
    requires AllDigits(ds)
  {
    if ds == [] then 0 else 10 * DecimalValue(ds[..|ds| - 1]) + DigitValue(ds[|ds| - 1])
  }

  /** A sign character followed by whatever comes after it. */
  function ScanSigned(c: char, t: string): (r: Scan)
    requires c == '+' || c == '-'
    ensures r.Tok? && |r.rest| <= |t|
  {
    // end of input, whitespace and any other non-digit all leave the sign alone
    var n := DigitSpan(t);
    if n == 0 then
      Tok(Symbol([c]), t)
    else
      var v: int := DecimalValue(t[..n]);
      Tok(Constant(if c == '+' then v else -v), t[n..])
  }

  /** Characters that are a token on their own. */
  predicate IsPunctuation(c: char) {
    c == '\'' || c == '.' || c == '(' || c == ')' || c == '*' || c == '/'
  }

  /** The token a punctuation character stands for: `*` and `/` are the
      symbols of those names. */
  function Punctuation(c: char): (t: Token)
    requires IsPunctuation(c)
  {
    if c == '\'' then Quote
    else if c == '.' then Dot
    else if c == '(' then Open
    else if c == ')' then Close
    else Symbol([c])
  }

  /** An unsigned number: the whole run of digits at the front of `t`. */
  function ScanNumber(t: string): (r: Scan)
    requires t != [] && IsDigit(t[0])
    ensures r.Tok? && r.token.Constant? && |r.rest| < |t|
  {
    var n := DigitSpan(t);
    Tok(Constant(DecimalValue(t[..n])), t[n..])
  }

  /** What follows a `#`: `t` or `f` makes a boolean, anything else
      (including the end of input) is an error. */
  function ScanHash(t: string): (r: Result<Scan>)
    ensures r.Ok? ==> r.value.Tok? && r.value.token.Boolean? && |r.value.rest| < |t|
    ensures r.Err? ==> r.error == SyntaxError
  {
    if t != [] && t[0] == 't' then Ok(Tok(Boolean(true), t[1..]))
    else if t != [] && t[0] == 'f' then Ok(Tok(Boolean(false), t[1..]))
    else Err(SyntaxError)
  }

  /** A symbol: the start character and the run of symbol characters after
      it. */
  function ScanName(t: string): (r: Scan)
    requires t != []
    ensures r.Tok? && r.token.Symbol? && |r.rest| < |t|
  {
    var n := NameSpan(t[1..]);
    Tok(Symbol(t[..1 + n]), t[1 + n..])
  }

  /** The token that starts at the first character of `t`, tried in the
      order the scanner tests for them. */
  function ScanToken(t: string): (r: Result<Scan>)
    requires t != []
    ensures r.Ok? ==> r.value.Tok? && |r.value.rest| < |t|
    ensures r.Err? ==> r.error == SyntaxError
  {
    var c := t[0];
    if IsPunctuation(c) then Ok(Tok(Punctuation(c), t[1..]))
    else if c == '+' || c == '-' then Ok(ScanSigned(c, t[1..]))
    else if IsDigit(c) then Ok(ScanNumber(t))
    else if c == '#' then ScanHash(t[1..])
    else if IsSymbolStart(c) then Ok(ScanName(t))
    else Err(SyntaxError)
  }

  /** One step of the scanner, `Tokenizer::Next`: skip whitespace; at end of
      input set the end flag, otherwise consume the token that starts there. */
  function Next(s: string): (r: Result<Scan>)
    ensures r.Ok? && r.value.Tok? ==> |r.value.rest| < |s|
    ensures r.Err? ==> r.error == SyntaxError
  {
    var t := SkipSpace(s);
    if t == [] then Ok(End) else ScanToken(t)
  }
}
