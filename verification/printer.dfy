/** The printer, `RepresentAsStr`: canonical S-expression text of a value. */
module Printer {
  import opened Errors
  import opened Objects

  function DigitChar(d: nat): (c: char)
    requires d < 10
    ensures '0' <= c <= '9'
  {
    (('0' as int) + d) as char
  }

  /** Decimal digits of a natural number, without leading zeros. */
  function NatToString(n: nat): (s: string)
    ensures |s| >= 1
    ensures forall i :: 0 <= i < |s| ==> '0' <= s[i] <= '9'
    ensures s[0] == '0' ==> n == 0
  {
    if n < 10 then [DigitChar(n)] else NatToString(n / 10) + [DigitChar(n % 10)]
  }

  /** `std::to_string` of an integer: a minus sign before the digits of a
      negative number. */
  function IntToString(n: int): (s: string) {
    if n < 0 then "-" + NatToString(-n) else NatToString(n)
  }

  /** `RepresentAsStr(o, brackets)`. A cell is bracketed at the top and in
      `first` position only; the rest of a list is printed inside the same
      brackets. A procedure cannot be printed: the cast to a cell fails. */
  function Render(o: Obj, brackets: bool): (r: Result<string>)
    ensures r.Err? ==> r.error == RuntimeError
    decreases o, 1
  {
    match o
    case Nil => Ok("()")
    case Num(n) => Ok(IntToString(n))
    case Sym(name) => Ok(name)
    case Bool(b) => Ok(if b then "#t" else "#f")
    case Func(_) => Err(RuntimeError)
    case Cell(f, s) =>
      var head :- Render(f, true);
      var tail :- RenderTail(s);
      if brackets then Ok("(" + head + tail + ")") else Ok(head + tail)
  }

  /** What follows the first element of a cell: nothing before a null tail,
      a space before a cell tail, and ` . ` before any other tail. */
  function RenderTail(s: Obj): (r: Result<string>)
    ensures r.Err? ==> r.error == RuntimeError
    decreases s, 2
  {
    if s.Nil? then Ok("")
    else
      var t :- Render(s, false);
      if s.Cell? then Ok(" " + t) else Ok(" . " + t)
  }
}
