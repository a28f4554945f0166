/** The driver: read one whole expression from a string, evaluate it and
    print the value. */
module Interpreter {
  import opened Errors
  import opened Tokenizer
  import opened Objects
  import opened Parser
  import opened Evaluator
  import opened Printer

  /** `ReadFullString`: the text must hold exactly one expression. The
      scanner is primed with the first token, one expression is read, and
      anything but the end of input after it is a SyntaxError. */
  function ReadFullString(s: string): (r: Result<Obj>)
    ensures r.Err? ==> r.error == SyntaxError
  {
    var la :- Next(s);
    var p :- Read(la);
    if p.next.End? then Ok(p.obj) else Err(SyntaxError)
  }

  /** `Interpreter::Run`: a program reading as the empty list is refused,
      anything else is evaluated and its value printed in brackets. */
  function Run(s: string): (r: Result<string>)
    ensures ReadFullString(s).Err? ==> r == Err(SyntaxError)
    ensures ReadFullString(s) == Ok(Nil) ==> r == Err(RuntimeError)
  {
    var obj :- ReadFullString(s);
    if obj.Nil? then Err(RuntimeError)
    else
      var v :- Eval(obj);
      Render(v, true)
  }
}
