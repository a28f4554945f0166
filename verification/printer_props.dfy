/** The text the printer writes, stated against an independent layout: atoms
    as their own spelling, and a list as its elements joined by spaces in
    brackets, with ` . ` before a dotted tail. */
module PrinterProps {
  import opened Errors
  import opened Tokenizer
  import opened Objects
  import opened ObjectProps
  import opened Printer
  import opened ReaderProps

  /** The texts `ts` with one space between neighbours. */
  function Spaced(ts: seq<string>): (s: string)
    decreases |ts|
  {
    if |ts| == 0 then "" else if |ts| == 1 then ts[0] else ts[0] + " " + Spaced(ts[1..])
  }

  /** What an atom prints as, bracketed or not: `()` for null, `#t`/`#f`,
      the symbol's name, the decimal form of a number; a procedure cannot
      be printed. */
  lemma {:induction false} AtomTexts(b: bool, name: string, n: int, p: Prim, brackets: bool)
    ensures Render(Nil, brackets) == Ok("()")
    ensures Render(Bool(b), brackets) == Ok(if b then "#t" else "#f")
    ensures Render(Sym(name), brackets) == Ok(name)
    ensures Render(Num(n), brackets) == Ok(IntToString(n))
    ensures Render(Func(p), brackets) == Err(RuntimeError)
  {
  }

  /** `std::to_string`: a minus sign exactly for a negative number, then
      the digits of its magnitude, with no leading zero unless it is 0. */
  lemma {:induction false} IntToStringMeaning(n: int)
    ensures var s := IntToString(n); |s| >= 1 && (s[0] == '-' <==> n < 0)
    ensures var s := IntToString(n); var ds := if n < 0 then s[1..] else s;
      ds != [] && AllDigits(ds) && DecimalValue(ds) == (if n < 0 then -n else n) &&
      (ds[0] == '0' ==> n == 0)
  {
    var s := IntToString(n);
    if n < 0 {
      DecimalOfNatToString(-n);
      assert s[1..] == NatToString(-n);
    } else {
      DecimalOfNatToString(n);
    }
  }

  /** The body of a list printed without brackets: the elements' texts
      joined by spaces, then ` . ` and the final atom for a dotted tail. */
  lemma {:induction false} BodyLayout(o: Obj, ts: seq<string>, last: string)
    requires o.Cell?
    requires |ts| == Length(o)
    requires forall i :: 0 <= i < |ts| ==> Render(Nth(o, i), true) == Ok(ts[i])
    requires Render(FinalTail(o), true) == Ok(last)
    ensures Render(o, false) == Ok(Spaced(ts) + (if IsProperList(o) then "" else " . " + last))
    decreases o
  {
    var s := o.second;
    assert Nth(o, 0) == o.first;
    if s.Cell? {
      var rest := ts[1..];
      forall i | 0 <= i < |rest| ensures Render(Nth(s, i), true) == Ok(rest[i]) {
        assert Nth(o, i + 1) == Nth(s, i);
      }
      BodyLayout(s, rest, last);
      BodyOfLongerList(o, ts, if IsProperList(o) then "" else " . " + last);
    } else {
      BodyOfOneElement(o, ts[0], last);
      assert ts == [ts[0]];
    }
  }

  /** The body of a one-element list: the element, then nothing before a
      null tail or ` . ` and the atom before any other tail. */
  lemma {:induction false} BodyOfOneElement(o: Obj, t: string, last: string)
    requires o.Cell? && !o.second.Cell?
    requires Render(o.first, true) == Ok(t)
    requires Render(FinalTail(o), true) == Ok(last)
    ensures Render(o, false) == Ok(t + (if IsProperList(o) then "" else " . " + last))
  {
    assert FinalTail(o) == o.second;
    if !o.second.Nil? {
      assert Render(o.second, false) == Render(o.second, true);
    }
  }

  /** The body of a list of two or more elements: the first element's text,
      a space, and the body of the rest. */
  lemma {:induction false} BodyOfLongerList(o: Obj, ts: seq<string>, suffix: string)
    requires o.Cell? && o.second.Cell? && |ts| >= 2
    requires Render(o.first, true) == Ok(ts[0])
    requires Render(o.second, false) == Ok(Spaced(ts[1..]) + suffix)
    ensures Render(o, false) == Ok(Spaced(ts) + suffix)
  {
    var rest := Spaced(ts[1..]);
    assert RenderTail(o.second) == Ok(" " + (rest + suffix));
    assert Spaced(ts) == ts[0] + " " + rest;
    assert ts[0] + (" " + (rest + suffix)) == Spaced(ts) + suffix;
  }

  /** A list prints as `(`, its elements' texts joined by spaces, ` . ` and
      the final atom when the list is dotted, and `)`. */
  lemma {:induction false} ListLayout(o: Obj, ts: seq<string>, last: string)
    requires o.Cell?
    requires |ts| == Length(o)
    requires forall i :: 0 <= i < |ts| ==> Render(Nth(o, i), true) == Ok(ts[i])
    requires Render(FinalTail(o), true) == Ok(last)
    ensures Render(o, true) == Ok("(" + Spaced(ts) + (if IsProperList(o) then "" else " . " + last) + ")")
  {
    BodyLayout(o, ts, last);
    var body := Spaced(ts) + (if IsProperList(o) then "" else " . " + last);
    var head := Render(o.first, true);
    var tail := RenderTail(o.second);
    assert head.Ok? && tail.Ok? && head.value + tail.value == body;
    assert Render(o, true) == Ok("(" + head.value + tail.value + ")");
    assert "(" + head.value + tail.value + ")" == "(" + body + ")";
    assert "(" + body + ")" == "(" + Spaced(ts) + (if IsProperList(o) then "" else " . " + last) + ")";
  }

  /** The pair of 1 and 2 prints as `(1 . 2)`. */
  lemma {:induction false} DottedPairText()
    ensures Render(Cell(Num(1), Num(2)), true) == Ok("(1 . 2)")
  {
    var o := Cell(Num(1), Num(2));
    assert IntToString(1) == "1";
    assert IntToString(2) == "2";
    assert Nth(o, 0) == Num(1);
    assert FinalTail(o) == Num(2) && !IsProperList(o);
    ListLayout(o, ["1"], "2");
    assert Spaced(["1"]) == "1";
    assert "(" + "1" + (" . " + "2") + ")" == "(1 . 2)";
  }

  /** The list of 1 and 2 prints as `(1 2)`. */
  lemma {:induction false} ProperListText()
    ensures Render(Cell(Num(1), Cell(Num(2), Nil)), true) == Ok("(1 2)")
  {
    var o := Cell(Num(1), Cell(Num(2), Nil));
    assert IntToString(1) == "1";
    assert IntToString(2) == "2";
    assert Nth(o, 0) == Num(1);
    assert Nth(o, 1) == Num(2);
    assert FinalTail(o) == Nil && IsProperList(o);
    ListLayout(o, ["1", "2"], "()");
    assert Spaced(["1", "2"]) == "1" + " " + Spaced(["2"]);
    assert Spaced(["1", "2"]) == "1 2";
    assert "(" + "1 2" + "" + ")" == "(1 2)";
  }
}
