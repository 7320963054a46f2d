// What numbers and operators of a quota expression compute.
module QuotaValue {
  import opened Text
  import opened QuotaGrammar
  import opened QuotaExpr
  import opened QuotaLayout
  import opened QuotaPrint
  import opened QuotaInline

  // ----- numbers -----

  function Ten(n: nat): (r: nat)
    ensures r > 0
  {
    if n == 0 then 1 else 10 * Ten(n - 1)
  }

  /** `t` is the digits `w`, followed by a dot and the digits `f` or, if there are none, alone; at least
      one digit is there. */
  ghost predicate Decimal(t: string, w: string, f: string) {
    AllDigits(w) && AllDigits(f) && w + f != "" && (t == w + "." + f || (f == "" && t == w))
  }

  lemma {:induction false} DigitsHaveNoDot(w: string)
    requires AllDigits(w)
    ensures DotCount(w) == 0 && Scale(w) == 1
  {
    if w != "" { DigitsHaveNoDot(w[..|w| - 1]); }
  }

  lemma {:induction false} WholeOfDigits(w: string)
    requires AllDigits(w)
    ensures Whole(w) == DigitsValue(w)
  {
    if w != "" { WholeOfDigits(w[..|w| - 1]); }
  }

  lemma {:induction false} DotBetween(w: string, f: string)
    requires AllDigits(w) && AllDigits(f)
    ensures var t := w + "." + f;
            DotCount(t) == 1 && Scale(t) == Ten(|f|) && (forall i :: 0 <= i < |t| ==> IsNumberChar(t[i])) &&
            Whole(t) == DigitsValue(w + f)
    decreases |f|
  {
    var t := w + "." + f;
    if f == "" {
      assert t[..|t| - 1] == w && w + f == w;
      DigitsHaveNoDot(w);
      WholeOfDigits(w);
    } else {
      var g := f[..|f| - 1];
      assert t[..|t| - 1] == w + "." + g && (w + f)[..|w + f| - 1] == w + g;
      DotBetween(w, g);
    }
  }

  /** Without a dot, and with one, a number splits into digits. */
  lemma {:induction false} SplitNumber(t: string) returns (w: string, f: string)
    requires (forall i :: 0 <= i < |t| ==> IsNumberChar(t[i])) && DotCount(t) <= 1
    ensures AllDigits(w) && AllDigits(f) && |w + f| == |t| - DotCount(t)
    ensures if DotCount(t) == 1 then t == w + "." + f else f == "" && t == w
  {
    if t == "" {
      w, f := "", "";
    } else {
      var front, c := t[..|t| - 1], t[|t| - 1];
      w, f := SplitNumber(front);
      if DotCount(front) == 1 {
        assert t == w + "." + (f + [c]);
        f := f + [c];
      } else if c != '.' {
        w := w + [c];
      }
    }
  }

  /** A lexeme is a number exactly when it is a decimal. */
  lemma NumberIsDecimal(t: string)
    ensures IsNumber(t) <==> exists w, f :: Decimal(t, w, f)
  {
    if IsNumber(t) {
      var w, f := SplitNumber(t);
      assert Decimal(t, w, f);
    }
    if w, f :| Decimal(t, w, f) {
      if t == w + "." + f { DotBetween(w, f); } else { DigitsHaveNoDot(w); }
    }
  }

  lemma DecimalParts(t: string, w: string, f: string)
    requires Decimal(t, w, f)
    ensures IsNumber(t) && AllDigits(w + f) && Whole(t) == DigitsValue(w + f) && Scale(t) == Ten(|f|)
  {
    if t == w + "." + f {
      DotBetween(w, f);
    } else {
      assert w + f == w;
      DigitsHaveNoDot(w);
      WholeOfDigits(w);
    }
  }

  /** Shifting the dot behind the last digit gives the digits. */
  lemma DecimalValue(t: string, w: string, f: string)
    requires Decimal(t, w, f)
    ensures IsNumber(t) && AllDigits(w + f) && NumberValue(t) * Ten(|f|) as real == DigitsValue(w + f) as real
  {
    hide *;
    DecimalParts(t, w, f);
    Shifted(Whole(t), Scale(t));
    NumberValueIs(t);
  }

  lemma NumberValueIs(t: string)
    requires IsNumber(t)
    ensures NumberValue(t) == Whole(t) as real / Scale(t) as real
  {
  }

  lemma Shifted(n: nat, s: nat)
    requires s > 0
    ensures n as real / s as real * s as real == n as real
  {
  }

  // ----- operators -----

  /** `r` is the result of the operator on `a` and `b`; nothing without both, and no division by less than
      two to the minus 52. */
  ghost predicate Computes(op: char, r: Option<real>, a: Option<real>, b: Option<real>) {
    if a.None? || b.None? then r.None?
    else if op == '+' then r == Some(a.value + b.value)
    else if op == '-' then r.Some? && r.value + b.value == a.value
    else if op == '*' then r == Some(a.value * b.value)
    else if -1.0 < b.value * 4503599627370496.0 < 1.0 then r.None?
    else r.Some? && r.value * b.value == a.value
  }

  /** `r` is the negative of `a`. */
  ghost predicate Negates(r: Option<real>, a: Option<real>) {
    (r.Some? <==> a.Some?) && (r.Some? ==> r.value + a.value == 0.0)
  }

  /** The value of a tree, from the values of its operands. */
  ghost predicate ValueIs(e: Ast, value: Ast -> Option<real>, look: string -> Option<real>) {
    match e
    case Num(t) =>
      forall w, f :: Decimal(t, w, f) ==> value(e).Some? && value(e).value * Ten(|f|) as real == DigitsValue(w + f) as real
    case Path(p) => value(e) == look(p)
    case Neg(x) => Negates(value(e), value(x))
    case Add(l, r) => Computes('+', value(e), value(l), value(r))
    case Sub(l, r) => Computes('-', value(e), value(l), value(r))
    case Mul(l, r) => Computes('*', value(e), value(l), value(r))
    case Div(l, r) => Computes('/', value(e), value(l), value(r))
  }

  lemma Quotient(a: real, b: real)
    requires Abs(b) >= EPSILON
    ensures Over(a, b) * b == a
  {
  }

  lemma SmallDivisor(b: real)
    ensures Abs(b) < EPSILON <==> -1.0 < b * 4503599627370496.0 < 1.0
  {
  }

  /** Evaluation follows the laws of arithmetic. */
  lemma EvalIs(e: Ast, look: string -> Option<real>)
    ensures ValueIs(e, x => Eval(x, look), look)
  {
    hide Times, Over, IsNumber, NumberValue, Ten, DigitsValue, Computes;
    match e
    case Num(t) =>
      forall w, f | Decimal(t, w, f)
        ensures IsNumber(t) && AllDigits(w + f) && NumberValue(t) * Ten(|f|) as real == DigitsValue(w + f) as real
      {
        DecimalValue(t, w, f);
      }
    case Path(_) =>
    case Neg(_) =>
    case Add(l, r) => CombineIs(e, '+', Eval(l, look), Eval(r, look));
    case Sub(l, r) => CombineIs(e, '-', Eval(l, look), Eval(r, look));
    case Mul(l, r) => CombineIs(e, '*', Eval(l, look), Eval(r, look));
    case Div(l, r) => CombineIs(e, '/', Eval(l, look), Eval(r, look));
  }

  lemma CombineIs(e: Ast, op: char, a: Option<real>, b: Option<real>)
    requires (op == '+' && e.Add?) || (op == '-' && e.Sub?) || (op == '*' && e.Mul?) || (op == '/' && e.Div?)
    ensures Computes(op, Combine(e, a, b), a, b)
  {
    if e.Div? {
      hide Times, Over;
      if a.Some? && b.Some? {
        SmallDivisor(b.value);
        if Abs(b.value) >= EPSILON { Quotient(a.value, b.value); }
      }
    }
  }

  /** So does the meaning of printed text: a sum, difference, product, quotient or negative means what its
      operands' texts mean together, and a number its digits. */
  lemma MeaningIs(e: Ast, inline: bool, look: string -> Option<real>)
    requires WellFormed(e) && (inline ==> Inlineable(e))
    ensures ValueIs(e, x => Meaning(Print(x, inline), look), look)
  {
    EvalIs(e, look);
    hide Print, Meaning, Eval, Computes, Negates, Decimal;
    PrintedMeansTree(e, inline, look);
    match e
    case Num(_) =>
    case Path(_) =>
    case Neg(x) => PrintedMeansTree(x, inline, look);
    case Add(l, r) => PrintedMeansTree(l, inline, look); PrintedMeansTree(r, inline, look);
    case Sub(l, r) => PrintedMeansTree(l, inline, look); PrintedMeansTree(r, inline, look);
    case Mul(l, r) => PrintedMeansTree(l, inline, look); PrintedMeansTree(r, inline, look);
    case Div(l, r) => PrintedMeansTree(l, inline, look); PrintedMeansTree(r, inline, look);
  }
}
