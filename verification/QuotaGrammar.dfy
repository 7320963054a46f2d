// Quota expressions: the grammar as a parser to syntax trees, and their evaluation. Positions count
// characters.
module QuotaGrammar {
  import opened Text

  datatype Ast =
    | Num(lexeme: string)
    | Path(path: string)
    | Neg(arg: Ast)
    | Add(left: Ast, right: Ast)
    | Sub(left: Ast, right: Ast)
    | Mul(left: Ast, right: Ast)
    | Div(left: Ast, right: Ast)

  // ----- numbers -----

  predicate IsNumberChar(c: char) { IsDigit(c) || c == '.' }

  function DotCount(s: string): nat {
    if s == [] then 0 else DotCount(s[..|s| - 1]) + (if s[|s| - 1] == '.' then 1 else 0)
  }

  /** What f64 parsing accepts among digit-and-dot strings: at most one dot and at least one digit. */
  predicate IsNumber(s: string) {
    (forall i :: 0 <= i < |s| ==> IsNumberChar(s[i])) && DotCount(s) <= 1 && |s| > DotCount(s)
  }

  function Whole(s: string): nat
    requires forall i :: 0 <= i < |s| ==> IsNumberChar(s[i])
  {
    if s == [] then 0
    else if !IsDigit(s[|s| - 1]) then Whole(s[..|s| - 1])
    else 10 * Whole(s[..|s| - 1]) + DigitValue(s[|s| - 1])
  }

  /** Ten to the number of digits after the dot. */
  function Scale(s: string): (r: nat)
    ensures r > 0
  {
    if s == [] || s[|s| - 1] == '.' then 1
    else if DotCount(s) == 0 then 1
    else 10 * Scale(s[..|s| - 1])
  }

  function NumberValue(s: string): real
    requires IsNumber(s)
  {
    Whole(s) as real / Scale(s) as real
  }

  // ----- evaluation -----

  /** f64::EPSILON. */
  const EPSILON: real := 1.0 / 4503599627370496.0

  function Abs(r: real): real { if r < 0.0 then -r else r }

  /** `look` fetches the numeric value at a path of the payload. None is an evaluation error. */
  function Eval(e: Ast, look: string -> Option<real>): Option<real> {
    match e
    case Num(t) => if IsNumber(t) then Some(NumberValue(t)) else None
    case Path(p) => look(p)
    case Neg(x) => (var v := Eval(x, look); if v.Some? then Some(-v.value) else None)
    case Add(l, r) => Combine(e, Eval(l, look), Eval(r, look))
    case Sub(l, r) => Combine(e, Eval(l, look), Eval(r, look))
    case Mul(l, r) => Combine(e, Eval(l, look), Eval(r, look))
    case Div(l, r) => Combine(e, Eval(l, look), Eval(r, look))
  }

  function Times(a: real, b: real): real { a * b }

  function Over(a: real, b: real): real
    requires Abs(b) >= EPSILON
  {
    a / b
  }

  function Combine(op: Ast, l: Option<real>, r: Option<real>): Option<real> {
    if l.None? || r.None? then None
    else match op
      case Add(_, _) => Some(l.value + r.value)
      case Sub(_, _) => Some(l.value - r.value)
      case Mul(_, _) => Some(Times(l.value, r.value))
      case Div(_, _) => if Abs(r.value) < EPSILON then None else Some(Over(l.value, r.value))
      case _ => None
  }

  // ----- the grammar -----

  datatype Parsed = Fail | Done(ast: Ast, pos: nat)

  function NumberEnd(s: string, i: nat): (j: nat)
    requires i <= |s|
    ensures i <= j <= |s|
    decreases |s| - i
  {
    if i < |s| && IsNumberChar(s[i]) then NumberEnd(s, i + 1) else i
  }

  datatype Scanned = Unterminated | Literal(text: string, pos: nat)

  function Prepend(text: string, rest: Scanned): Scanned {
    if rest.Literal? then rest.(text := text + rest.text) else rest
  }

  /** The rest of a string literal; a backslash takes the next character as it is. */
  function ScanString(s: string, i: nat, quote: char): (r: Scanned)
    requires i <= |s|
    ensures r.Literal? ==> i < r.pos <= |s|
    decreases |s| - i
  {
    if i == |s| then Unterminated
    else if s[i] == quote then Literal("", i + 1)
    else if s[i] == '\\' then
      if i + 1 == |s| then Unterminated
      else Prepend([s[i + 1]], ScanString(s, i + 2, quote))
    else Prepend([s[i]], ScanString(s, i + 1, quote))
  }

  /** The tree an operator character builds. */
  function Joined(op: char, l: Ast, r: Ast): Ast {
    if op == '+' then Add(l, r) else if op == '-' then Sub(l, r) else if op == '*' then Mul(l, r) else Div(l, r)
  }

  function ParseAdd(s: string, i: nat): (r: Parsed)
    requires i <= |s|
    ensures r.Done? ==> i < r.pos <= |s|
    decreases |s| - i, 5
  {
    var first := ParseMul(s, i);
    if first.Fail? then Fail else AddLoop(s, first.ast, first.pos)
  }

  function AddLoop(s: string, acc: Ast, i: nat): (r: Parsed)
    requires i <= |s|
    ensures r.Done? ==> i <= r.pos <= |s|
    decreases |s| - i, 4
  {
    var j := SkipWhitespace(s, i);
    if j < |s| && (s[j] == '+' || s[j] == '-') then
      var next := ParseMul(s, j + 1);
      if next.Fail? then Fail
      else AddLoop(s, Joined(s[j], acc, next.ast), next.pos)
    else Done(acc, j)
  }

  function ParseMul(s: string, i: nat): (r: Parsed)
    requires i <= |s|
    ensures r.Done? ==> i < r.pos <= |s|
    decreases |s| - i, 3
  {
    var first := ParseUnary(s, i);
    if first.Fail? then Fail else MulLoop(s, first.ast, first.pos)
  }

  function MulLoop(s: string, acc: Ast, i: nat): (r: Parsed)
    requires i <= |s|
    ensures r.Done? ==> i <= r.pos <= |s|
    decreases |s| - i, 2
  {
    var j := SkipWhitespace(s, i);
    if j < |s| && (s[j] == '*' || s[j] == '/') then
      var next := ParseUnary(s, j + 1);
      if next.Fail? then Fail
      else MulLoop(s, Joined(s[j], acc, next.ast), next.pos)
    else Done(acc, j)
  }

  function ParseUnary(s: string, i: nat): (r: Parsed)
    requires i <= |s|
    ensures r.Done? ==> i < r.pos <= |s|
    decreases |s| - i, 1
  {
    var j := SkipWhitespace(s, i);
    if j < |s| && s[j] == '-' then
      var arg := ParseUnary(s, j + 1);
      if arg.Fail? then Fail else arg.(ast := Neg(arg.ast))
    else if j < |s| && s[j] == '+' then ParseUnary(s, j + 1)
    else ParsePrimary(s, j)
  }

  function ParsePrimary(s: string, i: nat): (r: Parsed)
    requires i <= |s|
    ensures r.Done? ==> i < r.pos <= |s|
    decreases |s| - i, 0
  {
    var j := SkipWhitespace(s, i);
    if j < |s| && s[j] == '(' then
      var inner := ParseAdd(s, j + 1);
      if inner.Fail? then Fail
      else
        var k := SkipWhitespace(s, inner.pos);
        if k < |s| && s[k] == ')' then Done(inner.ast, k + 1) else Fail
    else if OccursAt(s, "path", j) then ParsePath(s, j + 4)
    else ParseNumber(s, j)
  }

  function ParsePath(s: string, i: nat): (r: Parsed)
    requires i <= |s|
    ensures r.Done? ==> i < r.pos <= |s|
  {
    var open := SkipWhitespace(s, i);
    if open == |s| || s[open] != '(' then Fail
    else
      var start := SkipWhitespace(s, open + 1);
      if start == |s| || (s[start] != '\'' && s[start] != '\"') then Fail
      else
        var text := ScanString(s, start + 1, s[start]);
        if text.Unterminated? then Fail
        else
          var close := SkipWhitespace(s, text.pos);
          if close < |s| && s[close] == ')' then Done(Path(text.text), close + 1) else Fail
  }

  function ParseNumber(s: string, i: nat): (r: Parsed)
    requires i <= |s|
    ensures r.Done? ==> i < r.pos <= |s|
  {
    var end := NumberEnd(s, i);
    if end == i || !IsNumber(s[i..end]) then Fail else Done(Num(s[i..end]), end)
  }

  /** The tree of a whole input. */
  function ParseAll(s: string): Option<Ast> {
    var r := ParseAdd(s, 0);
    if r.Done? && SkipWhitespace(s, r.pos) == |s| then Some(r.ast) else None
  }

  // ----- evaluation is strict -----

  lemma {:induction false} AddLoopStrict(s: string, acc: Ast, i: nat, look: string -> Option<real>)
    requires i <= |s| && Eval(acc, look).None?
    ensures var r := AddLoop(s, acc, i); r.Done? ==> Eval(r.ast, look).None?
    decreases |s| - i
  {
    hide ParseMul;
    var j := SkipWhitespace(s, i);
    if j < |s| && (s[j] == '+' || s[j] == '-') {
      var next := ParseMul(s, j + 1);
      if next.Done? {
        AddLoopStrict(s, Joined(s[j], acc, next.ast), next.pos, look);
      }
    }
  }

  lemma {:induction false} MulLoopStrict(s: string, acc: Ast, i: nat, look: string -> Option<real>)
    requires i <= |s| && Eval(acc, look).None?
    ensures var r := MulLoop(s, acc, i); r.Done? ==> Eval(r.ast, look).None?
    decreases |s| - i
  {
    hide Times;
    hide Over;
    hide ParseUnary;
    var j := SkipWhitespace(s, i);
    if j < |s| && (s[j] == '*' || s[j] == '/') {
      var next := ParseUnary(s, j + 1);
      if next.Done? {
        MulLoopStrict(s, Joined(s[j], acc, next.ast), next.pos, look);
      }
    }
  }
}
