// The one-pass evaluator of quota expressions: it parses and computes at the same time.
module QuotaExpr {
  import opened Text
  import opened QuotaGrammar

  /** A fused result agrees with parsing and then evaluating: it is a value exactly when both succeed,
      and then it is that value and the position is where the parse ended. */
  ghost predicate Agrees(r: Option<real>, pos: nat, p: Parsed, look: string -> Option<real>) {
    (r.Some? <==> p.Done? && Eval(p.ast, look).Some?) &&
    (r.Some? ==> p.Done? && pos == p.pos && r == Eval(p.ast, look))
  }

  // ----- one lemma per turn of the loops -----

  lemma AddStart(s: string, i: nat, look: string -> Option<real>, v: Option<real>, pos: nat)
    requires i <= |s| && Agrees(v, pos, ParseMul(s, i), look)
    ensures v.None? ==> Agrees(None, pos, ParseAdd(s, i), look)
    ensures v.Some? ==> ParseMul(s, i).Done? && i < pos <= |s| && Eval(ParseMul(s, i).ast, look) == v &&
                        ParseAdd(s, i) == AddLoop(s, ParseMul(s, i).ast, pos)
  {
    var first := ParseMul(s, i);
    if v.None? && first.Done? { AddLoopStrict(s, first.ast, first.pos, look); }
  }

  lemma AddStop(s: string, acc: Ast, from: nat, look: string -> Option<real>, v: Option<real>)
    requires from <= |s| && v.Some? && Eval(acc, look) == v
    requires var j := SkipWhitespace(s, from); j < |s| ==> s[j] != '+' && s[j] != '-'
    ensures Agrees(v, SkipWhitespace(s, from), AddLoop(s, acc, from), look)
  {
  }

  lemma AddStep(s: string, acc: Ast, from: nat, look: string -> Option<real>, r: real, v: Option<real>, pos: nat)
    requires from <= |s| && Eval(acc, look) == Some(r)
    requires var j := SkipWhitespace(s, from);
             j < |s| && (s[j] == '+' || s[j] == '-') && Agrees(v, pos, ParseMul(s, j + 1), look)
    ensures v.None? ==> Agrees(None, pos, AddLoop(s, acc, from), look)
    ensures var j := SkipWhitespace(s, from); var next := ParseMul(s, j + 1);
            v.Some? ==>
              next.Done? && var acc' := Joined(s[j], acc, next.ast);
              j < pos <= |s| && AddLoop(s, acc, from) == AddLoop(s, acc', pos) &&
              Eval(acc', look) == Some(if s[j] == '+' then r + v.value else r - v.value)
  {
    hide ParseMul;
    var j := SkipWhitespace(s, from);
    var next := ParseMul(s, j + 1);
    if v.None? && next.Done? { AddLoopStrict(s, Joined(s[j], acc, next.ast), next.pos, look); }
  }

  lemma MulStart(s: string, i: nat, look: string -> Option<real>, v: Option<real>, pos: nat)
    requires i <= |s| && Agrees(v, pos, ParseUnary(s, i), look)
    ensures v.None? ==> Agrees(None, pos, ParseMul(s, i), look)
    ensures v.Some? ==> ParseUnary(s, i).Done? && i < pos <= |s| && Eval(ParseUnary(s, i).ast, look) == v &&
                        ParseMul(s, i) == MulLoop(s, ParseUnary(s, i).ast, pos)
  {
    var first := ParseUnary(s, i);
    if v.None? && first.Done? { MulLoopStrict(s, first.ast, first.pos, look); }
  }

  lemma MulStop(s: string, acc: Ast, from: nat, look: string -> Option<real>, v: Option<real>)
    requires from <= |s| && v.Some? && Eval(acc, look) == v
    requires var j := SkipWhitespace(s, from); j < |s| ==> s[j] != '*' && s[j] != '/'
    ensures Agrees(v, SkipWhitespace(s, from), MulLoop(s, acc, from), look)
  {
  }

  lemma TimesStep(s: string, acc: Ast, from: nat, look: string -> Option<real>, r: real, v: Option<real>, pos: nat)
    requires from <= |s| && Eval(acc, look) == Some(r)
    requires var j := SkipWhitespace(s, from);
             j < |s| && s[j] == '*' && Agrees(v, pos, ParseUnary(s, j + 1), look)
    ensures v.None? ==> Agrees(None, pos, MulLoop(s, acc, from), look)
    ensures var j := SkipWhitespace(s, from); var next := ParseUnary(s, j + 1);
            v.Some? ==>
              next.Done? && var acc' := Mul(acc, next.ast);
              j < pos <= |s| && MulLoop(s, acc, from) == MulLoop(s, acc', pos) &&
              Eval(acc', look) == Some(Times(r, v.value))
  {
    hide Times;
    var next := ParseUnary(s, SkipWhitespace(s, from) + 1);
    if v.None? && next.Done? { MulLoopStrict(s, Mul(acc, next.ast), next.pos, look); }
  }

  lemma OverStep(s: string, acc: Ast, from: nat, look: string -> Option<real>, r: real, v: Option<real>, pos: nat)
    requires from <= |s| && Eval(acc, look) == Some(r)
    requires var j := SkipWhitespace(s, from);
             j < |s| && s[j] == '/' && Agrees(v, pos, ParseUnary(s, j + 1), look)
    ensures v.None? || Abs(v.value) < EPSILON ==> Agrees(None, pos, MulLoop(s, acc, from), look)
    ensures var j := SkipWhitespace(s, from); var next := ParseUnary(s, j + 1);
            v.Some? && Abs(v.value) >= EPSILON ==>
              next.Done? && var acc' := Div(acc, next.ast);
              j < pos <= |s| && MulLoop(s, acc, from) == MulLoop(s, acc', pos) &&
              Eval(acc', look) == Some(Over(r, v.value))
  {
    hide Over;
    var next := ParseUnary(s, SkipWhitespace(s, from) + 1);
    if next.Done? && (v.None? || Abs(v.value) < EPSILON) {
      MulLoopStrict(s, Div(acc, next.ast), next.pos, look);
    }
  }

  lemma PrependNothing(rest: Scanned)
    ensures Prepend("", rest) == rest
  {
  }

  lemma PrependEnd(out: string, pos: nat)
    ensures Prepend(out, Literal("", pos)) == Literal(out, pos)
  {
  }

  lemma PrependFails(out: string)
    ensures Prepend(out, Unterminated) == Unterminated
  {
  }

  lemma PrependTwice(out: string, c: char, rest: Scanned)
    ensures Prepend(out, Prepend([c], rest)) == Prepend(out + [c], rest)
  {
    if rest.Literal? { assert out + ([c] + rest.text) == out + [c] + rest.text; }
  }

  class ExprParser {
    const input: string
    const look: string -> Option<real>
    var pos: nat

    constructor (input: string, look: string -> Option<real>)
      ensures this.input == input && this.look == look && pos == 0
    {
      this.input, this.look, this.pos := input, look, 0;
    }

    method SkipBlanks()
      requires pos <= |input|
      modifies this
      ensures pos == SkipWhitespace(input, old(pos))
    {
      ghost var start := pos;
      while pos < |input| && IsWhitespace(input[pos])
        invariant start <= pos <= |input|
        invariant SkipWhitespace(input, start) == SkipWhitespace(input, pos)
      {
        pos := pos + 1;
      }
    }

    method Consume(c: char) returns (ok: bool)
      requires pos <= |input|
      modifies this
      ensures ok == (old(pos) < |input| && input[old(pos)] == c)
      ensures pos == (if ok then old(pos) + 1 else old(pos))
    {
      ok := pos < |input| && input[pos] == c;
      if ok { pos := pos + 1; }
    }

    method ParseAddSub() returns (r: Option<real>)
      requires pos <= |input|
      modifies this
      ensures pos <= |input| && Agrees(r, pos, ParseAdd(input, old(pos)), look)
      decreases |input| - pos, 5
    {
      hide *;
      ghost var start := pos;
      r := ParseMulDiv();
      AddStart(input, start, look, r, pos);
      if r.None? { return; }
      ghost var acc := ParseMul(input, start).ast;
      while true
        invariant start < pos <= |input|
        invariant r.Some? && Eval(acc, look) == r && ParseAdd(input, start) == AddLoop(input, acc, pos)
        decreases |input| - pos
      {
        ghost var from := pos;
        SkipBlanks();
        ghost var j := pos;
        var plus := Consume('+');
        var minus := false;
        if !plus { minus := Consume('-'); }
        if !plus && !minus {
          AddStop(input, acc, from, look, r);
          return;
        }
        var v := ParseMulDiv();
        AddStep(input, acc, from, look, r.value, v, pos);
        if v.None? { return None; }
        acc := Joined(input[j], acc, ParseMul(input, j + 1).ast);
        r := Some(if plus then r.value + v.value else r.value - v.value);
      }
    }

    method ParseMulDiv() returns (r: Option<real>)
      requires pos <= |input|
      modifies this
      ensures pos <= |input| && Agrees(r, pos, ParseMul(input, old(pos)), look)
      decreases |input| - pos, 3
    {
      hide *;
      ghost var start := pos;
      r := ParseUnary();
      MulStart(input, start, look, r, pos);
      if r.None? { return; }
      ghost var acc := QuotaGrammar.ParseUnary(input, start).ast;
      while true
        invariant start < pos <= |input|
        invariant r.Some? && Eval(acc, look) == r && ParseMul(input, start) == MulLoop(input, acc, pos)
        decreases |input| - pos
      {
        ghost var from := pos;
        SkipBlanks();
        ghost var j := pos;
        var times := Consume('*');
        if times {
          var v := ParseUnary();
          TimesStep(input, acc, from, look, r.value, v, pos);
          if v.None? { return None; }
          acc := Mul(acc, QuotaGrammar.ParseUnary(input, j + 1).ast);
          r := Some(Times(r.value, v.value));
          continue;
        }
        var over := Consume('/');
        if over {
          var divisor := ParseUnary();
          OverStep(input, acc, from, look, r.value, divisor, pos);
          if divisor.None? { return None; }
          if Abs(divisor.value) < EPSILON { return None; }
          acc := Div(acc, QuotaGrammar.ParseUnary(input, j + 1).ast);
          r := Some(Over(r.value, divisor.value));
          continue;
        }
        MulStop(input, acc, from, look, r);
        return;
      }
    }

    method ParseUnary() returns (r: Option<real>)
      requires pos <= |input|
      modifies this
      ensures pos <= |input| && Agrees(r, pos, QuotaGrammar.ParseUnary(input, old(pos)), look)
      decreases |input| - pos, 2
    {
      SkipBlanks();
      var minus := Consume('-');
      if minus {
        var v := ParseUnary();
        r := if v.Some? then Some(-v.value) else None;
        return;
      }
      var plus := Consume('+');
      if plus {
        r := ParseUnary();
        return;
      }
      r := ParsePrimary();
    }

    method ParsePrimary() returns (r: Option<real>)
      requires pos <= |input|
      modifies this
      ensures pos <= |input| && Agrees(r, pos, QuotaGrammar.ParsePrimary(input, old(pos)), look)
      decreases |input| - pos, 1
    {
      hide SkipWhitespace, QuotaGrammar.ParseAdd, ParsePath, ParseNumber;
      SkipBlanks();
      var open := Consume('(');
      if open {
        r := ParseAddSub();
        if r.None? { return; }
        SkipBlanks();
        var close := Consume(')');
        if !close { r := None; }
        return;
      }
      if OccursAt(input, "path", pos) {
        pos := pos + 4;
        r := ParsePathCall();
        return;
      }
      r := ParseNumberLiteral();
    }

    method ParsePathCall() returns (r: Option<real>)
      requires pos <= |input|
      modifies this
      ensures pos <= |input| && Agrees(r, pos, ParsePath(input, old(pos)), look)
    {
      SkipBlanks();
      var open := Consume('(');
      if !open { return None; }
      SkipBlanks();
      var path := ParseStringLiteral();
      if path.None? { return None; }
      SkipBlanks();
      var close := Consume(')');
      if !close { return None; }
      r := look(path.value);
    }

    method ParseStringLiteral() returns (text: Option<string>)
      requires pos <= |input|
      modifies this
      ensures pos <= |input|
      ensures var start := old(pos);
              if start == |input| || (input[start] != '\'' && input[start] != '\"') then text.None?
              else match ScanString(input, start + 1, input[start]) {
                case Unterminated => text.None?
                case Literal(t, p) => text == Some(t) && pos == p
              }
    {
      if pos == |input| || (input[pos] != '\'' && input[pos] != '\"') { return None; }
      var quote := input[pos];
      pos := pos + 1;
      ghost var whole := ScanString(input, pos, quote);
      hide Prepend;
      PrependNothing(whole);
      var out := "";
      while pos < |input|
        invariant pos <= |input|
        invariant whole == Prepend(out, ScanString(input, pos, quote))
      {
        var ch := input[pos];
        pos := pos + 1;
        if ch == quote {
          PrependEnd(out, pos);
          return Some(out);
        }
        if ch == '\\' {
          if pos == |input| {
            PrependFails(out);
            return None;
          }
          PrependTwice(out, input[pos], ScanString(input, pos + 1, quote));
          out := out + [input[pos]];
          pos := pos + 1;
        } else {
          PrependTwice(out, ch, ScanString(input, pos, quote));
          out := out + [ch];
        }
      }
      PrependFails(out);
      return None;
    }

    method ParseNumberLiteral() returns (r: Option<real>)
      requires pos <= |input|
      modifies this
      ensures pos <= |input| && Agrees(r, pos, ParseNumber(input, old(pos)), look)
    {
      var start := pos;
      while pos < |input| && IsNumberChar(input[pos])
        invariant start <= pos <= |input|
        invariant NumberEnd(input, start) == NumberEnd(input, pos)
      {
        pos := pos + 1;
      }
      if start == pos { return None; }
      var raw := input[start..pos];
      if !IsNumber(raw) { return None; }
      return Some(NumberValue(raw));
    }
  }

  // ----- whole expressions -----

  predicate IsTokenStop(c: char) {
    IsWhitespace(c) || c == '+' || c == '-' || c == '*' || c == '/' || c == '(' || c == ')'
  }

  function TokenEnd(raw: string, i: nat): (j: nat)
    requires i <= |raw|
    ensures i <= j <= |raw|
    decreases |raw| - i
  {
    if i < |raw| && !IsTokenStop(raw[i]) then TokenEnd(raw, i + 1) else i
  }

  /** `replace('\'', "\\'")`. */
  function EscapeQuotes(s: string): string {
    if s == [] then [] else (if s[0] == '\'' then "\\'" else [s[0]]) + EscapeQuotes(s[1..])
  }

  function PathCall(escaped: string): string { "path('" + escaped + "')" }

  /** Inline `$...` references from `i` on become path calls. */
  function Rewrite(raw: string, i: nat): string
    requires i <= |raw|
    decreases |raw| - i
  {
    if i == |raw| then []
    else if raw[i] == '$' then
      var j := TokenEnd(raw, i + 1);
      PathCall(EscapeQuotes(raw[i..j])) + Rewrite(raw, j)
    else [raw[i]] + Rewrite(raw, i + 1)
  }

  function Normalized(raw: string): string { if Contains(raw, "path(") then raw else Rewrite(raw, 0) }

  method NormalizeExpression(raw: string) returns (out: string)
    ensures out == Normalized(raw)
  {
    if Contains(raw, "path(") { return raw; }
    hide Contains;
    out := "";
    var i := 0;
    while i < |raw|
      invariant 0 <= i <= |raw|
      invariant out + Rewrite(raw, i) == Rewrite(raw, 0)
    {
      if raw[i] == '$' {
        var start := i;
        i := i + 1;
        while i < |raw| && !IsTokenStop(raw[i])
          invariant start < i <= |raw|
          invariant TokenEnd(raw, start + 1) == TokenEnd(raw, i)
        {
          i := i + 1;
        }
        var call := PathCall(EscapeQuotes(raw[start..i]));
        assert out + (call + Rewrite(raw, i)) == out + call + Rewrite(raw, i);
        out := out + call;
      } else {
        assert out + ([raw[i]] + Rewrite(raw, i + 1)) == out + [raw[i]] + Rewrite(raw, i + 1);
        out := out + [raw[i]];
        i := i + 1;
      }
    }
    assert out + [] == out;
  }

  /** What an expression means: rewrite inline references, parse, evaluate. */
  function Meaning(expression: string, look: string -> Option<real>): Option<real> {
    var ast := ParseAll(Normalized(expression));
    if ast.Some? then Eval(ast.value, look) else None
  }

  /** The one-pass evaluator computes the meaning: a value exactly when the whole rewritten input
      parses and its tree evaluates. */
  method EvaluateExpression(expression: string, look: string -> Option<real>) returns (r: Option<real>)
    ensures r == Meaning(expression, look)
  {
    var normalized := NormalizeExpression(expression);
    var parser := new ExprParser(normalized, look);
    r := parser.ParseAddSub();
    if r.None? { return; }
    parser.SkipBlanks();
    if parser.pos < |normalized| { return None; }
  }
}
