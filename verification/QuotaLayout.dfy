// Every way to write an expression: the parser accepts exactly these texts, each with its own tree.
module QuotaLayout {
  import opened Text
  import opened QuotaGrammar

  /** One character of a quoted string, as it is or behind a backslash. */
  datatype Piece = Plain(c: char) | Escaped(c: char)

  predicate Fits(pieces: seq<Piece>, quote: char) {
    forall i :: 0 <= i < |pieces| && pieces[i].Plain? ==> pieces[i].c != quote && pieces[i].c != '\\'
  }

  function PiecesText(pieces: seq<Piece>): string {
    if pieces == [] then ""
    else (if pieces[0].Plain? then [pieces[0].c] else ['\\', pieces[0].c]) + PiecesText(pieces[1..])
  }

  function PiecesValue(pieces: seq<Piece>): string {
    if pieces == [] then "" else [pieces[0].c] + PiecesValue(pieces[1..])
  }

  /** How an expression is written, with its blanks, brackets and signs. A token is a bare reference; it
      stands only in text that has yet to be rewritten. */
  datatype Layout =
    | Number(lexeme: string)
    | Token(path: string)
    | Call(before: string, within: string, quote: char, pieces: seq<Piece>, after: string)
    | Bracket(inner: Layout, blanks: string)
    | Spaced(blanks: string, inner: Layout)
    | Signed(minus: bool, inner: Layout)
    | Joint(left: Layout, blanks: string, op: char, right: Layout)

  /** Binding strength: sums 0, products 1, everything else 2. */
  function Level(l: Layout): nat {
    if !l.Joint? then 2 else if l.op == '+' || l.op == '-' then 0 else 1
  }

  function Written(l: Layout): string {
    match l
    case Number(t) => t
    case Token(p) => p
    case Call(before, within, quote, pieces, after) =>
      "path" + before + "(" + within + [quote] + PiecesText(pieces) + [quote] + after + ")"
    case Bracket(x, blanks) => "(" + Written(x) + blanks + ")"
    case Spaced(blanks, x) => blanks + Written(x)
    case Signed(minus, x) => (if minus then "-" else "+") + Written(x)
    case Joint(x, blanks, op, y) => Written(x) + blanks + [op] + Written(y)
  }

  function Tree(l: Layout): Ast {
    match l
    case Number(t) => Num(t)
    case Token(p) => Path(p)
    case Call(_, _, _, pieces, _) => Path(PiecesValue(pieces))
    case Bracket(x, _) => Tree(x)
    case Spaced(_, x) => Tree(x)
    case Signed(minus, x) => if minus then Neg(Tree(x)) else Tree(x)
    case Joint(x, _, op, y) =>
      if op == '+' then Add(Tree(x), Tree(y))
      else if op == '-' then Sub(Tree(x), Tree(y))
      else if op == '*' then Mul(Tree(x), Tree(y))
      else Div(Tree(x), Tree(y))
  }

  /** The operands of a product are not sums, its right one is no product, and signs stand before neither.
      With `ready`, all references are calls. */
  predicate Proper(l: Layout, ready: bool) {
    match l
    case Number(t) => IsNumber(t)
    case Token(_) => !ready
    case Call(before, within, quote, pieces, after) =>
      AllBlank(before) && AllBlank(within) && AllBlank(after) && (quote == '\'' || quote == '\"') && Fits(pieces, quote)
    case Bracket(x, blanks) => AllBlank(blanks) && Proper(x, ready)
    case Spaced(blanks, x) => AllBlank(blanks) && Proper(x, ready) && Level(x) == 2
    case Signed(_, x) => Proper(x, ready) && Level(x) == 2
    case Joint(x, blanks, op, y) =>
      AllBlank(blanks) && (op == '+' || op == '-' || op == '*' || op == '/') && Proper(x, ready) && Proper(y, ready) &&
      Level(y) > Level(l) && Level(x) >= Level(l)
  }

  // ----- text inside a longer input -----

  lemma {:induction false} SkipPast(s: string, i: nat, b: string)
    requires OccursAt(s, b, i) && AllBlank(b)
    ensures i + |b| <= |s| && SkipWhitespace(s, i) == SkipWhitespace(s, i + |b|)
    decreases |b|
  {
    if b != "" {
      assert s[i..i + |b|] == b;
      assert s[i] == b[0];
      assert s[i + 1..i + 1 + |b[1..]|] == b[1..];
      SkipPast(s, i + 1, b[1..]);
    }
  }

  /** No number continues at `j`. */
  predicate NumberEnds(s: string, j: nat) { j >= |s| || !IsNumberChar(s[j]) }

  /** Behind blanks neither a product nor a number continues at `j`. */
  predicate ProductEnds(s: string, j: nat) {
    j <= |s| && NumberEnds(s, j) && var k := SkipWhitespace(s, j); k < |s| ==> s[k] != '*' && s[k] != '/'
  }

  lemma BlankIsNoNumber(c: char)
    ensures IsWhitespace(c) ==> !IsNumberChar(c) && c != '(' && c != ')' && c != '+' && c != '-' && c != '*' && c != '/'
  {
  }

  /** What stands behind `x` in `x + b + [c] + ...`. */
  lemma NumberEndsBefore(s: string, j: nat, b: string, c: char)
    requires OccursAt(s, b, j) && OccursAt(s, [c], j + |b|) && AllBlank(b) && !IsNumberChar(c)
    ensures NumberEnds(s, j)
  {
    CharAt(s, j + |b|, c);
    if b != "" {
      assert s[j..j + |b|][0] == b[0];
      BlankIsNoNumber(b[0]);
    }
  }

  lemma OperatorFound(s: string, j: nat, b: string, c: char)
    requires OccursAt(s, b, j) && OccursAt(s, [c], j + |b|) && AllBlank(b) && !IsWhitespace(c)
    ensures j + |b| < |s| && s[j + |b|] == c && SkipWhitespace(s, j) == j + |b|
  {
    CharAt(s, j + |b|, c);
    SkipPast(s, j, b);
  }

  // ----- reading -----

  lemma {:induction false} NumberFound(s: string, i: nat, j: nat)
    requires i <= j <= |s| && NumberEnds(s, j) && forall k :: i <= k < j ==> IsNumberChar(s[k])
    ensures NumberEnd(s, i) == j
    decreases j - i
  {
    if i < j { NumberFound(s, i + 1, j); }
  }

  lemma PathStartsWithP(s: string, i: nat)
    ensures OccursAt(s, "path", i) ==> i < |s| && s[i] == 'p'
  {
    if OccursAt(s, "path", i) { assert s[i..i + 4][0] == 'p'; }
  }

  lemma NumberReads(s: string, i: nat, t: string)
    requires IsNumber(t) && OccursAt(s, t, i) && NumberEnds(s, i + |t|)
    ensures ParseUnary(s, i) == Done(Num(t), i + |t|)
  {
    var j := i + |t|;
    assert s[i..j] == t;
    forall k | i <= k < j ensures IsNumberChar(s[k]) { assert s[k] == t[k - i]; }
    NumberFound(s, i, j);
    assert IsNumberChar(s[i]);
    PathStartsWithP(s, i);
  }

  lemma {:induction false} PiecesScan(s: string, i: nat, pieces: seq<Piece>, quote: char)
    requires OccursAt(s, PiecesText(pieces) + [quote], i) && Fits(pieces, quote) && quote != '\\'
    ensures ScanString(s, i, quote) == Literal(PiecesValue(pieces), i + |PiecesText(pieces)| + 1)
    decreases |pieces|
  {
    if pieces == [] {
      CharAt(s, i, quote);
    } else {
      var p, rest := pieces[0], PiecesText(pieces[1..]) + [quote];
      var head := if p.Plain? then [p.c] else ['\\', p.c];
      assert PiecesText(pieces) + [quote] == head + rest;
      Parts(s, i, head, rest);
      assert s[i..i + |head|] == head;
      assert s[i] == head[0] && (|head| == 2 ==> s[i + 1] == head[1]);
      PiecesScan(s, i + |head|, pieces[1..], quote);
    }
  }

  /** A call, part by part. */
  lemma CallParts(s: string, i: nat, l: Layout)
    requires l.Call? && OccursAt(s, Written(l), i)
    ensures var open := i + 4 + |l.before|; var start := open + 1 + |l.within|; var end := start + 2 + |PiecesText(l.pieces)|;
            OccursAt(s, "path", i) && OccursAt(s, l.before, i + 4) && OccursAt(s, "(", open) &&
            OccursAt(s, l.within, open + 1) && OccursAt(s, [l.quote], start) &&
            OccursAt(s, PiecesText(l.pieces), start + 1) && OccursAt(s, [l.quote], end - 1) &&
            OccursAt(s, l.after, end) && OccursAt(s, ")", end + |l.after|) && end + |l.after| + 1 == i + |Written(l)|
  {
    var a := "path" + l.before;
    var b := a + "(";
    var c := b + l.within;
    var d := c + [l.quote];
    var e := d + PiecesText(l.pieces);
    var f := e + [l.quote];
    var g := f + l.after;
    assert Written(l) == g + ")";
    hide *;
    Parts(s, i, g, ")");
    Parts(s, i, f, l.after);
    Parts(s, i, e, [l.quote]);
    Parts(s, i, d, PiecesText(l.pieces));
    Parts(s, i, c, [l.quote]);
    Parts(s, i, b, l.within);
    Parts(s, i, a, "(");
    Parts(s, i, "path", l.before);
  }

  lemma CallIsProper(l: Layout)
    requires l.Call? && Proper(l, true)
    ensures AllBlank(l.before) && AllBlank(l.within) && AllBlank(l.after) && (l.quote == '\'' || l.quote == '\"')
    ensures Fits(l.pieces, l.quote) && Tree(l) == Path(PiecesValue(l.pieces))
  {
  }

  /** The stations of a call: its bracket, ... */
  lemma CallOpens(s: string, i: nat, l: Layout)
    requires l.Call? && Proper(l, true) && OccursAt(s, Written(l), i)
    ensures var open := i + 4 + |l.before|; SkipWhitespace(s, i + 4) == open < |s| && s[open] == '('
  {
    hide *;
    CallIsProper(l);
    QuotesAreNotBlank();
    CallParts(s, i, l);
    OperatorFound(s, i + 4, l.before, '(');
  }

  /** ... its string ... */
  lemma CallQuotes(s: string, i: nat, l: Layout)
    requires l.Call? && Proper(l, true) && OccursAt(s, Written(l), i)
    ensures var open := i + 4 + |l.before|; var start := open + 1 + |l.within|;
            open < |s| && SkipWhitespace(s, open + 1) == start < |s| && s[start] == l.quote
  {
    hide *;
    CallIsProper(l);
    QuotesAreNotBlank();
    CallParts(s, i, l);
    OperatorFound(s, i + 5 + |l.before|, l.within, l.quote);
  }

  /** ... and its end. */
  lemma CallCloses(s: string, i: nat, l: Layout)
    requires l.Call? && Proper(l, true) && OccursAt(s, Written(l), i)
    ensures var start := i + 5 + |l.before| + |l.within|; var end := start + |PiecesText(l.pieces)| + 2;
            var close := end + |l.after|;
            OccursAt(s, PiecesText(l.pieces) + [l.quote], start + 1) && end <= |s| &&
            SkipWhitespace(s, end) == close < |s| && s[close] == ')' && close + 1 == i + |Written(l)|
  {
    hide *;
    CallIsProper(l);
    QuotesAreNotBlank();
    CallParts(s, i, l);
    var start := i + 5 + |l.before| + |l.within|;
    Joins(s, start + 1, PiecesText(l.pieces), [l.quote]);
    OperatorFound(s, start + |PiecesText(l.pieces)| + 2, l.after, ')');
  }

  lemma QuotesAreNotBlank()
    ensures !IsWhitespace('(') && !IsWhitespace(')') && !IsWhitespace('\'') && !IsWhitespace('\"') && !IsWhitespace('p')
    ensures !IsWhitespace('+') && !IsWhitespace('-') && !IsWhitespace('*') && !IsWhitespace('/')
  {
  }

  lemma PathIs(s: string, i: nat, open: nat, start: nat, quote: char, text: string, end: nat, close: nat)
    requires i <= |s| && SkipWhitespace(s, i) == open < |s| && s[open] == '('
    requires SkipWhitespace(s, open + 1) == start < |s| && s[start] == quote && (quote == '\'' || quote == '\"')
    requires ScanString(s, start + 1, quote) == Literal(text, end)
    requires SkipWhitespace(s, end) == close < |s| && s[close] == ')'
    ensures ParsePath(s, i) == Done(Path(text), close + 1)
  {
    hide SkipWhitespace, ScanString;
  }

  lemma CallIs(s: string, i: nat, e: Ast, j: nat)
    requires i < |s| && s[i] == 'p' && OccursAt(s, "path", i) && ParsePath(s, i + 4) == Done(e, j)
    ensures ParseUnary(s, i) == Done(e, j)
  {
    QuotesAreNotBlank();
    hide ParsePath, OccursAt, IsWhitespace;
    assert SkipWhitespace(s, i) == i;
    assert ParsePrimary(s, i) == ParsePath(s, i + 4);
  }

  lemma CallPathReads(s: string, i: nat, l: Layout)
    requires l.Call? && Proper(l, true) && OccursAt(s, Written(l), i)
    ensures i + 4 <= |s| && ParsePath(s, i + 4) == Done(Tree(l), i + |Written(l)|)
  {
    hide *;
    CallIsProper(l);
    CallOpens(s, i, l);
    CallQuotes(s, i, l);
    CallCloses(s, i, l);
    var open := i + 4 + |l.before|;
    var start := open + 1 + |l.within|;
    var end := start + |PiecesText(l.pieces)| + 2;
    PiecesScan(s, start + 1, l.pieces, l.quote);
    PathIs(s, i + 4, open, start, l.quote, PiecesValue(l.pieces), end, end + |l.after|);
  }

  lemma CallReads(s: string, i: nat, l: Layout)
    requires l.Call? && Proper(l, true) && OccursAt(s, Written(l), i)
    ensures ParseUnary(s, i) == Done(Tree(l), i + |Written(l)|)
  {
    hide *;
    CallPathReads(s, i, l);
    assert OccursAt(s, "path", i) by { CallParts(s, i, l); }
    PathStartsWithP(s, i);
    CallIs(s, i, Tree(l), i + |Written(l)|);
  }

  // What one turn of a loop does.

  lemma AddTurn(s: string, acc: Ast, i: nat, r: Ast, j: nat)
    requires i <= |s|
    requires var k := SkipWhitespace(s, i); k < |s| && (s[k] == '+' || s[k] == '-') && ParseMul(s, k + 1) == Done(r, j)
    ensures j <= |s| && AddLoop(s, acc, i) == AddLoop(s, Joined(s[SkipWhitespace(s, i)], acc, r), j)
  {
    hide ParseMul;
  }

  lemma MulTurn(s: string, acc: Ast, i: nat, r: Ast, j: nat)
    requires i <= |s|
    requires var k := SkipWhitespace(s, i); k < |s| && (s[k] == '*' || s[k] == '/') && ParseUnary(s, k + 1) == Done(r, j)
    ensures j <= |s| && MulLoop(s, acc, i) == MulLoop(s, Joined(s[SkipWhitespace(s, i)], acc, r), j)
  {
    hide ParseUnary;
  }

  lemma MulEnds(s: string, acc: Ast, j: nat)
    requires ProductEnds(s, j)
    ensures MulLoop(s, acc, j) == Done(acc, SkipWhitespace(s, j))
  {
  }

  lemma AddEnds(s: string, acc: Ast, j: nat)
    requires j <= |s| && var k := SkipWhitespace(s, j); k < |s| ==> s[k] == ')'
    ensures AddLoop(s, acc, j) == Done(acc, SkipWhitespace(s, j))
  {
  }

  lemma SumIs(s: string, i: nat, e: Ast, j: nat)
    requires i <= |s| && j <= |s| && ParseMul(s, i) == Done(e, j)
    ensures ParseAdd(s, i) == AddLoop(s, e, j)
  {
    hide ParseMul;
  }

  lemma ProductIs(s: string, i: nat, e: Ast, j: nat)
    requires i <= |s| && j <= |s| && ParseUnary(s, i) == Done(e, j)
    ensures ParseMul(s, i) == MulLoop(s, e, j)
  {
    hide ParseUnary;
  }

  lemma SignIs(s: string, i: nat, x: Ast, j: nat)
    requires i < |s| && (s[i] == '-' || s[i] == '+') && ParseUnary(s, i + 1) == Done(x, j)
    ensures ParseUnary(s, i) == Done(if s[i] == '-' then Neg(x) else x, j)
  {
  }

  lemma BracketIs(s: string, i: nat, e: Ast, j: nat)
    requires i < |s| && s[i] == '(' && ParseAdd(s, i + 1) == Done(e, j)
    requires j <= |s| && var k := SkipWhitespace(s, j); k < |s| && s[k] == ')'
    ensures ParseUnary(s, i) == Done(e, SkipWhitespace(s, j) + 1)
  {
    QuotesAreNotBlank();
    hide ParseAdd, IsWhitespace;
    assert SkipWhitespace(s, i) == i;
    assert ParsePrimary(s, i) == Done(e, SkipWhitespace(s, j) + 1);
  }

  lemma BlanksIs(s: string, i: nat, b: string)
    requires OccursAt(s, b, i) && AllBlank(b)
    ensures i + |b| <= |s| && ParseUnary(s, i) == ParseUnary(s, i + |b|)
  {
    SkipPast(s, i, b);
    hide ParsePrimary, OccursAt, AllBlank, IsWhitespace;
  }

  lemma SkipTwice(s: string, i: nat)
    requires i <= |s|
    ensures SkipWhitespace(s, SkipWhitespace(s, i)) == SkipWhitespace(s, i)
  {
  }

  lemma SkipAhead(s: string, acc: Ast, i: nat)
    requires i <= |s|
    ensures AddLoop(s, acc, SkipWhitespace(s, i)) == AddLoop(s, acc, i)
  {
    SkipTwice(s, i);
    hide ParseMul;
  }

  /** Orders the appeals between levels on the same layout. */
  function Turn(kind: nat, level: nat): nat {
    if level == 0 then [0, 2, 1][kind % 3] else if level == 1 then [1, 0, 2][kind % 3] else [2, 1, 0][kind % 3]
  }

  lemma JointIsProper(l: Layout)
    requires l.Joint? && Proper(l, true)
    ensures Written(l) == Written(l.left) + l.blanks + [l.op] + Written(l.right) && AllBlank(l.blanks)
    ensures !IsNumberChar(l.op) && !IsWhitespace(l.op)
  {
    hide IsWhitespace, AllBlank;
    QuotesAreNotBlank();
  }

  lemma JointParts(s: string, i: nat, l: Layout)
    requires l.Joint? && Proper(l, true) && OccursAt(s, Written(l), i)
    ensures var j := i + |Written(l.left)|; var k := j + |l.blanks|;
            OccursAt(s, Written(l.left), i) && NumberEnds(s, j) && k < |s| && s[k] == l.op && SkipWhitespace(s, j) == k &&
            OccursAt(s, Written(l.right), k + 1) && k + 1 + |Written(l.right)| == i + |Written(l)|
  {
    hide *;
    JointIsProper(l);
    var x, y := Written(l.left), Written(l.right);
    Parts(s, i, x + l.blanks + [l.op], y);
    Parts(s, i, x + l.blanks, [l.op]);
    Parts(s, i, x, l.blanks);
    OperatorFound(s, i + |x|, l.blanks, l.op);
    NumberEndsBefore(s, i + |x|, l.blanks, l.op);
  }

  lemma {:induction false} SumReads(s: string, i: nat, l: Layout)
    requires Proper(l, true) && OccursAt(s, Written(l), i) && ProductEnds(s, i + |Written(l)|)
    ensures ParseAdd(s, i) == AddLoop(s, Tree(l), i + |Written(l)|)
    decreases l, Turn(0, Level(l))
  {
    hide Written, ParseAdd, ParseMul, AddLoop, MulLoop, OccursAt, SkipWhitespace;
    var j := i + |Written(l)|;
    if Level(l) == 0 {
      JointParts(s, i, l);
      var m := i + |Written(l.left)|;
      var k := m + |l.blanks|;
      SumReads(s, i, l.left);
      ProductReads(s, k + 1, l.right);
      MulEnds(s, Tree(l.right), j);
      AddTurn(s, Tree(l.left), m, Tree(l.right), SkipWhitespace(s, j));
      SkipAhead(s, Tree(l), j);
    } else {
      ProductReads(s, i, l);
      MulEnds(s, Tree(l), j);
      SumIs(s, i, Tree(l), SkipWhitespace(s, j));
      SkipAhead(s, Tree(l), j);
    }
  }

  lemma {:induction false} ProductReads(s: string, i: nat, l: Layout)
    requires Proper(l, true) && Level(l) >= 1 && OccursAt(s, Written(l), i)
    requires i + |Written(l)| <= |s| && NumberEnds(s, i + |Written(l)|)
    ensures ParseMul(s, i) == MulLoop(s, Tree(l), i + |Written(l)|)
    decreases l, Turn(1, Level(l))
  {
    hide Written, ParseMul, ParseUnary, MulLoop, OccursAt, SkipWhitespace;
    var j := i + |Written(l)|;
    if Level(l) == 1 {
      JointParts(s, i, l);
      var m := i + |Written(l.left)|;
      var k := m + |l.blanks|;
      ProductReads(s, i, l.left);
      UnaryReads(s, k + 1, l.right);
      MulTurn(s, Tree(l.left), m, Tree(l.right), j);
    } else {
      UnaryReads(s, i, l);
      ProductIs(s, i, Tree(l), j);
    }
  }

  lemma BracketParts(s: string, i: nat, x: string, b: string)
    requires OccursAt(s, "(" + x + b + ")", i) && AllBlank(b)
    ensures i < |s| && s[i] == '(' && OccursAt(s, x, i + 1) && Closes(s, i + 1 + |x|, b)
  {
    hide *;
    Parts(s, i, "(" + x + b, ")");
    Parts(s, i, "(" + x, b);
    Parts(s, i, "(", x);
    CharAt(s, i, '(');
    BlanksClose(s, i + 1 + |x|, b);
  }

  /** Blanks and a closing bracket. */
  ghost predicate Closes(s: string, j: nat, b: string) {
    ProductEnds(s, j) && SkipWhitespace(s, j) == j + |b| && j + |b| < |s| && s[j + |b|] == ')'
  }

  lemma BlanksClose(s: string, j: nat, b: string)
    requires OccursAt(s, b, j) && OccursAt(s, ")", j + |b|) && AllBlank(b)
    ensures Closes(s, j, b)
  {
    hide OccursAt, AllBlank, SkipWhitespace, IsWhitespace;
    QuotesAreNotBlank();
    OperatorFound(s, j, b, ')');
    NumberEndsBefore(s, j, b, ')');
  }

  lemma {:induction false} UnaryReads(s: string, i: nat, l: Layout)
    requires Proper(l, true) && Level(l) == 2 && OccursAt(s, Written(l), i)
    requires i + |Written(l)| <= |s| && NumberEnds(s, i + |Written(l)|)
    ensures ParseUnary(s, i) == Done(Tree(l), i + |Written(l)|)
    decreases l, Turn(2, Level(l))
  {
    hide ParseUnary, ParseAdd, AddLoop, SkipWhitespace, OccursAt, IsWhitespace, PiecesText, PiecesValue, IsNumber;
    match l
    case Number(t) => NumberReads(s, i, t);
    case Call(_, _, _, _, _) => CallReads(s, i, l);
    case Bracket(x, b) =>
      BracketParts(s, i, Written(x), b);
      SumReads(s, i + 1, x);
      AddEnds(s, Tree(x), i + 1 + |Written(x)|);
      SkipTwice(s, i + 1 + |Written(x)|);
      BracketIs(s, i, Tree(x), SkipWhitespace(s, i + 1 + |Written(x)|));
    case Spaced(b, x) =>
      Parts(s, i, b, Written(x));
      UnaryReads(s, i + |b|, x);
      BlanksIs(s, i, b);
    case Signed(minus, x) =>
      var sign := if minus then '-' else '+';
      Parts(s, i, [sign], Written(x));
      CharAt(s, i, sign);
      UnaryReads(s, i + 1, x);
      SignIs(s, i, Tree(x), i + 1 + |Written(x)|);
  }

  /** Every text of an expression parses to its tree: precedence, associativity, blanks, brackets, signs
      and string escapes. */
  lemma LayoutParses(l: Layout, blanks: string)
    requires Proper(l, true) && AllBlank(blanks)
    ensures ParseAll(Written(l) + blanks) == Some(Tree(l))
  {
    hide *;
    var s, j := Written(l) + blanks, |Written(l)|;
    BlanksEnd(Written(l), blanks);
    SumReads(s, 0, l);
    AddEnds(s, Tree(l), j);
    ParseAllIs(s);
    NothingToSkip(s);
  }

  lemma ParseAllIs(s: string)
    ensures ParseAll(s) == var r := ParseAdd(s, 0);
                           if r.Done? && SkipWhitespace(s, r.pos) == |s| then Some(r.ast) else None
  {
  }

  lemma NothingToSkip(s: string)
    ensures SkipWhitespace(s, |s|) == |s|
  {
  }

  lemma BlanksEnd(x: string, b: string)
    requires AllBlank(b)
    ensures var s := x + b; OccursAt(s, x, 0) && ProductEnds(s, |x|) && SkipWhitespace(s, |x|) == |s|
  {
    var s, j := x + b, |x|;
    assert s[0..j] == x && s[j..j + |b|] == b;
    SkipPast(s, j, b);
    if b != "" { BlankIsNoNumber(s[j]); }
  }

  // ----- every parse is of a layout -----

  lemma {:induction false} PiecesOf(s: string, i: nat, quote: char) returns (pieces: seq<Piece>)
    requires i <= |s| && ScanString(s, i, quote).Literal? && quote != '\\'
    ensures var r := ScanString(s, i, quote);
            i < r.pos <= |s| && Fits(pieces, quote) && PiecesValue(pieces) == r.text &&
            s[i..r.pos] == PiecesText(pieces) + [quote]
    decreases |s| - i
  {
    if s[i] == quote {
      pieces := [];
    } else {
      var step := if s[i] == '\\' then 2 else 1;
      var head := if s[i] == '\\' then Escaped(s[i + 1]) else Plain(s[i]);
      var rest := PiecesOf(s, i + step, quote);
      pieces := [head] + rest;
      assert pieces[1..] == rest;
      assert s[i..i + step] + s[i + step..ScanString(s, i, quote).pos] == s[i..ScanString(s, i, quote).pos];
    }
  }

  /** What `ParsePath` reads behind "path". */
  lemma PathShape(s: string, i: nat) returns (open: nat, start: nat, text: string, end: nat, close: nat)
    requires i <= |s| && ParsePath(s, i).Done?
    ensures i <= open == SkipWhitespace(s, i) && open < |s| && s[open] == '('
    ensures open < start == SkipWhitespace(s, open + 1) && start < |s| && (s[start] == '\'' || s[start] == '\"')
    ensures ScanString(s, start + 1, s[start]) == Literal(text, end) && start < end <= |s|
    ensures end <= close == SkipWhitespace(s, end) && close < |s| && s[close] == ')'
    ensures ParsePath(s, i) == Done(Path(text), close + 1)
  {
    hide SkipWhitespace, ScanString;
    open := SkipWhitespace(s, i);
    start := SkipWhitespace(s, open + 1);
    var scanned := ScanString(s, start + 1, s[start]);
    text, end := scanned.text, scanned.pos;
    close := SkipWhitespace(s, end);
  }

  /** `l` is how `s[i..j]` writes `e`. */
  ghost predicate Reads(l: Layout, s: string, i: nat, j: nat, e: Ast) {
    i <= j <= |s| && Proper(l, true) && Tree(l) == e && Written(l) == s[i..j]
  }

  lemma ReadsIs(l: Layout, s: string, i: nat, j: nat, e: Ast)
    requires i <= j <= |s| && Proper(l, true) && Tree(l) == e && Written(l) == s[i..j]
    ensures Reads(l, s, i, j, e)
  {
  }

  ghost predicate BlankFrom(s: string, i: nat, j: nat) { i <= j <= |s| && AllBlank(s[i..j]) }

  lemma BlankOn(s: string, i: nat, j: nat)
    requires BlankFrom(s, i, j)
    ensures BlankFrom(s, i, SkipWhitespace(s, j))
  {
    SkipsBlanksOnly(s, j);
    assert s[i..SkipWhitespace(s, j)] == s[i..j] + s[j..SkipWhitespace(s, j)];
  }

  lemma JointLayout(s: string, i: nat, m: nat, k: nat, j: nat, x: Layout, a: Ast, y: Layout, b: Ast)
    requires Reads(x, s, i, m, a) && BlankFrom(s, m, k) && k < |s| && Reads(y, s, k + 1, j, b)
    requires ((s[k] == '+' || s[k] == '-') && Level(y) >= 1) || ((s[k] == '*' || s[k] == '/') && Level(x) >= 1 && Level(y) == 2)
    ensures var l := Joint(x, s[m..k], s[k], y); Reads(l, s, i, j, Joined(s[k], a, b))
  {
    assert s[i..j] == s[i..m] + s[m..k] + [s[k]] + s[k + 1..j];
  }

  lemma SpacedLayout(s: string, i: nat, k: nat, j: nat, x: Layout, a: Ast)
    requires BlankFrom(s, i, k) && Reads(x, s, k, j, a) && Level(x) == 2
    ensures Reads(Spaced(s[i..k], x), s, i, j, a)
  {
    assert s[i..j] == s[i..k] + s[k..j];
  }

  lemma SignedLayout(s: string, i: nat, j: nat, x: Layout, a: Ast)
    requires i < |s| && (s[i] == '-' || s[i] == '+') && Reads(x, s, i + 1, j, a) && Level(x) == 2
    ensures Reads(Signed(s[i] == '-', x), s, i, j, if s[i] == '-' then Neg(a) else a)
  {
    assert s[i..j] == [s[i]] + s[i + 1..j];
  }

  lemma BracketLayout(s: string, i: nat, m: nat, k: nat, x: Layout, a: Ast)
    requires i < |s| && s[i] == '(' && Reads(x, s, i + 1, m, a) && BlankFrom(s, m, k) && k < |s| && s[k] == ')'
    ensures Reads(Bracket(x, s[m..k]), s, i, k + 1, a)
  {
    assert s[i..k + 1] == "(" + s[i + 1..m] + s[m..k] + ")";
  }

  lemma CallLayout(s: string, i: nat, open: nat, start: nat, end: nat, close: nat, pieces: seq<Piece>)
    requires OccursAt(s, "path", i) && BlankFrom(s, i + 4, open) && open < |s| && s[open] == '('
    requires BlankFrom(s, open + 1, start) && start < end <= |s| && (s[start] == '\'' || s[start] == '\"')
    requires Fits(pieces, s[start]) && s[start + 1..end] == PiecesText(pieces) + [s[start]]
    requires BlankFrom(s, end, close) && close < |s| && s[close] == ')'
    ensures var l := Call(s[i + 4..open], s[open + 1..start], s[start], pieces, s[end..close]);
            Reads(l, s, i, close + 1, Path(PiecesValue(pieces))) && Level(l) == 2
  {
    var b, c, d, t := s[i + 4..open], s[open + 1..start], s[end..close], PiecesText(pieces);
    var l := Call(b, c, s[start], pieces, d);
    assert Proper(l, true) && Level(l) == 2 && Tree(l) == Path(PiecesValue(pieces));
    assert Written(l) == "path" + b + "(" + c + [s[start]] + t + [s[start]] + d + ")";
    assert s[i..i + 4] == "path" && i + 4 <= open && open + 1 <= start && end <= close;
    hide *;
    assert s[start + 1..end - 1] == t && s[end - 1..end] == [s[start]] by { TextEnds(s, start + 1, end, t, s[start]); }
    Grows(s, i, i + 4, open, "path", b);
    Grows(s, i, open, open + 1, "path" + b, "(");
    Grows(s, i, open + 1, start, "path" + b + "(", c);
    Grows(s, i, start, start + 1, "path" + b + "(" + c, [s[start]]);
    Grows(s, i, start + 1, end - 1, "path" + b + "(" + c + [s[start]], t);
    Grows(s, i, end - 1, end, "path" + b + "(" + c + [s[start]] + t, [s[start]]);
    Grows(s, i, end, close, "path" + b + "(" + c + [s[start]] + t + [s[start]], d);
    Grows(s, i, close, close + 1, "path" + b + "(" + c + [s[start]] + t + [s[start]] + d, ")");
    ReadsIs(l, s, i, close + 1, Path(PiecesValue(pieces)));
  }

  lemma Grows(s: string, i: nat, j: nat, k: nat, a: string, b: string)
    requires i <= j <= k <= |s| && s[i..j] == a && s[j..k] == b
    ensures s[i..k] == a + b
  {
    assert s[i..k] == s[i..j] + s[j..k];
  }

  lemma TextEnds(s: string, i: nat, j: nat, t: string, c: char)
    requires i <= j <= |s| && s[i..j] == t + [c]
    ensures i < j && s[i..j - 1] == t && s[j - 1..j] == [c]
  {
    assert |s[i..j]| == |t| + 1;
    assert s[i..j - 1] == s[i..j][..|t|] && s[j - 1..j] == s[i..j][|t|..];
  }

  lemma PathLayout(s: string, i: nat) returns (l: Layout)
    requires OccursAt(s, "path", i) && ParsePath(s, i + 4).Done?
    ensures Reads(l, s, i, ParsePath(s, i + 4).pos, ParsePath(s, i + 4).ast) && Level(l) == 2
  {
    hide *;
    var open, start, text, end, close := PathShape(s, i + 4);
    var pieces := PiecesOf(s, start + 1, s[start]);
    BlankSkipped(s, i + 4);
    BlankSkipped(s, open + 1);
    BlankSkipped(s, end);
    CallLayout(s, i, open, start, end, close, pieces);
    l := Call(s[i + 4..open], s[open + 1..start], s[start], pieces, s[end..close]);
  }

  lemma BlankSkipped(s: string, i: nat)
    requires i <= |s|
    ensures BlankFrom(s, i, SkipWhitespace(s, i))
  {
    SkipsBlanksOnly(s, i);
  }

  lemma {:induction false} UnaryLayout(s: string, i: nat) returns (l: Layout)
    requires i <= |s| && ParseUnary(s, i).Done?
    ensures Reads(l, s, i, ParseUnary(s, i).pos, ParseUnary(s, i).ast) && Level(l) == 2
    decreases |s| - i, 1
  {
    hide SkipWhitespace, ParsePrimary, Reads, BlankFrom;
    var j := SkipWhitespace(s, i);
    var r := ParseUnary(s, i);
    var inner: Layout;
    if j < |s| && (s[j] == '-' || s[j] == '+') {
      var x := UnaryLayout(s, j + 1);
      SignedLayout(s, j, r.pos, x, ParseUnary(s, j + 1).ast);
      inner := Signed(s[j] == '-', x);
    } else {
      inner := PrimaryLayout(s, j);
    }
    BlankSkipped(s, i);
    SpacedLayout(s, i, j, r.pos, inner, r.ast);
    l := Spaced(s[i..j], inner);
  }

  lemma {:induction false} PrimaryLayout(s: string, i: nat) returns (l: Layout)
    requires i <= |s| && ParsePrimary(s, i).Done? && SkipWhitespace(s, i) == i
    ensures Reads(l, s, i, ParsePrimary(s, i).pos, ParsePrimary(s, i).ast) && Level(l) == 2
    decreases |s| - i, 0
  {
    hide SkipWhitespace, ParseAdd, ParsePath, OccursAt, BlankFrom, Reads, NumberEnd;
    if i < |s| && s[i] == '(' {
      var inner := ParseAdd(s, i + 1);
      var x, m := SumLayout(s, i + 1);
      var k := SkipWhitespace(s, inner.pos);
      BlankOn(s, m, inner.pos);
      BracketLayout(s, i, m, k, x, inner.ast);
      l := Bracket(x, s[m..k]);
    } else if OccursAt(s, "path", i) {
      l := PathLayout(s, i);
    } else {
      l := Number(s[i..NumberEnd(s, i)]);
      ReadsIs(l, s, i, NumberEnd(s, i), Num(l.lexeme));
    }
  }

  lemma {:induction false} SumLayout(s: string, i: nat) returns (l: Layout, m: nat)
    requires i <= |s| && ParseAdd(s, i).Done?
    ensures Reads(l, s, i, m, ParseAdd(s, i).ast) && BlankFrom(s, m, ParseAdd(s, i).pos)
    decreases |s| - i, 5
  {
    hide ParseMul, AddLoop, Reads, BlankFrom;
    var first := ParseMul(s, i);
    var x, k := ProductLayout(s, i);
    l, m := AddLoopLayout(s, i, k, first.pos, x, first.ast);
  }

  lemma {:induction false} AddLoopLayout(s: string, from: nat, k: nat, i: nat, x: Layout, acc: Ast)
    returns (l: Layout, m: nat)
    requires from < i <= |s| && Reads(x, s, from, k, acc) && BlankFrom(s, k, i)
    requires AddLoop(s, acc, i).Done?
    ensures Reads(l, s, from, m, AddLoop(s, acc, i).ast) && BlankFrom(s, m, AddLoop(s, acc, i).pos)
    decreases |s| - i, 4
  {
    hide ParseMul, SkipWhitespace, Reads, BlankFrom;
    var j := SkipWhitespace(s, i);
    BlankOn(s, k, i);
    if j < |s| && (s[j] == '+' || s[j] == '-') {
      var next := ParseMul(s, j + 1);
      var y, n := ProductLayout(s, j + 1);
      JointLayout(s, from, k, j, n, x, acc, y, next.ast);
      l, m := AddLoopLayout(s, from, n, next.pos, Joint(x, s[k..j], s[j], y), Joined(s[j], acc, next.ast));
    } else {
      l, m := x, k;
    }
  }

  lemma {:induction false} ProductLayout(s: string, i: nat) returns (l: Layout, m: nat)
    requires i <= |s| && ParseMul(s, i).Done?
    ensures Reads(l, s, i, m, ParseMul(s, i).ast) && Level(l) >= 1 && BlankFrom(s, m, ParseMul(s, i).pos)
    decreases |s| - i, 3
  {
    hide ParseUnary, MulLoop, Reads, BlankFrom;
    var first := ParseUnary(s, i);
    var x := UnaryLayout(s, i);
    l, m := MulLoopLayout(s, i, first.pos, x, first.ast);
  }

  lemma {:induction false} MulLoopLayout(s: string, from: nat, i: nat, x: Layout, acc: Ast)
    returns (l: Layout, m: nat)
    requires from < i <= |s| && Reads(x, s, from, i, acc) && Level(x) >= 1
    requires MulLoop(s, acc, i).Done?
    ensures Reads(l, s, from, m, MulLoop(s, acc, i).ast) && Level(l) >= 1 && BlankFrom(s, m, MulLoop(s, acc, i).pos)
    decreases |s| - i, 2
  {
    hide ParseUnary, SkipWhitespace, Reads, BlankFrom;
    var j := SkipWhitespace(s, i);
    BlankSkipped(s, i);
    if j < |s| && (s[j] == '*' || s[j] == '/') {
      var next := ParseUnary(s, j + 1);
      var y := UnaryLayout(s, j + 1);
      JointLayout(s, from, i, j, next.pos, x, acc, y, next.ast);
      l, m := MulLoopLayout(s, from, next.pos, Joint(x, s[i..j], s[j], y), Joined(s[j], acc, next.ast));
    } else {
      l, m := x, i;
    }
  }

  /** The text `s` writes the tree `e`, with blanks at the end. */
  ghost predicate Writes(s: string, e: Ast) {
    exists l, blanks :: Proper(l, true) && AllBlank(blanks) && s == Written(l) + blanks && Tree(l) == e
  }

  /** The parser accepts exactly the texts of layouts, each with the tree it writes; so no text writes
      two trees. */
  lemma ParsesExactly(s: string, e: Ast)
    ensures ParseAll(s) == Some(e) <==> Writes(s, e)
  {
    hide ParseAdd, SkipWhitespace, AllBlank;
    if ParseAll(s) == Some(e) {
      var l, m := SumLayout(s, 0);
      BlankOn(s, m, ParseAdd(s, 0).pos);
      assert s == s[0..m] + s[m..|s|];
    }
    if l, b :| Proper(l, true) && AllBlank(b) && s == Written(l) + b && Tree(l) == e {
      LayoutParses(l, b);
    }
  }
}
