// Printing expression trees with the fewest brackets, and why parsing gets them back.
module QuotaPrint {
  import opened Text
  import opened QuotaGrammar
  import opened QuotaLayout

  /** Backslashes and single quotes get a backslash. */
  function Escape(s: string): string {
    if s == [] then []
    else (if s[0] == '\\' || s[0] == '\'' then ['\\', s[0]] else [s[0]]) + Escape(s[1..])
  }

  function AsPieces(s: string): seq<Piece> {
    if s == [] then []
    else [if s[0] == '\\' || s[0] == '\'' then Escaped(s[0]) else Plain(s[0])] + AsPieces(s[1..])
  }

  lemma {:induction false} EscapedPieces(s: string)
    ensures PiecesText(AsPieces(s)) == Escape(s) && PiecesValue(AsPieces(s)) == s && Fits(AsPieces(s), '\'')
  {
    if s != [] {
      EscapedPieces(s[1..]);
      assert s == [s[0]] + s[1..];
      assert AsPieces(s)[1..] == AsPieces(s[1..]);
    }
  }

  /** A quoted string with its escapes is read back as it was. */
  lemma EscapedScans(s: string, i: nat, text: string)
    requires OccursAt(s, Escape(text) + "'", i)
    ensures ScanString(s, i, '\'') == Literal(text, i + |Escape(text)| + 1)
  {
    EscapedPieces(text);
    PiecesScan(s, i, AsPieces(text), '\'');
  }

  function CallOf(path: string): Layout { Call("", "", '\'', AsPieces(path), "") }

  lemma CallOfWrites(path: string)
    ensures Proper(CallOf(path), true) && Level(CallOf(path)) == 2 && Tree(CallOf(path)) == Path(path)
    ensures Written(CallOf(path)) == "path('" + Escape(path) + "')"
  {
    EscapedPieces(path);
  }

  /** Binding strength: sums 0, products 1, everything else 2. */
  function Strength(e: Ast): nat {
    match e
    case Add(_, _) => 0
    case Sub(_, _) => 0
    case Mul(_, _) => 1
    case Div(_, _) => 1
    case _ => 2
  }

  function Bare(e: Ast, inline: bool): Layout
    decreases e, 0
  {
    match e
    case Num(t) => Number(t)
    case Path(p) => if inline then Token(p) else CallOf(p)
    case Neg(x) => Signed(true, Minimal(x, 2, inline))
    case Add(l, r) => Joint(Minimal(l, 0, inline), "", '+', Minimal(r, 1, inline))
    case Sub(l, r) => Joint(Minimal(l, 0, inline), "", '-', Minimal(r, 1, inline))
    case Mul(l, r) => Joint(Minimal(l, 1, inline), "", '*', Minimal(r, 2, inline))
    case Div(l, r) => Joint(Minimal(l, 1, inline), "", '/', Minimal(r, 2, inline))
  }

  /** In brackets only where an operand of at least `level` is expected. */
  function Minimal(e: Ast, level: nat, inline: bool): Layout
    decreases e, 1
  {
    if Strength(e) < level then Bracket(Bare(e, inline), "") else Bare(e, inline)
  }

  /** The tree without blanks, its paths as calls or, `inline`, as they are. */
  function Print(e: Ast, inline: bool): string { Written(Minimal(e, 0, inline)) }

  /** Number tokens are numbers. */
  predicate WellFormed(e: Ast) {
    match e
    case Num(t) => IsNumber(t)
    case Path(_) => true
    case Neg(x) => WellFormed(x)
    case Add(l, r) => WellFormed(l) && WellFormed(r)
    case Sub(l, r) => WellFormed(l) && WellFormed(r)
    case Mul(l, r) => WellFormed(l) && WellFormed(r)
    case Div(l, r) => WellFormed(l) && WellFormed(r)
  }

  lemma {:induction false} MinimalWrites(e: Ast, level: nat, inline: bool)
    requires WellFormed(e) && level <= 2
    ensures var l := Minimal(e, level, inline); Proper(l, !inline) && Level(l) >= level && Tree(l) == e
    decreases e, level
  {
    hide IsNumber, CallOf, Written, PiecesText, PiecesValue;
    if Strength(e) < level {
      MinimalWrites(e, 0, inline);
    } else {
      match e
      case Num(_) =>
      case Path(p) => CallOfWrites(p);
      case Neg(x) => MinimalWrites(x, 2, inline);
      case Add(l, r) => MinimalWrites(l, 0, inline); MinimalWrites(r, 1, inline);
      case Sub(l, r) => MinimalWrites(l, 0, inline); MinimalWrites(r, 1, inline);
      case Mul(l, r) => MinimalWrites(l, 1, inline); MinimalWrites(r, 2, inline);
      case Div(l, r) => MinimalWrites(l, 1, inline); MinimalWrites(r, 2, inline);
    }
  }

  /** Parsing inverts printing: precedence, associativity, nested negation and string escapes. */
  lemma PrintThenParse(e: Ast)
    requires WellFormed(e)
    ensures ParseAll(Print(e, false)) == Some(e)
  {
    hide ParseAll, Written, Minimal;
    MinimalWrites(e, 0, false);
    LayoutParses(Minimal(e, 0, false), "");
    assert Print(e, false) + "" == Print(e, false);
  }
}
