// Inline `$...` references: rewriting them yields the explicit form of the same expression.
module QuotaInline {
  import opened Text
  import opened QuotaGrammar
  import opened QuotaExpr
  import opened QuotaLayout
  import opened QuotaPrint

  predicate NoBackslash(s: string) { forall i :: 0 <= i < |s| ==> s[i] != '\\' }

  // ----- one token -----

  lemma {:induction false} EscapeWithoutBackslash(s: string)
    requires NoBackslash(s)
    ensures Escape(s) == EscapeQuotes(s)
  {
    if s != [] { EscapeWithoutBackslash(s[1..]); }
  }

  function Count(s: string, c: char): nat {
    if s == [] then 0 else (if s[0] == c then 1 else 0) + Count(s[1..], c)
  }

  lemma {:induction false} CountZero(s: string, c: char)
    ensures Count(s, c) == 0 <==> forall i :: 0 <= i < |s| ==> s[i] != c
  {
    if s != [] {
      CountZero(s[1..], c);
      assert forall i :: 0 < i < |s| ==> s[i] == s[1..][i - 1];
    }
  }

  lemma {:induction false} EscapeQuotesLength(s: string)
    ensures |EscapeQuotes(s)| == |s| + Count(s, '\'')
  {
    if s != [] { EscapeQuotesLength(s[1..]); }
  }

  /** Every quote or backslash in a literal cost one escape character. */
  lemma {:induction false} ScanCost(s: string, i: nat)
    requires i <= |s|
    ensures var r := ScanString(s, i, '\''); r.Literal? ==>
              r.pos - 1 - i >= |r.text| + Count(r.text, '\'') + Count(r.text, '\\')
    decreases |s| - i
  {
    if i < |s| && s[i] != '\'' {
      var step := if s[i] == '\\' then 2 else 1;
      if i + step <= |s| {
        ScanCost(s, i + step);
        var rest := ScanString(s, i + step, '\'');
        if rest.Literal? { CountCons(s[i + step - 1], rest.text); }
      }
    }
  }

  lemma CountCons(x: char, s: string)
    ensures forall c :: Count([x] + s, c) == (if x == c then 1 else 0) + Count(s, c)
  {
    assert ([x] + s)[1..] == s;
  }

  /** Rewriting a token and reading the literal back recovers it exactly when it has no backslash. */
  lemma TokenRecoveredIffNoBackslash(token: string)
    ensures var s := EscapeQuotes(token) + "'";
            ScanString(s, 0, '\'') == Literal(token, |s|) <==> NoBackslash(token)
  {
    var s := EscapeQuotes(token) + "'";
    EscapeQuotesLength(token);
    CountZero(token, '\\');
    if NoBackslash(token) {
      EscapeWithoutBackslash(token);
      assert s[0..|Escape(token)| + 1] == Escape(token) + "'";
      EscapedScans(s, 0, token);
    } else {
      ScanCost(s, 0);
    }
  }

  lemma {:induction false} EscapeLength(s: string)
    ensures |Escape(s)| == |EscapeQuotes(s)| + Count(s, '\\')
  {
    if s != [] { EscapeLength(s[1..]); }
  }

  // ----- any expression text -----

  /** The text with every `$` token written as a call that reads the token back, whatever it contains. */
  function Explicit(raw: string, i: nat): string
    requires i <= |raw|
    decreases |raw| - i
  {
    if i == |raw| then []
    else if raw[i] == '$' then
      var j := TokenEnd(raw, i + 1);
      PathCall(Escape(raw[i..j])) + Explicit(raw, j)
    else [raw[i]] + Explicit(raw, i + 1)
  }

  /** No `$` token has a backslash. */
  predicate PlainTokens(raw: string, i: nat)
    requires i <= |raw|
    decreases |raw| - i
  {
    if i == |raw| then true
    else if raw[i] == '$' then
      var j := TokenEnd(raw, i + 1);
      NoBackslash(raw[i..j]) && PlainTokens(raw, j)
    else PlainTokens(raw, i + 1)
  }

  lemma {:induction false} NoBackslashNoneInTokens(raw: string, i: nat)
    requires i <= |raw| && NoBackslash(raw)
    ensures PlainTokens(raw, i)
    decreases |raw| - i
  {
    if i < |raw| {
      if raw[i] == '$' { NoBackslashNoneInTokens(raw, TokenEnd(raw, i + 1)); } else { NoBackslashNoneInTokens(raw, i + 1); }
    }
  }

  lemma {:induction false} RewriteIsShorter(raw: string, i: nat)
    requires i <= |raw|
    ensures |Rewrite(raw, i)| <= |Explicit(raw, i)|
    ensures |Rewrite(raw, i)| == |Explicit(raw, i)| ==> PlainTokens(raw, i)
    decreases |raw| - i
  {
    if i < |raw| {
      if raw[i] == '$' {
        var j := TokenEnd(raw, i + 1);
        RewriteIsShorter(raw, j);
        EscapeLength(raw[i..j]);
        CountZero(raw[i..j], '\\');
      } else {
        RewriteIsShorter(raw, i + 1);
      }
    }
  }

  lemma {:induction false} PlainTokensRewrite(raw: string, i: nat)
    requires i <= |raw| && PlainTokens(raw, i)
    ensures Rewrite(raw, i) == Explicit(raw, i)
    decreases |raw| - i
  {
    if i < |raw| {
      if raw[i] == '$' {
        var j := TokenEnd(raw, i + 1);
        PlainTokensRewrite(raw, j);
        EscapeWithoutBackslash(raw[i..j]);
      } else {
        PlainTokensRewrite(raw, i + 1);
      }
    }
  }

  /** Rewriting gives the explicit form of a text exactly when no token in it has a backslash. */
  lemma RewriteIsExplicitExactly(raw: string)
    requires !Contains(raw, "path(")
    ensures Normalized(raw) == Explicit(raw, 0) <==> PlainTokens(raw, 0)
  {
    hide Contains;
    RewriteIsShorter(raw, 0);
    if PlainTokens(raw, 0) { PlainTokensRewrite(raw, 0); }
  }

  lemma ContainsInside(x: string, y: string, z: string, w: string)
    requires Contains(y, w)
    ensures Contains(x + y + z, w)
  {
    var i :| 0 <= i <= |y| && OccursAt(y, w, i);
    var t := x + y + z;
    assert t[|x| + i..|x| + i + |w|] == y[i..i + |w|];
    assert OccursAt(t, w, |x| + i);
  }

  lemma CallContains(escaped: string)
    ensures Contains(PathCall(escaped), "path(")
  {
    assert PathCall(escaped)[0..5] == "path(";
    assert OccursAt(PathCall(escaped), "path(", 0);
  }

  /** The explicit form has an explicit call, or there was nothing to rewrite. */
  lemma {:induction false} ExplicitShowsCall(raw: string, i: nat)
    requires i <= |raw|
    ensures Contains(Explicit(raw, i), "path(") || Explicit(raw, i) == raw[i..]
    decreases |raw| - i
  {
    hide Contains;
    if i < |raw| {
      if raw[i] == '$' {
        var j := TokenEnd(raw, i + 1);
        var call, rest := PathCall(Escape(raw[i..j])), Explicit(raw, j);
        CallContains(Escape(raw[i..j]));
        ContainsInside("", call, rest, "path(");
        assert "" + call + rest == call + rest;
      } else {
        ExplicitShowsCall(raw, i + 1);
        var rest := Explicit(raw, i + 1);
        if Contains(rest, "path(") {
          ContainsInside([raw[i]], rest, "", "path(");
          assert [raw[i]] + rest + "" == [raw[i]] + rest;
        } else {
          assert [raw[i]] + raw[i + 1..] == raw[i..];
        }
      }
    }
  }

  /** So the explicit form is left alone by rewriting. */
  lemma ExplicitIsNormal(raw: string)
    requires !Contains(raw, "path(") && PlainTokens(raw, 0)
    ensures Normalized(Explicit(raw, 0)) == Explicit(raw, 0)
  {
    hide Contains;
    ExplicitShowsCall(raw, 0);
    assert raw[0..] == raw;
    RewriteIsExplicitExactly(raw);
  }

  /** Any text without an explicit call and without a backslash in its tokens means what its explicit
      form means, blanks, redundant parentheses and signs included. */
  lemma InlineMeansExplicit(raw: string, look: string -> Option<real>)
    requires !Contains(raw, "path(") && (PlainTokens(raw, 0) || NoBackslash(raw))
    ensures Meaning(raw, look) == Meaning(Explicit(raw, 0), look)
  {
    hide ParseAll;
    hide Normalized;
    if NoBackslash(raw) { NoBackslashNoneInTokens(raw, 0); }
    RewriteIsExplicitExactly(raw);
    ExplicitIsNormal(raw);
  }

  lemma NormalizedIs(raw: string)
    ensures Normalized(raw) == if Contains(raw, "path(") then raw else Rewrite(raw, 0)
  {
  }

  lemma MeaningOf(raw: string, look: string -> Option<real>)
    ensures Meaning(raw, look) ==
            var ast := ParseAll(Normalized(raw)); if ast.Some? then Eval(ast.value, look) else None
  {
  }

  // ----- which texts are left alone -----

  lemma {:induction false} RewriteGrows(raw: string, i: nat)
    requires i <= |raw|
    ensures |Rewrite(raw, i)| >= |raw| - i
    ensures if '$' in raw[i..] then |Rewrite(raw, i)| > |raw| - i else Rewrite(raw, i) == raw[i..]
    decreases |raw| - i
  {
    if i < |raw| {
      if raw[i] == '$' {
        var j := TokenEnd(raw, i + 1);
        EscapeQuotesLength(raw[i..j]);
        RewriteGrows(raw, j);
      } else {
        RewriteGrows(raw, i + 1);
        assert raw[i..] == [raw[i]] + raw[i + 1..];
      }
    }
  }

  /** A text is read as it stands exactly when it has an explicit call or no `$`. */
  lemma LeftAloneExactly(raw: string)
    ensures Normalized(raw) == raw <==> Inside("path(", raw) || '$' !in raw
  {
    ContainsMeansInside(raw, "path(");
    RewriteGrows(raw, 0);
    assert raw[0..] == raw;
  }

  lemma TokenBetween(x: string, t: string, y: string)
    requires t != "" && t[0] == '$' && (y == "" || IsTokenStop(y[0])) && forall k :: 0 < k < |t| ==> !IsTokenStop(t[k])
    ensures Rewrite(x + t + y, |x|) == PathCall(EscapeQuotes(t)) + Rewrite(x + t + y, |x| + |t|)
    ensures OccursAt(x + t + y, x, 0) && OccursAt(x + t + y, y, |x| + |t|)
  {
    MiddleStands(x, t, y);
    hide *;
    TokenAt(x + t + y, |x|, t);
  }

  lemma MiddleStands(x: string, t: string, y: string)
    ensures var raw := x + t + y;
            OccursAt(raw, x, 0) && OccursAt(raw, t, |x|) && OccursAt(raw, y, |x| + |t|) &&
            (y == "" || IsTokenStop(y[0]) ==> TokenStops(raw, |x| + |t|))
  {
    hide IsTokenStop;
    var raw, i, j := x + t + y, |x|, |x| + |t|;
    assert raw[0..i] == x && raw[i..j] == t && raw[j..j + |y|] == y;
    assert y != "" ==> raw[j] == y[0];
  }

  lemma TokenAt(raw: string, i: nat, t: string)
    requires OccursAt(raw, t, i) && TokenStops(raw, i + |t|) && t != "" && t[0] == '$'
    requires forall k :: 0 < k < |t| ==> !IsTokenStop(t[k])
    ensures Rewrite(raw, i) == PathCall(EscapeQuotes(t)) + Rewrite(raw, i + |t|)
  {
    hide IsTokenStop, PathCall, EscapeQuotes;
    var j := i + |t|;
    assert raw[i..j] == t;
    forall k | i <= k < j ensures raw[k] == t[k - i] { assert raw[i..j][k - i] == raw[k]; }
    TokenFound(raw, i + 1, j);
  }

  /** One token between two texts without any. */
  lemma OneToken(x: string, t: string, y: string)
    requires '$' !in x && '$' !in y && t != "" && t[0] == '$' && (y == "" || IsTokenStop(y[0]))
    requires forall k :: 0 < k < |t| ==> !IsTokenStop(t[k])
    ensures Rewrite(x + t + y, 0) == x + PathCall(EscapeQuotes(t)) + y
  {
    hide *;
    TokenBetween(x, t, y);
    PlainAround(x + t + y, x, |t|, y);
    Two(x, PathCall(EscapeQuotes(t)), y);
  }

  lemma PlainAround(raw: string, x: string, n: nat, y: string)
    requires '$' !in x && '$' !in y && OccursAt(raw, x, 0) && OccursAt(raw, y, |x| + n) && |raw| == |x| + n + |y|
    ensures Rewrite(raw, 0) == x + Rewrite(raw, |x|) && Rewrite(raw, |x| + n) == y
  {
    hide *;
    Copies(raw, 0, x);
    Copies(raw, |x| + n, y);
    RewriteEnds(raw);
  }

  lemma QuoteEscaped()
    ensures PathCall(EscapeQuotes("$'")) == "path('$\\'')"
  {
    assert "$'"[1..] == "'";
    assert EscapeQuotes("$'") == "$\\'";
  }

  lemma SpacedCallToken()
    ensures Rewrite("path ('" + "$'" + ")", 0) == "path ('" + PathCall(EscapeQuotes("$'")) + ")"
  {
    assert !IsTokenStop('\'') && IsTokenStop(')');
    hide *;
    OneToken("path ('", "$'", ")");
  }

  lemma SpacedCallKept()
    ensures !Contains("path ('$')", "path(")
  {
    var raw := "path ('$')";
    hide Contains;
    NoCallMeansNoPathCall(raw);
  }

  lemma SpacedCallRewritten()
    ensures Normalized("path ('$')") == "path ('path('$\\''))"
  {
    hide *;
    SpacedCallKept();
    SpacedCallToken();
    QuoteEscaped();
    assert "path ('$')" == "path ('" + "$'" + ")";
    NormalizedIs("path ('$')");
  }

  /** A path call whose bracket is not closed fails, and so does the text it starts. */
  lemma UnclosedFails(s: string, open: nat, text: string, end: nat)
    requires OccursAt(s, "path", 0) && SkipWhitespace(s, 4) == open && open + 1 < |s| && s[open] == '(' && s[open + 1] == '\''
    requires ScanString(s, open + 2, '\'') == Literal(text, end) && end < |s| && s[end] == '$'
    ensures ParseAll(s) == None
  {
    assert s[0..4][0] == 'p';
    assert SkipWhitespace(s, 0) == 0 && SkipWhitespace(s, open + 1) == open + 1 && SkipWhitespace(s, end) == end;
    hide OccursAt, ScanString, SkipWhitespace;
    assert ParsePath(s, 4) == Fail;
    hide ParsePath;
    assert ParsePrimary(s, 0) == Fail;
    hide ParsePrimary;
    assert ParseUnary(s, 0) == Fail;
    hide ParseUnary;
    assert ParseMul(s, 0) == Fail;
  }

  lemma CallNamePieces() returns (pieces: seq<Piece>)
    ensures PiecesText(pieces) == "path(" && Fits(pieces, '\'')
  {
    var p := AsPieces("path(");
    pieces := p;
    EscapedPieces("path(");
    assert Escape("path(") == "path(" by {
      assert "path("[1..] == "ath(" && "ath("[1..] == "th(" && "th("[1..] == "h(" && "h("[1..] == "(" && "("[1..] == "";
    }
  }

  lemma SpacedCallStands()
    ensures var s := "path ('path('$\\''))";
            OccursAt(s, "path", 0) && OccursAt(s, "path(" + ['\''], 7) && |s| == 19 &&
            s[5] == '(' && s[6] == '\'' && s[13] == '$' &&
            SkipWhitespace(s, 4) == 5
  {
    var s := "path ('path('$\\''))";
    assert s[0..4] == "path" && s[7..13] == "path(" + ['\''];
    assert s[4] == ' ' && s[5] == '(';
    assert IsWhitespace(' ') && !IsWhitespace('(');
    hide IsWhitespace;
  }

  lemma SpacedCallFails()
    ensures ParseAll("path ('path('$\\''))") == None
  {
    hide *;
    SpacedCallStands();
    var pieces := CallNamePieces();
    PiecesScan("path ('path('$\\''))", 7, pieces, '\'');
    UnclosedFails("path ('path('$\\''))", 5, PiecesValue(pieces), 13);
  }

  /** A call with a blank before its bracket: the parser reads it, but the rewriting breaks its reference. */
  lemma SpacedCallIsRewritten(look: string -> Option<real>)
    ensures Writes("path ('$')", Path("$")) && Meaning("path ('$')", look) == None
  {
    var l := Call(" ", "", '\'', [Plain('$')], "");
    assert PiecesText(l.pieces) == "$" && PiecesValue(l.pieces) == "$" && Proper(l, true);
    assert "path ('$')" == Written(l) + "" && Tree(l) == Path("$");
    hide Written, Proper, Tree, ParseAll, Normalized;
    SpacedCallRewritten();
    SpacedCallFails();
  }

  // ----- layouts with bare references -----

  /** A path that can be written bare. */
  predicate InlinePath(p: string) {
    p != [] && p[0] == '$' && NoBackslash(p) && forall i :: 0 <= i < |p| ==>
      !IsWhitespace(p[i]) && p[i] != '+' && p[i] != '-' && p[i] != '*' && p[i] != '/' && p[i] != '(' && p[i] != ')'
  }

  /** Tokens can be written bare and calls have no `$`. */
  predicate Inlined(l: Layout) {
    match l
    case Number(_) => true
    case Token(p) => InlinePath(p)
    case Call(_, _, _, _, _) => '$' !in Written(l)
    case Bracket(x, _) => Inlined(x)
    case Spaced(_, x) => Inlined(x)
    case Signed(_, x) => Inlined(x)
    case Joint(x, _, _, y) => Inlined(x) && Inlined(y)
  }

  /** The layout with its tokens as calls. */
  function Called(l: Layout): Layout {
    match l
    case Number(_) => l
    case Token(p) => CallOf(p)
    case Call(_, _, _, _, _) => l
    case Bracket(x, b) => Bracket(Called(x), b)
    case Spaced(b, x) => Spaced(b, Called(x))
    case Signed(m, x) => Signed(m, Called(x))
    case Joint(x, b, op, y) => Joint(Called(x), b, op, Called(y))
  }

  lemma {:induction false} CalledWrites(l: Layout)
    requires Proper(l, false)
    ensures Proper(Called(l), true) && Level(Called(l)) == Level(l) && Tree(Called(l)) == Tree(l)
  {
    match l
    case Number(_) =>
    case Token(p) => CallOfWrites(p);
    case Call(_, _, _, _, _) =>
    case Bracket(x, _) => CalledWrites(x);
    case Spaced(_, x) => CalledWrites(x);
    case Signed(_, x) => CalledWrites(x);
    case Joint(x, _, _, y) => CalledWrites(x); CalledWrites(y);
  }

  predicate TokenStops(raw: string, j: nat) { j >= |raw| || IsTokenStop(raw[j]) }

  lemma {:induction false} TokenFound(raw: string, i: nat, j: nat)
    requires i <= j <= |raw| && TokenStops(raw, j) && forall k :: i <= k < j ==> !IsTokenStop(raw[k])
    ensures TokenEnd(raw, i) == j
    decreases j - i
  {
    if i < j { TokenFound(raw, i + 1, j); }
  }

  lemma TokenRewrites(raw: string, i: nat, p: string)
    requires InlinePath(p) && OccursAt(raw, p, i) && TokenStops(raw, i + |p|)
    ensures Rewrite(raw, i) == Written(CallOf(p)) + Rewrite(raw, i + |p|)
  {
    assert p != "" && p[0] == '$' && NoBackslash(p) && forall k :: 0 < k < |p| ==> !IsTokenStop(p[k]);
    TokenAt(raw, i, p);
    EscapeWithoutBackslash(p);
    CallOfWrites(p);
    hide Written, CallOf, Rewrite;
  }

  lemma {:induction false} Copies(raw: string, i: nat, t: string)
    requires OccursAt(raw, t, i) && '$' !in t
    ensures Rewrite(raw, i) == t + Rewrite(raw, i + |t|)
    decreases |t|
  {
    if t != "" {
      assert raw[i..i + |t|] == t;
      assert raw[i] == t[0];
      assert raw[i + 1..i + 1 + |t[1..]|] == t[1..];
      Copies(raw, i + 1, t[1..]);
      assert t == [t[0]] + t[1..];
    }
  }

  lemma BlanksHaveNoDollar(b: string)
    requires AllBlank(b)
    ensures '$' !in b
  {
  }

  /** Where blanks and then an operator or a closing bracket follow, a token stops. */
  lemma StopsBefore(raw: string, i: nat, b: string, c: char)
    requires OccursAt(raw, b + [c], i) && AllBlank(b) && IsTokenStop(c)
    ensures TokenStops(raw, i)
  {
    assert raw[i..i + |b| + 1] == b + [c];
    assert raw[i] == (b + [c])[0];
  }

  lemma WrittenAs(l: Layout)
    ensures match l
            case Number(t) => Written(l) == t && Called(l) == l
            case Token(p) => Written(l) == p && Called(l) == CallOf(p)
            case Call(_, _, _, _, _) => Called(l) == l
            case Bracket(x, b) => Written(l) == "(" + Written(x) + b + ")" && Called(l) == Bracket(Called(x), b)
            case Spaced(b, x) => Written(l) == b + Written(x) && Called(l) == Spaced(b, Called(x))
            case Signed(minus, x) =>
              Written(l) == (if minus then "-" else "+") + Written(x) && Called(l) == Signed(minus, Called(x))
            case Joint(x, b, op, y) =>
              Written(l) == Written(x) + b + [op] + Written(y) && Called(l) == Joint(Called(x), b, op, Called(y))
  {
  }

  /** How a layout is written, before and after its tokens have become calls. */
  lemma CalledText(l: Layout)
    ensures match l
            case Bracket(x, b) =>
              Written(l) == "(" + (Written(x) + ((b + [')']) + "")) &&
              Written(Called(l)) == "(" + Written(Called(x)) + (b + [')']) + ""
            case Spaced(b, x) => Written(l) == b + Written(x) && Written(Called(l)) == b + Written(Called(x))
            case Signed(minus, x) =>
              var sign := if minus then "-" else "+";
              Written(l) == sign + Written(x) && Written(Called(l)) == sign + Written(Called(x))
            case Joint(x, b, op, y) =>
              Written(l) == "" + (Written(x) + ((b + [op]) + Written(y))) &&
              Written(Called(l)) == Written(Called(x)) + (b + [op]) + Written(Called(y))
            case Token(p) => Written(l) == p && Called(l) == CallOf(p)
            case Number(t) => Written(l) == t && Called(l) == l
            case _ => Called(l) == l
  {
    hide *;
    WrittenAs(l);
    match l
    case Bracket(x, b) =>
      WrittenAs(Bracket(Called(x), b));
      BracketText(Written(x), b);
      BracketText(Written(Called(x)), b);
    case Spaced(b, x) => WrittenAs(Spaced(b, Called(x)));
    case Signed(minus, x) => WrittenAs(Signed(minus, Called(x)));
    case Joint(x, b, op, y) =>
      WrittenAs(Joint(Called(x), b, op, Called(y)));
      JointText(Written(x), b, op, Written(y));
      JointText(Written(Called(x)), b, op, Written(Called(y)));
    case _ =>
  }

  lemma BracketText(x: string, b: string)
    ensures "(" + x + b + ")" == "(" + (x + ((b + [')']) + "")) == "(" + x + (b + [')']) + ""
  {
  }

  lemma JointText(x: string, b: string, op: char, y: string)
    ensures x + b + [op] + y == "" + (x + ((b + [op]) + y)) == x + (b + [op]) + y
  {
  }

  lemma StopChars()
    ensures IsTokenStop('+') && IsTokenStop('-') && IsTokenStop('*') && IsTokenStop('/') && IsTokenStop(')')
  {
  }

  lemma OccursFits(s: string, i: nat, t: string)
    requires OccursAt(s, t, i)
    ensures i + |t| <= |s|
  {
  }

  lemma {:induction false} LayoutRewrites(raw: string, i: nat, l: Layout)
    requires Proper(l, false) && Inlined(l) && OccursAt(raw, Written(l), i) && TokenStops(raw, i + |Written(l)|)
    ensures Rewrite(raw, i) == Written(Called(l)) + Rewrite(raw, i + |Written(l)|)
    decreases l
  {
    hide Rewrite, OccursAt, CallOf, AllBlank, InlinePath, IsNumber, TokenStops, Called, Written, IsTokenStop;
    CalledText(l);
    StopChars();
    match l
    case Number(t) => NumberHasNoDollar(t); Copies(raw, i, t);
    case Token(p) => TokenRewrites(raw, i, p);
    case Call(_, _, _, _, _) => Copies(raw, i, Written(l));
    case Bracket(x, b) =>
      AroundOperand(raw, i, "(", Written(x), b, ')', "");
      LayoutRewrites(raw, i + 1, x);
      BracketRewrites(raw, i, Written(x), Written(Called(x)), b);
    case Spaced(b, x) =>
      Parts(raw, i, b, Written(x));
      BlanksHaveNoDollar(b);
      Copies(raw, i, b);
      LayoutRewrites(raw, i + |b|, x);
      Two(b, Written(Called(x)), Rewrite(raw, i + |Written(l)|));
    case Signed(minus, x) =>
      var sign := if minus then "-" else "+";
      Parts(raw, i, sign, Written(x));
      Copies(raw, i, sign);
      LayoutRewrites(raw, i + 1, x);
      Two(sign, Written(Called(x)), Rewrite(raw, i + |Written(l)|));
    case Joint(x, b, op, y) =>
      AroundOperand(raw, i, "", Written(x), b, op, Written(y));
      LayoutRewrites(raw, i, x);
      LayoutRewrites(raw, i + |Written(x)| + |b| + 1, y);
      Three(raw, i, Written(x), Written(Called(x)), b + [op], b + [op], Written(y), Written(Called(y)));
  }

  lemma Two(a: string, b: string, rest: string)
    ensures a + (b + rest) == a + b + rest
  {
  }

  lemma BracketRewrites(raw: string, i: nat, w: string, u: string, b: string)
    requires i + 1 + |w| + |b| + 1 <= |raw|
    requires Rewrite(raw, i) == "(" + Rewrite(raw, i + 1) && Rewrite(raw, i + 1) == u + Rewrite(raw, i + 1 + |w|)
    requires Rewrite(raw, i + 1 + |w|) == b + [')'] + Rewrite(raw, i + 1 + |w| + |b| + 1)
    ensures Rewrite(raw, i) == "(" + u + (b + [')']) + "" + Rewrite(raw, i + 1 + |w| + |b| + 1)
  {
    hide *;
    Three(raw, i, "(", "(", w, u, b + [')'], b + [')']);
    assert "(" + u + (b + [')']) + "" == "(" + u + (b + [')']);
  }

  /** An operand behind `a` and before blanks and an operator or closing bracket. */
  lemma AroundOperand(raw: string, i: nat, a: string, w: string, b: string, c: char, v: string)
    requires OccursAt(raw, a + (w + ((b + [c]) + v)), i) && '$' !in a && AllBlank(b) && IsTokenStop(c) && c != '$'
    ensures var j := i + |a| + |w|;
            OccursAt(raw, w, i + |a|) && TokenStops(raw, j) && OccursAt(raw, v, j + |b| + 1) &&
            j + |b| + 1 + |v| <= |raw| && Rewrite(raw, i) == a + Rewrite(raw, i + |a|) &&
            Rewrite(raw, j) == (b + [c]) + Rewrite(raw, j + |b| + 1)
  {
    hide Rewrite, OccursAt, IsTokenStop, AllBlank;
    var m := b + [c];
    Parts(raw, i, a, w + (m + v));
    Parts(raw, i + |a|, w, m + v);
    Parts(raw, i + |a| + |w|, m, v);
    BlanksHaveNoDollar(b);
    StopsBefore(raw, i + |a| + |w|, b, c);
    Copies(raw, i, a);
    Copies(raw, i + |a| + |w|, m);
    OccursFits(raw, i + |a| + |w| + |m|, v);
  }

  /** Three rewritten parts in a row. */
  lemma Three(raw: string, i: nat, a: string, a': string, b: string, b': string, c: string, c': string)
    requires i + |a| + |b| + |c| <= |raw|
    requires Rewrite(raw, i) == a' + Rewrite(raw, i + |a|)
    requires Rewrite(raw, i + |a|) == b' + Rewrite(raw, i + |a| + |b|)
    requires Rewrite(raw, i + |a| + |b|) == c' + Rewrite(raw, i + |a| + |b| + |c|)
    ensures Rewrite(raw, i) == a' + b' + c' + Rewrite(raw, i + |a| + |b| + |c|)
  {
    hide Rewrite;
    var r := Rewrite(raw, i + |a| + |b| + |c|);
    assert a' + (b' + (c' + r)) == a' + b' + c' + r;
  }

  lemma NumberHasNoDollar(t: string)
    requires IsNumber(t)
    ensures '$' !in t
  {
    forall k | 0 <= k < |t| ensures t[k] != '$' { assert IsNumberChar(t[k]); }
  }

  /** Rewriting a text with bare references writes them as calls, and it means its tree: blanks, brackets,
      signs and calls without `$` stay as they are. */
  lemma InlinedMeansTree(l: Layout, blanks: string, look: string -> Option<real>)
    requires Proper(l, false) && Inlined(l) && AllBlank(blanks) && !Inside("path(", Written(l) + blanks)
    ensures Normalized(Written(l) + blanks) == Written(Called(l)) + blanks
    ensures Meaning(Written(l) + blanks, look) == Eval(Tree(l), look)
  {
    CalledWrites(l);
    hide *;
    InlinedRewrites(l, blanks);
    LayoutParses(Called(l), blanks);
    MeaningOf(Written(l) + blanks, look);
  }

  lemma InlinedRewrites(l: Layout, blanks: string)
    requires Proper(l, false) && Inlined(l) && AllBlank(blanks) && !Inside("path(", Written(l) + blanks)
    ensures Normalized(Written(l) + blanks) == Written(Called(l)) + blanks
  {
    var raw, j := Written(l) + blanks, |Written(l)|;
    assert TokenStops(raw, j) && OccursAt(raw, Written(l), 0) && OccursAt(raw, blanks, j);
    hide *;
    ContainsMeansInside(raw, "path(");
    BlanksHaveNoDollar(blanks);
    LayoutRewrites(raw, 0, l);
    Copies(raw, j, blanks);
    RewriteEnds(raw);
    assert blanks + "" == blanks;
    NormalizedIs(raw);
  }

  lemma RewriteEnds(raw: string)
    ensures Rewrite(raw, |raw|) == []
  {
  }

  // ----- texts without calls -----

  /** No opening parenthesis follows an `h`, so `path(` cannot occur. */
  predicate NoCall(t: string) { forall k :: 0 < k < |t| && t[k] == '(' ==> t[k - 1] != 'h' }

  lemma NoCallMeansNoPathCall(t: string)
    requires NoCall(t)
    ensures !Inside("path(", t) && !Contains(t, "path(")
  {
    if a, b :| t == a + "path(" + b {
      var k := |a| + 4;
      assert t[k] == '(' && t[k - 1] == 'h';
    }
    ContainsMeansInside(t, "path(");
  }

  predicate CallFree(l: Layout) {
    match l
    case Number(_) => true
    case Token(_) => true
    case Call(_, _, _, _, _) => false
    case Bracket(x, _) => CallFree(x)
    case Spaced(_, x) => CallFree(x)
    case Signed(_, x) => CallFree(x)
    case Joint(x, _, _, y) => CallFree(x) && CallFree(y)
  }

  /** `m` separates what may end in an `h` from what may start with a bracket. */
  lemma NoCallJoins(x: string, m: string, y: string)
    requires NoCall(x) && NoCall(y) && '(' !in m && 'h' !in m && (m == "" ==> x == "")
    ensures NoCall(x + (m + y))
  {
    var t := x + (m + y);
    forall k | |x| <= k < |x| + |m| ensures t[k] != '(' { assert t[k] == m[k - |x|]; }
    forall k | 0 < k < |t| && t[k] == '(' ensures t[k - 1] != 'h' {
      var n := |x| + |m|;
      if k > n { assert t[k] == y[k - n] && t[k - 1] == y[k - n - 1]; }
      else if k == n { assert t[k - 1] == m[|m| - 1]; }
    }
  }

  lemma {:induction false} TokensHaveNoCall(l: Layout)
    requires Proper(l, false) && Inlined(l) && CallFree(l)
    ensures NoCall(Written(l))
  {
    hide NoCall, IsNumber, InlinePath, AllBlank;
    var t := Written(l);
    match l
    case Number(_) => NumberHasNoBracket(t); NoBracketNoCall(t);
    case Token(_) => TokenHasNoBracket(t); NoBracketNoCall(t);
    case Bracket(x, b) =>
      TokensHaveNoCall(x);
      BlanksAreNoCall(b);
      NoBracketNoCall("");
      NoCallJoins(Written(x), b + ")", "");
      assert t == "(" + (Written(x) + (b + ")" + ""));
      BracketNoCall(Written(x) + (b + ")" + ""));
    case Spaced(b, x) =>
      TokensHaveNoCall(x);
      BlanksAreNoCall(b);
      NoBracketNoCall("");
      NoCallJoins("", b, Written(x));
      assert t == "" + (b + Written(x));
    case Signed(minus, x) =>
      TokensHaveNoCall(x);
      NoBracketNoCall("");
      var sign := if minus then "-" else "+";
      NoCallJoins("", sign, Written(x));
      assert t == "" + (sign + Written(x));
    case Joint(x, b, op, y) =>
      TokensHaveNoCall(x);
      TokensHaveNoCall(y);
      BlanksAreNoCall(b);
      NoCallJoins(Written(x), b + [op], Written(y));
      assert t == Written(x) + (b + [op] + Written(y));
  }

  lemma NumberHasNoBracket(t: string)
    requires IsNumber(t)
    ensures '(' !in t
  {
    forall k | 0 <= k < |t| ensures t[k] != '(' { assert IsNumberChar(t[k]); }
  }

  lemma TokenHasNoBracket(p: string)
    requires InlinePath(p)
    ensures '(' !in p
  {
  }

  lemma NoBracketNoCall(t: string)
    requires '(' !in t
    ensures NoCall(t)
  {
  }

  lemma BracketNoCall(t: string)
    requires NoCall(t)
    ensures NoCall("(" + t)
  {
    var s := "(" + t;
    forall k | 0 < k < |s| && s[k] == '(' ensures s[k - 1] != 'h' {
      if k > 1 { assert t[k - 1] == s[k] && t[k - 2] == s[k - 1]; }
    }
  }

  lemma BlanksAreNoCall(b: string)
    requires AllBlank(b)
    ensures '(' !in b && 'h' !in b
  {
  }

  /** Which trees a text writes decides its value. */
  lemma ParsedValue(text: string, look: string -> Option<real>, v: real)
    ensures (ParseAll(text).Some? && Eval(ParseAll(text).value, look) == Some(v)) <==>
            exists e :: Writes(text, e) && Eval(e, look) == Some(v)
  {
    hide ParseAll, Writes, Eval;
    if ParseAll(text).Some? { ParsesExactly(text, ParseAll(text).value); }
    forall e | Writes(text, e) ensures ParseAll(text) == Some(e) { ParsesExactly(text, e); }
  }

  /** Exactly the trees that the text, or its explicit form when it has no explicit call, writes give its
      meaning. */
  lemma MeaningExactly(raw: string, look: string -> Option<real>, v: real)
    requires Inside("path(", raw) || PlainTokens(raw, 0)
    ensures var text := if Inside("path(", raw) then raw else Explicit(raw, 0);
            Meaning(raw, look) == Some(v) <==> exists e :: Writes(text, e) && Eval(e, look) == Some(v)
  {
    ContainsMeansInside(raw, "path(");
    var text := if Inside("path(", raw) then raw else Explicit(raw, 0);
    if !Inside("path(", raw) { RewriteIsExplicitExactly(raw); }
    assert Normalized(raw) == text;
    hide *;
    MeaningOf(raw, look);
    ParsedValue(text, look, v);
  }

  // ----- printed trees -----

  predicate Inlineable(e: Ast) {
    match e
    case Num(_) => true
    case Path(p) => InlinePath(p)
    case Neg(x) => Inlineable(x)
    case Add(l, r) => Inlineable(l) && Inlineable(r)
    case Sub(l, r) => Inlineable(l) && Inlineable(r)
    case Mul(l, r) => Inlineable(l) && Inlineable(r)
    case Div(l, r) => Inlineable(l) && Inlineable(r)
  }

  lemma {:induction false} MinimalInlined(e: Ast, level: nat)
    requires WellFormed(e) && Inlineable(e) && level <= 2
    ensures var l := Minimal(e, level, true); Inlined(l) && CallFree(l) && Called(l) == Minimal(e, level, false)
    decreases e
  {
    hide CallOf, InlinePath;
    match e
    case Num(_) =>
    case Path(_) =>
    case Neg(x) => MinimalInlined(x, 2);
    case Add(l, r) => MinimalInlined(l, 0); MinimalInlined(r, 1);
    case Sub(l, r) => MinimalInlined(l, 0); MinimalInlined(r, 1);
    case Mul(l, r) => MinimalInlined(l, 1); MinimalInlined(r, 2);
    case Div(l, r) => MinimalInlined(l, 1); MinimalInlined(r, 2);
  }

  lemma PrintIs(e: Ast, inline: bool)
    ensures Print(e, inline) == Written(Minimal(e, 0, inline))
  {
  }

  lemma EmptyIsBlank()
    ensures AllBlank("")
  {
  }

  /** Rewriting the inline form gives the explicit form, character for character, and the inline form
      means what its tree evaluates to. */
  lemma InlineMeansTree(e: Ast, look: string -> Option<real>)
    requires WellFormed(e) && Inlineable(e)
    ensures Normalized(Print(e, true)) == Print(e, false) && Meaning(Print(e, true), look) == Eval(e, look)
  {
    var l := Minimal(e, 0, true);
    MinimalWrites(e, 0, true);
    MinimalInlined(e, 0);
    hide *;
    PrintIs(e, true);
    PrintIs(e, false);
    TokensHaveNoCall(l);
    NoCallMeansNoPathCall(Written(l));
    assert Written(l) + "" == Written(l) && Written(Called(l)) + "" == Written(Called(l));
    EmptyIsBlank();
    InlinedMeansTree(l, "", look);
  }

  // ----- explicit calls -----

  /** Every call has its bracket right behind its name. */
  predicate Tight(l: Layout) {
    match l
    case Number(_) => true
    case Token(_) => true
    case Call(before, _, _, _, _) => before == ""
    case Bracket(x, _) => Tight(x)
    case Spaced(_, x) => Tight(x)
    case Signed(_, x) => Tight(x)
    case Joint(x, _, _, y) => Tight(x) && Tight(y)
  }

  lemma InsideHere(a: string, w: string, b: string)
    ensures Inside(w, a + w + b)
  {
  }

  lemma InsideMore(w: string, a: string, t: string, b: string)
    requires Inside(w, t)
    ensures Inside(w, a + t + b)
  {
    var x, y :| t == x + w + y;
    assert a + t + b == (a + x) + w + (y + b);
  }

  lemma {:induction false} TightShows(l: Layout)
    requires Proper(l, true) && Tight(l)
    ensures Inside("path(", Written(l)) || '$' !in Written(l)
  {
    hide Inside, PiecesText, IsNumber, AllBlank;
    var t := Written(l);
    match l
    case Number(_) => NumberHasNoDollar(t);
    case Call(_, within, quote, pieces, after) =>
      assert t == "" + "path(" + (within + [quote] + PiecesText(pieces) + [quote] + after + ")");
      InsideHere("", "path(", within + [quote] + PiecesText(pieces) + [quote] + after + ")");
    case Bracket(x, b) =>
      TightShows(x);
      BlanksHaveNoDollar(b);
      assert t == "(" + Written(x) + (b + ")");
      if Inside("path(", Written(x)) { InsideMore("path(", "(", Written(x), b + ")"); }
    case Spaced(b, x) =>
      TightShows(x);
      BlanksHaveNoDollar(b);
      assert t == b + Written(x) + "";
      if Inside("path(", Written(x)) { InsideMore("path(", b, Written(x), ""); }
    case Signed(minus, x) =>
      TightShows(x);
      var sign := if minus then "-" else "+";
      assert t == sign + Written(x) + "";
      if Inside("path(", Written(x)) { InsideMore("path(", sign, Written(x), ""); }
    case Joint(x, b, op, y) =>
      TightShows(x);
      TightShows(y);
      BlanksHaveNoDollar(b);
      assert t == "" + Written(x) + (b + [op] + Written(y)) && t == (Written(x) + b + [op]) + Written(y) + "";
      if Inside("path(", Written(x)) { InsideMore("path(", "", Written(x), b + [op] + Written(y)); }
      if Inside("path(", Written(y)) { InsideMore("path(", Written(x) + b + [op], Written(y), ""); }
  }

  /** A text with explicit calls alone means its tree, whatever its paths contain. */
  lemma ExplicitMeansTree(l: Layout, blanks: string, look: string -> Option<real>)
    requires Proper(l, true) && Tight(l) && AllBlank(blanks)
    ensures Meaning(Written(l) + blanks, look) == Eval(Tree(l), look)
  {
    hide *;
    var raw := Written(l) + blanks;
    ShowsWithBlanks(l, blanks);
    LeftAloneExactly(raw);
    LayoutParses(l, blanks);
    MeaningOf(raw, look);
  }

  lemma ShowsWithBlanks(l: Layout, blanks: string)
    requires Proper(l, true) && Tight(l) && AllBlank(blanks)
    ensures Inside("path(", Written(l) + blanks) || '$' !in Written(l) + blanks
  {
    hide *;
    TightShows(l);
    BlanksHaveNoDollar(blanks);
    assert "" + Written(l) + blanks == Written(l) + blanks;
    if Inside("path(", Written(l)) { InsideMore("path(", "", Written(l), blanks); }
  }

  lemma {:induction false} MinimalTight(e: Ast, level: nat, inline: bool)
    ensures Tight(Minimal(e, level, inline))
    decreases e
  {
    match e
    case Num(_) =>
    case Path(_) =>
    case Neg(x) => MinimalTight(x, 2, inline);
    case Add(l, r) => MinimalTight(l, 0, inline); MinimalTight(r, 1, inline);
    case Sub(l, r) => MinimalTight(l, 0, inline); MinimalTight(r, 1, inline);
    case Mul(l, r) => MinimalTight(l, 1, inline); MinimalTight(r, 2, inline);
    case Div(l, r) => MinimalTight(l, 1, inline); MinimalTight(r, 2, inline);
  }

  /** Both printed forms mean their tree. */
  lemma PrintedMeansTree(e: Ast, inline: bool, look: string -> Option<real>)
    requires WellFormed(e) && (inline ==> Inlineable(e))
    ensures Meaning(Print(e, inline), look) == Eval(e, look)
  {
    hide *;
    if inline {
      InlineMeansTree(e, look);
    } else {
      MinimalWrites(e, 0, false);
      MinimalTight(e, 0, false);
      EmptyIsBlank();
      ExplicitMeansTree(Minimal(e, 0, false), "", look);
      PrintIs(e, false);
      assert Print(e, false) == Written(Minimal(e, 0, false)) + "";
    }
  }
}
