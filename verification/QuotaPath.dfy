// The simplified JSONPath walker of quota mappings.
module QuotaPath {
  import opened Text
  import opened Json

  // ----- what a path string denotes -----

  /** End of a dotted key: the next `.` or `[`. */
  function KeyEnd(p: string, i: nat): (j: nat)
    requires i <= |p|
    ensures i <= j <= |p|
    decreases |p| - i
  {
    if i < |p| && p[i] != '.' && p[i] != '[' then KeyEnd(p, i + 1) else i
  }

  function QuoteEnd(p: string, i: nat, quote: char): (j: nat)
    requires i <= |p|
    ensures i <= j <= |p|
    decreases |p| - i
  {
    if i < |p| && p[i] != quote then QuoteEnd(p, i + 1, quote) else i
  }

  function DigitsEnd(p: string, i: nat): (j: nat)
    requires i <= |p|
    ensures i <= j <= |p| && AllDigits(p[i..j])
    decreases |p| - i
  {
    if i < |p| && IsDigit(p[i]) then
      var j := DigitsEnd(p, i + 1);
      assert p[i..j] == [p[i]] + p[i + 1..j];
      j
    else i
  }

  /** A step that was read: where to go and where the rest of the path starts. */
  datatype Move = Bad | Blank(next: nat) | ToField(key: string, next: nat) | ToItem(index: nat, next: nat)

  function ReadMove(p: string, i: nat): (m: Move)
    requires i < |p|
    ensures !m.Bad? ==> i < m.next <= |p|
  {
    if IsWhitespace(p[i]) then Blank(i + 1)
    else if p[i] == '.' then
      var j := KeyEnd(p, i + 1);
      if j == i + 1 then Bad else ToField(Trim(p[i + 1..j]), j)
    else if p[i] == '[' then
      if i + 1 == |p| then Bad
      else if p[i + 1] == '\'' || p[i + 1] == '\"' then
        var j := QuoteEnd(p, i + 2, p[i + 1]);
        if j + 1 >= |p| || p[j + 1] != ']' then Bad else ToField(Trim(p[i + 2..j]), j + 2)
      else
        var j := DigitsEnd(p, i + 1);
        if j == i + 1 || j == |p| || p[j] != ']' || DigitsValue(p[i + 1..j]) >= U64_LIMIT then Bad
        else ToItem(DigitsValue(p[i + 1..j]), j + 1)
    else Bad
  }

  function Walk(current: Json, p: string, i: nat): Option<Json>
    requires i <= |p|
    decreases |p| - i
  {
    if i == |p| then Some(current)
    else
      match ReadMove(p, i)
      case Bad => None
      case Blank(next) => Walk(current, p, next)
      case ToField(key, next) =>
        var v := Field(current, key);
        if v.None? then None else Walk(v.value, p, next)
      case ToItem(index, next) =>
        var v := Item(current, index);
        if v.None? then None else Walk(v.value, p, next)
  }

  function Extract(root: Json, path: string): Option<Json> {
    if path == [] || path[0] != '$' then None else Walk(root, path, 1)
  }

  /** Reads one step with index loops. */
  method ReadStep(path: string, i: nat) returns (m: Move)
    requires i < |path|
    ensures m == ReadMove(path, i)
  {
    hide Trim;
    hide KeyEnd;
    hide QuoteEnd;
    hide DigitsEnd;
    hide DigitsValue;
    if IsWhitespace(path[i]) { return Blank(i + 1); }
    if path[i] == '.' {
      var start := i + 1;
      var j := ScanKey(path, start);
      if start == j { return Bad; }
      return ToField(Trim(path[start..j]), j);
    }
    if path[i] != '[' || i + 1 >= |path| { return Bad; }
    if path[i + 1] == '\'' || path[i + 1] == '\"' {
      var start := i + 2;
      var j := ScanQuoted(path, start, path[i + 1]);
      if j >= |path| { return Bad; }
      if j + 1 >= |path| || path[j + 1] != ']' { return Bad; }
      return ToField(Trim(path[start..j]), j + 2);
    }
    var start := i + 1;
    var j := ScanDigits(path, start);
    if start == j || j >= |path| || path[j] != ']' { return Bad; }
    var index := DigitsValue(path[start..j]);
    if index >= U64_LIMIT { return Bad; }
    return ToItem(index, j + 1);
  }

  /** The walk, step by step. */
  method ExtractJsonPath(root: Json, path: string) returns (r: Option<Json>)
    ensures r == Extract(root, path)
  {
    hide ReadMove;
    if path == [] || path[0] != '$' { return None; }
    var current := root;
    var i := 1;
    while i < |path|
      invariant 1 <= i <= |path|
      invariant Walk(root, path, 1) == Walk(current, path, i)
    {
      var m := ReadStep(path, i);
      if m.Bad? { return None; }
      if m.ToField? {
        var v := Field(current, m.key);
        if v.None? { return None; }
        current := v.value;
      } else if m.ToItem? {
        var v := Item(current, m.index);
        if v.None? { return None; }
        current := v.value;
      }
      i := m.next;
    }
    return Some(current);
  }

  method ScanKey(p: string, start: nat) returns (i: nat)
    requires start <= |p|
    ensures i == KeyEnd(p, start)
  {
    i := start;
    while i < |p| && p[i] != '.' && p[i] != '['
      invariant start <= i <= |p| && KeyEnd(p, start) == KeyEnd(p, i)
    {
      i := i + 1;
    }
  }

  method ScanQuoted(p: string, start: nat, quote: char) returns (i: nat)
    requires start <= |p|
    ensures i == QuoteEnd(p, start, quote)
  {
    i := start;
    while i < |p| && p[i] != quote
      invariant start <= i <= |p| && QuoteEnd(p, start, quote) == QuoteEnd(p, i, quote)
    {
      i := i + 1;
    }
  }

  method ScanDigits(p: string, start: nat) returns (i: nat)
    requires start <= |p|
    ensures i == DigitsEnd(p, start)
  {
    i := start;
    while i < |p| && IsDigit(p[i])
      invariant start <= i <= |p| && DigitsEnd(p, start) == DigitsEnd(p, i)
    {
      i := i + 1;
    }
  }

  // ----- every way to write a path -----

  /** A step as it is written: a blank, a key behind a dot, a quoted key or the digits of an index. */
  datatype PathStep = Gap(c: char) | Dotted(key: string) | Quoted(key: string, quote: char) | At(digits: string)

  /** Keys are free of their delimiter, dotted ones are not empty, and an index has digits and fits a usize. */
  predicate Printable(step: PathStep) {
    match step
    case Gap(c) => IsWhitespace(c)
    case Dotted(k) => k != [] && forall i :: 0 <= i < |k| ==> k[i] != '.' && k[i] != '['
    case Quoted(k, q) => (q == '\'' || q == '\"') && forall i :: 0 <= i < |k| ==> k[i] != q
    case At(d) => d != [] && AllDigits(d) && DigitsValue(d) < 0x1_0000_0000_0000_0000
  }

  /** Steps that can be written one after the other: a blank behind a dotted key would belong to the key. */
  predicate PrintableAll(steps: seq<PathStep>) {
    (forall j :: 0 <= j < |steps| ==> Printable(steps[j])) &&
    forall j :: 0 <= j < |steps| - 1 && steps[j].Dotted? ==> !steps[j + 1].Gap?
  }

  function PrintStep(step: PathStep): string {
    match step
    case Gap(c) => [c]
    case Dotted(k) => "." + k
    case Quoted(k, q) => ['[', q] + k + [q, ']']
    case At(d) => "[" + d + "]"
  }

  function PrintSteps(steps: seq<PathStep>): string {
    if steps == [] then "" else PrintStep(steps[0]) + PrintSteps(steps[1..])
  }

  /** Where a key without the blanks at its ends leads. */
  function Member(v: Json, key: string): Option<Json> {
    match v
    case Obj(fields) => if Trim(key) in fields then Some(fields[Trim(key)]) else None
    case _ => None
  }

  /** Following the steps one by one through the value. */
  function Follow(v: Json, steps: seq<PathStep>): Option<Json> {
    if steps == [] then Some(v)
    else
      var next := match steps[0]
        case Gap(_) => Some(v)
        case Dotted(k) => Member(v, k)
        case Quoted(k, _) => Member(v, k)
        case At(d) => if AllDigits(d) && v.Arr? && DigitsValue(d) < |v.items| then Some(v.items[DigitsValue(d)]) else None;
      if next.None? then None else Follow(next.value, steps[1..])
  }

  lemma {:induction false} KeyFound(p: string, i: nat, j: nat)
    requires i <= j <= |p| && (j == |p| || p[j] == '.' || p[j] == '[')
    requires forall k :: i <= k < j ==> p[k] != '.' && p[k] != '['
    ensures KeyEnd(p, i) == j
    decreases j - i
  {
    if i < j { KeyFound(p, i + 1, j); }
  }

  lemma {:induction false} QuoteFound(p: string, i: nat, j: nat, quote: char)
    requires i <= j < |p| && p[j] == quote && forall k :: i <= k < j ==> p[k] != quote
    ensures QuoteEnd(p, i, quote) == j
    decreases j - i
  {
    if i < j { QuoteFound(p, i + 1, j, quote); }
  }

  lemma {:induction false} DigitsFound(p: string, i: nat, j: nat)
    requires i <= j < |p| && !IsDigit(p[j]) && forall k :: i <= k < j ==> IsDigit(p[k])
    ensures DigitsEnd(p, i) == j
    decreases j - i
  {
    if i < j { DigitsFound(p, i + 1, j); }
  }

  lemma SameChars(p: string, i: nat, t: string)
    requires OccursAt(p, t, i)
    ensures i + |t| <= |p| && p[i..i + |t|] == t && forall k :: i <= k < i + |t| ==> p[k] == t[k - i]
  {
    assert forall k :: i <= k < i + |t| ==> p[k] == p[i..i + |t|][k - i];
  }

  /** Another step or nothing follows. */
  predicate StepEnds(p: string, j: nat) { j == |p| || (j < |p| && (p[j] == '.' || p[j] == '[')) }

  lemma DottedReads(p: string, i: nat, k: string)
    requires Printable(Dotted(k)) && OccursAt(p, "." + k, i) && StepEnds(p, i + 1 + |k|)
    ensures ReadMove(p, i) == ToField(Trim(k), i + 1 + |k|)
  {
    hide Trim;
    hide OccursAt;
    Parts(p, i, ".", k);
    CharAt(p, i, '.');
    SameChars(p, i + 1, k);
    KeyFound(p, i + 1, i + 1 + |k|);
  }

  lemma QuotedReads(p: string, i: nat, k: string, q: char)
    requires Printable(Quoted(k, q)) && OccursAt(p, ['[', q] + k + [q, ']'], i)
    ensures ReadMove(p, i) == ToField(Trim(k), i + |k| + 4)
  {
    hide Trim;
    hide OccursAt;
    Parts(p, i, ['[', q] + k, [q, ']']);
    Parts(p, i, ['[', q], k);
    SameChars(p, i, ['[', q]);
    SameChars(p, i + 2, k);
    var j := i + 2 + |k|;
    SameChars(p, j, [q, ']']);
    assert p[i] == '[' && p[i + 1] == q && p[j] == q && p[j + 1] == ']';
    QuoteFound(p, i + 2, j, q);
  }

  lemma IndexReads(p: string, i: nat, d: string)
    requires Printable(At(d)) && OccursAt(p, "[" + d + "]", i)
    ensures ReadMove(p, i) == ToItem(DigitsValue(d), i + |d| + 2)
  {
    hide *;
    IndexFits(d);
    IndexStands(p, i, d);
    IndexMove(p, i, i + 1 + |d|);
  }

  lemma IndexFits(d: string)
    requires Printable(At(d))
    ensures AllDigits(d) && DigitsValue(d) < U64_LIMIT && !IsWhitespace('[')
  {
  }

  lemma IndexMove(p: string, i: nat, j: nat)
    requires i + 1 < j < |p| && p[i] == '[' && p[i + 1] != '\'' && p[i + 1] != '\"' && !IsWhitespace('[')
    requires DigitsEnd(p, i + 1) == j && p[j] == ']' && AllDigits(p[i + 1..j]) && DigitsValue(p[i + 1..j]) < U64_LIMIT
    ensures ReadMove(p, i) == ToItem(DigitsValue(p[i + 1..j]), j + 1)
  {
    hide IsWhitespace, KeyEnd, QuoteEnd, DigitsEnd, Trim, AllDigits, DigitsValue;
  }

  lemma IndexStands(p: string, i: nat, d: string)
    requires Printable(At(d)) && OccursAt(p, "[" + d + "]", i)
    ensures var j := i + 1 + |d|;
            i + 1 < j < |p| && p[i] == '[' && p[i + 1] != '\'' && p[i + 1] != '\"' && DigitsEnd(p, i + 1) == j &&
            p[i + 1..j] == d && p[j] == ']'
  {
    hide OccursAt, DigitsValue;
    Parts(p, i, "[" + d, "]");
    Parts(p, i, "[", d);
    CharAt(p, i, '[');
    SameChars(p, i + 1, d);
    CharAt(p, i + 1 + |d|, ']');
    assert IsDigit(d[0]);
    DigitsFound(p, i + 1, i + 1 + |d|);
  }

  /** What a written step reads as. */
  function MoveOf(step: PathStep, next: nat): Move
    requires Printable(step)
  {
    match step
    case Gap(_) => Blank(next)
    case Dotted(k) => ToField(Trim(k), next)
    case Quoted(k, _) => ToField(Trim(k), next)
    case At(d) => ToItem(DigitsValue(d), next)
  }

  lemma StepReads(p: string, i: nat, step: PathStep)
    requires Printable(step) && OccursAt(p, PrintStep(step), i)
    requires step.Dotted? ==> StepEnds(p, i + |PrintStep(step)|)
    ensures i < |p| && ReadMove(p, i) == MoveOf(step, i + |PrintStep(step)|)
  {
    hide ReadMove, OccursAt, Printable, Trim, DigitsValue, AllDigits, StepEnds;
    match step
    case Gap(c) => GapReads(p, i, c);
    case Dotted(k) => DottedReads(p, i, k); TextInside(p, i, "." + k);
    case Quoted(k, q) => QuotedReads(p, i, k, q); TextInside(p, i, ['[', q] + k + [q, ']']);
    case At(d) => IndexReads(p, i, d); TextInside(p, i, "[" + d + "]");
  }

  lemma TextInside(p: string, i: nat, t: string)
    requires OccursAt(p, t, i) && t != ""
    ensures i < |p|
  {
  }

  lemma GapReads(p: string, i: nat, c: char)
    requires Printable(Gap(c)) && OccursAt(p, [c], i)
    ensures i < |p| && ReadMove(p, i) == Blank(i + 1)
  {
    CharAt(p, i, c);
    assert IsWhitespace(c);
    hide IsWhitespace, KeyEnd, QuoteEnd, DigitsEnd, Trim, DigitsValue;
  }

  lemma StepsStart(p: string, i: nat, steps: seq<PathStep>)
    requires OccursAt(p, PrintSteps(steps), i) && i + |PrintSteps(steps)| == |p| && (steps == [] || !steps[0].Gap?)
    ensures StepEnds(p, i)
  {
    if steps != [] { SameChars(p, i, PrintSteps(steps)); }
  }

  lemma AtHasDigits(step: PathStep)
    requires Printable(step) && step.At?
    ensures AllDigits(step.digits)
  {
  }

  lemma {:induction false} WalkFollows(v: Json, p: string, i: nat, steps: seq<PathStep>)
    requires PrintableAll(steps) && OccursAt(p, PrintSteps(steps), i) && i + |PrintSteps(steps)| == |p|
    ensures Walk(v, p, i) == Follow(v, steps)
    decreases |steps|
  {
    hide ReadMove, PrintStep, Printable, OccursAt, Trim;
    if steps != [] {
      var head, rest := PrintStep(steps[0]), PrintSteps(steps[1..]);
      Parts(p, i, head, rest);
      if steps[0].Dotted? { StepsStart(p, i + |head|, steps[1..]); }
      StepReads(p, i, steps[0]);
      if steps[0].At? { AtHasDigits(steps[0]); }
      forall w: Json { WalkFollows(w, p, i + |head|, steps[1..]); }
    }
  }

  /** Extracting along a written path is following its steps, also where that leads nowhere. */
  lemma PrintedPathExtracts(root: Json, steps: seq<PathStep>)
    requires PrintableAll(steps)
    ensures Extract(root, "$" + PrintSteps(steps)) == Follow(root, steps)
  {
    hide PrintSteps, Walk, Follow, PrintableAll;
    var p := "$" + PrintSteps(steps);
    assert p[1..1 + |PrintSteps(steps)|] == PrintSteps(steps);
    WalkFollows(root, p, 1, steps);
  }

  // ----- nothing else is a path -----

  lemma {:induction false} KeyChars(p: string, i: nat)
    requires i <= |p|
    ensures var j := KeyEnd(p, i); (forall k :: i <= k < j ==> p[k] != '.' && p[k] != '[') && StepEnds(p, j)
    decreases |p| - i
  {
    if i < |p| && p[i] != '.' && p[i] != '[' { KeyChars(p, i + 1); }
  }

  lemma {:induction false} QuotedChars(p: string, i: nat, quote: char)
    requires i <= |p|
    ensures var j := QuoteEnd(p, i, quote); (forall k :: i <= k < j ==> p[k] != quote) && (j < |p| ==> p[j] == quote)
    decreases |p| - i
  {
    if i < |p| && p[i] != quote { QuotedChars(p, i + 1, quote); }
  }

  /** `step` is what stands at `i` and was read as `m`. */
  ghost predicate ReadFrom(p: string, i: nat, m: Move, step: PathStep) {
    !m.Bad? && i < m.next <= |p| && Printable(step) && p[i..m.next] == PrintStep(step) && m == MoveOf(step, m.next) &&
    (step.Dotted? ==> StepEnds(p, m.next)) && (step.Gap? ==> !StepEnds(p, i))
  }

  lemma DottedEnds(p: string, i: nat, j: nat)
    requires i < |p| && p[i] == '.' && !ReadMove(p, i).Bad? && !IsWhitespace('.') && j == KeyEnd(p, i + 1)
    ensures i + 1 < j <= |p| && ReadMove(p, i) == ToField(Trim(p[i + 1..j]), j)
  {
    hide IsWhitespace, KeyEnd, QuoteEnd, DigitsEnd, Trim, AllDigits, DigitsValue;
  }

  lemma DottedPrints(p: string, i: nat, j: nat)
    requires i < |p| && p[i] == '.' && j == KeyEnd(p, i + 1) && i + 1 < j <= |p|
    ensures Printable(Dotted(p[i + 1..j])) && StepEnds(p, j) && p[i..j] == "." + p[i + 1..j]
  {
    KeyChars(p, i + 1);
  }

  lemma DottedRead(p: string, i: nat, j: nat)
    requires i < |p| && p[i] == '.' && !ReadMove(p, i).Bad? && !IsWhitespace('.') && j == KeyEnd(p, i + 1)
    ensures i + 1 < j <= |p| && ReadFrom(p, i, ReadMove(p, i), Dotted(p[i + 1..j]))
  {
    hide ReadMove, Printable, StepEnds, KeyEnd, Trim, DigitsValue, IsWhitespace;
    DottedEnds(p, i, j);
    DottedPrints(p, i, j);
  }

  lemma QuotedEnds(p: string, i: nat, j: nat)
    requires i + 1 < |p| && p[i] == '[' && (p[i + 1] == '\'' || p[i + 1] == '\"') && !ReadMove(p, i).Bad? && !IsWhitespace('[')
    requires j == QuoteEnd(p, i + 2, p[i + 1])
    ensures i + 2 <= j && j + 1 < |p| && p[j + 1] == ']' && ReadMove(p, i) == ToField(Trim(p[i + 2..j]), j + 2)
  {
    hide IsWhitespace, KeyEnd, QuoteEnd, DigitsEnd, Trim, AllDigits, DigitsValue;
  }

  lemma QuotedRead(p: string, i: nat, j: nat)
    requires i + 1 < |p| && p[i] == '[' && (p[i + 1] == '\'' || p[i + 1] == '\"') && !ReadMove(p, i).Bad? && !IsWhitespace('[')
    requires j == QuoteEnd(p, i + 2, p[i + 1])
    ensures i + 2 <= j < |p| && ReadFrom(p, i, ReadMove(p, i), Quoted(p[i + 2..j], p[i + 1]))
  {
    hide *;
    QuotedEnds(p, i, j);
    QuotedPrints(p, i, j);
    QuotedSlice(p, i, j);
    QuotedIs(p, i, j, p[i + 2..j], p[i + 1]);
  }

  lemma QuotedIs(p: string, i: nat, j: nat, k: string, q: char)
    requires i + 2 <= j && j + 1 < |p| && ReadMove(p, i) == ToField(Trim(k), j + 2) && Printable(Quoted(k, q))
    requires p[i..j + 2] == ['[', q] + k + [q, ']']
    ensures ReadFrom(p, i, ReadMove(p, i), Quoted(k, q))
  {
    hide ReadMove, Printable, StepEnds, Trim, DigitsValue;
  }

  lemma QuotedPrints(p: string, i: nat, j: nat)
    requires i + 1 < |p| && (p[i + 1] == '\'' || p[i + 1] == '\"') && j == QuoteEnd(p, i + 2, p[i + 1]) && i + 2 <= j < |p|
    ensures Printable(Quoted(p[i + 2..j], p[i + 1])) && p[j] == p[i + 1]
  {
    QuotedChars(p, i + 2, p[i + 1]);
  }

  lemma QuotedSlice(p: string, i: nat, j: nat)
    requires i + 2 <= j && j + 1 < |p|
    requires p[i] == '[' && p[j] == p[i + 1] && p[j + 1] == ']'
    ensures p[i..j + 2] == ['[', p[i + 1]] + p[i + 2..j] + [p[i + 1], ']']
  {
  }

  lemma IndexEnds(p: string, i: nat, j: nat)
    requires i + 1 < |p| && p[i] == '[' && p[i + 1] != '\'' && p[i + 1] != '\"' && !ReadMove(p, i).Bad? && !IsWhitespace('[')
    requires j == DigitsEnd(p, i + 1)
    ensures i + 1 < j < |p| && p[j] == ']' && AllDigits(p[i + 1..j]) && DigitsValue(p[i + 1..j]) < U64_LIMIT
    ensures ReadMove(p, i) == ToItem(DigitsValue(p[i + 1..j]), j + 1)
  {
    hide IsWhitespace, KeyEnd, QuoteEnd, DigitsEnd, Trim, AllDigits, DigitsValue;
  }

  lemma IndexRead(p: string, i: nat, j: nat)
    requires i + 1 < |p| && p[i] == '[' && p[i + 1] != '\'' && p[i + 1] != '\"' && !ReadMove(p, i).Bad? && !IsWhitespace('[')
    requires j == DigitsEnd(p, i + 1)
    ensures i + 1 < j < |p| && ReadFrom(p, i, ReadMove(p, i), At(p[i + 1..j]))
  {
    IndexEnds(p, i, j);
    hide ReadMove, StepEnds, Trim, DigitsValue, AllDigits, DigitsEnd, IsWhitespace;
    IndexSlice(p, i, j);
  }

  lemma IndexSlice(p: string, i: nat, j: nat)
    requires i + 1 < j < |p| && p[i] == '[' && p[j] == ']'
    ensures p[i..j + 1] == "[" + p[i + 1..j] + "]"
  {
  }

  /** A step that is read was written as one. */
  lemma MoveIsStep(p: string, i: nat) returns (step: PathStep)
    requires i < |p| && !ReadMove(p, i).Bad?
    ensures ReadFrom(p, i, ReadMove(p, i), step)
  {
    if IsWhitespace(p[i]) {
      step := Gap(p[i]);
    } else if p[i] == '.' {
      DottedRead(p, i, KeyEnd(p, i + 1));
      step := Dotted(p[i + 1..KeyEnd(p, i + 1)]);
    } else if p[i + 1] == '\'' || p[i + 1] == '\"' {
      QuotedRead(p, i, QuoteEnd(p, i + 2, p[i + 1]));
      step := Quoted(p[i + 2..QuoteEnd(p, i + 2, p[i + 1])], p[i + 1]);
    } else {
      IndexRead(p, i, DigitsEnd(p, i + 1));
      step := At(p[i + 1..DigitsEnd(p, i + 1)]);
    }
  }

  lemma {:induction false} WalkedIsPrinted(v: Json, p: string, i: nat) returns (steps: seq<PathStep>)
    requires i <= |p| && Walk(v, p, i).Some?
    ensures PrintableAll(steps) && p[i..] == PrintSteps(steps) && (StepEnds(p, i) ==> steps == [] || !steps[0].Gap?)
    decreases |p| - i
  {
    hide ReadMove, Printable, PrintStep, StepEnds;
    if i == |p| {
      steps := [];
    } else {
      var m := ReadMove(p, i);
      var w := match m { case Blank(_) => v case ToField(k, _) => Field(v, k).value case ToItem(n, _) => Item(v, n).value };
      var step := MoveIsStep(p, i);
      var rest := WalkedIsPrinted(w, p, m.next);
      steps := [step] + rest;
      assert steps[1..] == rest;
      assert p[i..] == p[i..m.next] + p[m.next..];
    }
  }

  /** A value is found only along a text that writes steps. */
  lemma OnlyPathsExtract(root: Json, path: string)
    ensures Extract(root, path).Some? ==> exists steps :: PrintableAll(steps) && path == "$" + PrintSteps(steps)
  {
    hide PrintableAll, PrintSteps, Walk;
    if Extract(root, path).Some? {
      var steps := WalkedIsPrinted(root, path, 1);
      assert path == [path[0]] + path[1..];
    }
  }
}
