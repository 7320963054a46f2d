// Token accounting: usage objects in JSON payloads, and the running maxima kept for a stream.
module TokenUsage {
  import opened Text
  import opened Json

  datatype Usage = Usage(input: nat, output: nat, cacheRead: nat, cacheWrite: nat)

  const NO_USAGE := Usage(0, 0, 0, 0)

  // ----- reading one field group -----

  function Present(v: Option<nat>): seq<nat> { if v.Some? then [v.value] else [] }

  /** The u64 values found for one field name, in the order they are looked at. */
  function FieldValues(obj: Json, field: string): seq<nat> {
    Present(AsU64(Field(obj, field))) +
    Present(AsU64(FieldOf(Field(obj, "input_tokens_details"), field))) +
    Present(AsU64(FieldOf(Field(obj, "prompt_tokens_details"), field)))
  }

  function Candidates(obj: Json, fields: seq<string>): seq<nat> {
    if fields == [] then [] else FieldValues(obj, fields[0]) + Candidates(obj, fields[1..])
  }

  function FirstPositive(values: seq<nat>): nat {
    if values == [] then 0 else if values[0] > 0 then values[0] else FirstPositive(values[1..])
  }

  lemma {:induction false} FirstPositiveAppend(a: seq<nat>, b: seq<nat>)
    ensures FirstPositive(a + b) == if FirstPositive(a) > 0 then FirstPositive(a) else FirstPositive(b)
  {
    if a == [] {
      assert a + b == b;
    } else {
      assert (a + b)[1..] == a[1..] + b;
      FirstPositiveAppend(a[1..], b);
    }
  }

  lemma FirstOfField(a: Option<nat>, b: Option<nat>, c: Option<nat>, more: seq<nat>)
    ensures FirstPositive(Present(a) + Present(b) + Present(c) + more) ==
            if a.Some? && a.value > 0 then a.value
            else if b.Some? && b.value > 0 then b.value
            else if c.Some? && c.value > 0 then c.value
            else FirstPositive(more)
  {
    FirstPositiveAppend(Present(a) + Present(b) + Present(c), more);
    FirstPositiveAppend(Present(a) + Present(b), Present(c));
    FirstPositiveAppend(Present(a), Present(b));
  }

  /** The loop remembers the first value seen as a fallback, but can only fall back on it when every
      candidate is zero: the result is the first positive candidate, or 0. */
  method FirstU64(obj: Json, fields: seq<string>) returns (r: nat)
    ensures r == FirstPositive(Candidates(obj, fields))
  {
    var fallback: Option<nat> := None;
    var i := 0;
    while i < |fields|
      invariant 0 <= i <= |fields|
      invariant fallback.None? || fallback.value == 0
      invariant FirstPositive(Candidates(obj, fields)) == FirstPositive(Candidates(obj, fields[i..]))
    {
      var direct := AsU64(Field(obj, fields[i]));
      var inInput := AsU64(FieldOf(Field(obj, "input_tokens_details"), fields[i]));
      var inPrompt := AsU64(FieldOf(Field(obj, "prompt_tokens_details"), fields[i]));
      FirstOfField(direct, inInput, inPrompt, Candidates(obj, fields[i + 1..]));
      assert fields[i..][1..] == fields[i + 1..];
      if direct.Some? {
        if fallback.None? { fallback := direct; }
        if direct.value > 0 { return direct.value; }
      }
      if inInput.Some? {
        if fallback.None? { fallback := inInput; }
        if inInput.value > 0 { return inInput.value; }
      }
      if inPrompt.Some? {
        if fallback.None? { fallback := inPrompt; }
        if inPrompt.value > 0 { return inPrompt.value; }
      }
      i := i + 1;
    }
    r := if fallback.Some? then fallback.value else 0;
  }

  // ----- one payload -----

  const INPUT_FIELDS := ["input_tokens", "prompt_tokens", "inputTokens", "promptTokens"]
  const OUTPUT_FIELDS := ["output_tokens", "completion_tokens", "outputTokens", "completionTokens"]
  const CACHE_READ_FIELDS :=
    ["cache_read_input_tokens", "cache_read_tokens", "prompt_cache_hit_tokens", "cached_tokens"]
  const CACHE_WRITE_FIELDS :=
    ["cache_creation_input_tokens", "cache_write_input_tokens", "prompt_cache_miss_tokens", "cache_creation_tokens"]

  function UsageObject(payload: Json): Option<Json> {
    OrElse(Field(payload, "usage"),
    OrElse(FieldOf(Field(payload, "response"), "usage"),
    OrElse(FieldOf(Field(payload, "message"), "usage"),
           FieldOf(Field(payload, "delta"), "usage"))))
  }

  predicate OpenAiStyle(usage: Json) {
    AsU64(FieldOf(OrElse(Field(usage, "input_tokens_details"), Field(usage, "prompt_tokens_details")),
                  "cached_tokens")).Some? ||
    AsU64(Field(usage, "prompt_tokens")).Some? || AsU64(Field(usage, "completion_tokens")).Some?
  }

  /** OpenAI counts cached tokens inside the input; the app counts them apart, as Anthropic does. */
  function NormalizeInputTokens(usage: Json, raw: nat, cacheRead: nat): (r: nat)
    ensures OpenAiStyle(usage) && cacheRead <= raw ==> r + cacheRead == raw
    ensures !OpenAiStyle(usage) || raw < cacheRead ==> r == raw
  {
    if OpenAiStyle(usage) && raw >= cacheRead then raw - cacheRead else raw
  }

  function ExtractTokenUsage(payload: Json): (r: Option<Usage>) {
    var u := UsageObject(payload);
    if u.None? then None
    else
      var cacheRead := FirstPositive(Candidates(u.value, CACHE_READ_FIELDS));
      var input :=
        NormalizeInputTokens(u.value, FirstPositive(Candidates(u.value, INPUT_FIELDS)), cacheRead);
      var usage := Usage(
        input,
        FirstPositive(Candidates(u.value, OUTPUT_FIELDS)),
        cacheRead,
        FirstPositive(Candidates(u.value, CACHE_WRITE_FIELDS)));
      if usage == NO_USAGE then None else Some(usage)
  }

  // ----- the same, told from the paths of a payload -----

  /** What a path of keys leads to. */
  ghost function ValueAt(v: Json, path: seq<string>): Option<Json>
    decreases |path|
  {
    if path == [] then Some(v)
    else if v.Obj? && path[0] in v.fields then ValueAt(v.fields[path[0]], path[1..])
    else None
  }

  /** An unsigned 64-bit number stands at the path. */
  ghost predicate Counted(v: Json, path: seq<string>) {
    var x := ValueAt(v, path);
    x.Some? && x.value.Int? && 0 <= x.value.n < 0x1_0000_0000_0000_0000
  }

  ghost function CountAt(v: Json, path: seq<string>): nat {
    if Counted(v, path) then ValueAt(v, path).value.n else 0
  }

  ghost function UsagePlace(k: nat): seq<string> {
    if k == 0 then ["usage"]
    else if k == 1 then ["response", "usage"]
    else if k == 2 then ["message", "usage"]
    else ["delta", "usage"]
  }

  /** A field is looked up in the usage object, then in its two objects of details. */
  ghost function FieldPlace(field: string, k: nat): seq<string> {
    if k == 0 then [field] else if k == 1 then ["input_tokens_details", field] else ["prompt_tokens_details", field]
  }

  /** `r` stands at the first of the four places that has anything. */
  ghost predicate UsageFound(payload: Json, r: Option<Json>) {
    if r.None? then forall k :: 0 <= k < 4 ==> ValueAt(payload, UsagePlace(k)).None?
    else exists k :: 0 <= k < 4 && ValueAt(payload, UsagePlace(k)) == r &&
                     forall j :: 0 <= j < k ==> ValueAt(payload, UsagePlace(j)).None?
  }

  /** The count of field `i` at place `k` is positive, and everything looked up before is not. */
  ghost predicate FirstPositiveAt(usage: Json, fields: seq<string>, i: int, k: int) {
    0 <= i < |fields| && 0 <= k < 3 && CountAt(usage, FieldPlace(fields[i], k)) > 0 &&
    forall j, l :: 0 <= j < |fields| && 0 <= l < 3 && (j < i || (j == i && l < k)) ==>
      CountAt(usage, FieldPlace(fields[j], l)) == 0
  }

  /** `v` is the first positive count of the fields, or 0 when there is none. */
  ghost predicate FirstCount(usage: Json, fields: seq<string>, v: nat) {
    if v == 0 then
      forall i, k :: 0 <= i < |fields| && 0 <= k < 3 ==> CountAt(usage, FieldPlace(fields[i], k)) == 0
    else
      exists i, k :: FirstPositiveAt(usage, fields, i, k) && CountAt(usage, FieldPlace(fields[i], k)) == v
  }

  /** The usage counts in OpenAI style: cached tokens among the details, or prompt or completion tokens. */
  ghost predicate CachedInInput(usage: Json) {
    var details :=
      if ValueAt(usage, ["input_tokens_details"]).Some? then "input_tokens_details" else "prompt_tokens_details";
    Counted(usage, [details, "cached_tokens"]) || Counted(usage, ["prompt_tokens"]) || Counted(usage, ["completion_tokens"])
  }

  lemma OneKey(v: Json, key: string)
    ensures ValueAt(v, [key]) == Field(v, key)
  {
    if v.Obj? && key in v.fields { assert ValueAt(v.fields[key], [key][1..]) == Some(v.fields[key]); }
  }

  lemma TwoKeys(v: Json, key: string, next: string)
    ensures ValueAt(v, [key, next]) == FieldOf(Field(v, key), next)
  {
    assert [key, next][1..] == [next];
    if v.Obj? && key in v.fields { OneKey(v.fields[key], next); }
  }

  lemma UsageObjectIs(payload: Json)
    ensures UsageFound(payload, UsageObject(payload))
  {
    hide ValueAt, Field, FieldOf;
    OneKey(payload, "usage");
    TwoKeys(payload, "response", "usage");
    TwoKeys(payload, "message", "usage");
    TwoKeys(payload, "delta", "usage");
    assert UsagePlace(0) == ["usage"] && UsagePlace(1) == ["response", "usage"];
    assert UsagePlace(2) == ["message", "usage"] && UsagePlace(3) == ["delta", "usage"];
  }

  lemma CountsOfField(usage: Json, field: string)
    ensures var a, b, c := CountAt(usage, FieldPlace(field, 0)), CountAt(usage, FieldPlace(field, 1)),
                           CountAt(usage, FieldPlace(field, 2));
            forall more :: FirstPositive(FieldValues(usage, field) + more) ==
              if a > 0 then a else if b > 0 then b else if c > 0 then c else FirstPositive(more)
  {
    OneKey(usage, field);
    TwoKeys(usage, "input_tokens_details", field);
    TwoKeys(usage, "prompt_tokens_details", field);
    hide ValueAt, FirstPositive, Field, FieldOf, Present;
    forall more ensures var a, b, c := CountAt(usage, FieldPlace(field, 0)), CountAt(usage, FieldPlace(field, 1)),
                           CountAt(usage, FieldPlace(field, 2));
      FirstPositive(FieldValues(usage, field) + more) ==
        if a > 0 then a else if b > 0 then b else if c > 0 then c else FirstPositive(more)
    {
      FirstOfField(AsU64(Field(usage, field)), AsU64(FieldOf(Field(usage, "input_tokens_details"), field)),
                   AsU64(FieldOf(Field(usage, "prompt_tokens_details"), field)), more);
    }
  }

  lemma CountFound(usage: Json, fields: seq<string>, i: int, k: int)
    requires FirstPositiveAt(usage, fields, i, k)
    ensures FirstCount(usage, fields, CountAt(usage, FieldPlace(fields[i], k)))
  {
  }

  lemma CountFoundLater(usage: Json, fields: seq<string>, v: nat)
    requires fields != [] && FirstCount(usage, fields[1..], v)
    requires forall k :: 0 <= k < 3 ==> CountAt(usage, FieldPlace(fields[0], k)) == 0
    ensures FirstCount(usage, fields, v)
  {
    hide CountAt, FieldPlace;
    var rest := fields[1..];
    assert forall i :: 0 < i < |fields| ==> fields[i] == rest[i - 1];
    if v > 0 {
      var i, k :| FirstPositiveAt(usage, rest, i, k) && CountAt(usage, FieldPlace(rest[i], k)) == v;
      assert FirstPositiveAt(usage, fields, i + 1, k);
    }
  }

  lemma {:induction false} CandidatesCount(usage: Json, fields: seq<string>)
    ensures FirstCount(usage, fields, FirstPositive(Candidates(usage, fields)))
  {
    hide CountAt, FieldPlace, FieldValues, FirstPositive, FirstCount;
    if fields == [] {
      NothingCounted(usage);
    } else {
      CandidatesCount(usage, fields[1..]);
      CountsOfField(usage, fields[0]);
      if k :| 0 <= k < 3 && CountAt(usage, FieldPlace(fields[0], k)) > 0 &&
              forall l :: 0 <= l < k ==> CountAt(usage, FieldPlace(fields[0], l)) == 0 {
        CountFound(usage, fields, 0, k);
      } else {
        CountFoundLater(usage, fields, FirstPositive(Candidates(usage, fields[1..])));
      }
    }
  }

  lemma NothingCounted(usage: Json)
    ensures FirstPositive(Candidates(usage, [])) == 0 && FirstCount(usage, [], 0)
  {
  }

  lemma StyleIs(usage: Json)
    ensures OpenAiStyle(usage) <==> CachedInInput(usage)
  {
    OneKey(usage, "input_tokens_details");
    OneKey(usage, "prompt_tokens");
    OneKey(usage, "completion_tokens");
    TwoKeys(usage, "input_tokens_details", "cached_tokens");
    TwoKeys(usage, "prompt_tokens_details", "cached_tokens");
    hide ValueAt;
  }

  /** What is reported for a payload whose usage object is `usage`, `raw` being its input tokens as given. */
  ghost predicate CountersOf(usage: Json, raw: nat, r: Usage) {
    FirstCount(usage, ["input_tokens", "prompt_tokens", "inputTokens", "promptTokens"], raw) &&
    FirstCount(usage, ["output_tokens", "completion_tokens", "outputTokens", "completionTokens"], r.output) &&
    FirstCount(usage, ["cache_read_input_tokens", "cache_read_tokens", "prompt_cache_hit_tokens", "cached_tokens"],
               r.cacheRead) &&
    FirstCount(usage, ["cache_creation_input_tokens", "cache_write_input_tokens", "prompt_cache_miss_tokens",
                       "cache_creation_tokens"], r.cacheWrite) &&
    if CachedInInput(usage) && r.cacheRead <= raw then r.input + r.cacheRead == raw else r.input == raw
  }

  /** Every counter of a reported usage is the first positive count of its fields, the input less the
      cached tokens in OpenAI style. Nothing is reported exactly when there is no usage object or all
      four counters are zero. */
  lemma ExtractedCounters(payload: Json) returns (usage: Option<Json>, raw: nat)
    ensures UsageFound(payload, usage)
    ensures var r := ExtractTokenUsage(payload);
            if usage.None? then r.None?
            else if r.None? then CountersOf(usage.value, raw, NO_USAGE)
            else r.value != NO_USAGE && CountersOf(usage.value, raw, r.value)
  {
    hide Candidates, FirstPositive, FirstCount, UsageObject, OpenAiStyle, CachedInInput, UsageFound;
    UsageObjectIs(payload);
    usage, raw := UsageObject(payload), 0;
    if usage.Some? {
      raw := FirstPositive(Candidates(usage.value, INPUT_FIELDS));
      CandidatesCount(usage.value, INPUT_FIELDS);
      CandidatesCount(usage.value, OUTPUT_FIELDS);
      CandidatesCount(usage.value, CACHE_READ_FIELDS);
      CandidatesCount(usage.value, CACHE_WRITE_FIELDS);
      StyleIs(usage.value);
    }
  }

  // ----- lines of a stream -----

  datatype Lines = Lines(complete: seq<string>, rest: string)

  /** Index of the first newline at or after `from`, or the length. */
  function NewlineIndex(s: string, from: nat): (i: nat)
    requires from <= |s|
    ensures from <= i <= |s| && (i < |s| ==> s[i] == '\n')
    decreases |s| - from
  {
    if from == |s| || s[from] == '\n' then from else NewlineIndex(s, from + 1)
  }

  function StripCr(line: string): string {
    if line != [] && line[|line| - 1] == '\r' then line[..|line| - 1] else line
  }

  /** The newline-terminated lines of a text, and what follows the last newline. */
  function SplitLines(s: string): Lines
    decreases |s|
  {
    var i := NewlineIndex(s, 0);
    if i == |s| then Lines([], s)
    else
      var rest := SplitLines(s[i + 1..]);
      Lines([s[..i]] + rest.complete, rest.rest)
  }

  lemma {:induction false} NewlineIsPrefixStable(a: string, b: string, from: nat)
    requires from <= |a| && NewlineIndex(a, from) < |a|
    ensures NewlineIndex(a + b, from) == NewlineIndex(a, from)
    decreases |a| - from
  {
    if a[from] != '\n' { NewlineIsPrefixStable(a, b, from + 1); }
  }

  lemma SplitLinesAt(s: string, i: nat)
    requires i < |s| && NewlineIndex(s, 0) == i
    ensures var rest := SplitLines(s[i + 1..]); SplitLines(s) == Lines([s[..i]] + rest.complete, rest.rest)
  {
  }

  lemma NoLineYet(a: string)
    requires NewlineIndex(a, 0) == |a|
    ensures SplitLines(a) == Lines([], a)
  {
  }

  /** Like event framing, line splitting can be resumed behind the unterminated rest. */
  lemma {:induction false} SplitLinesResumes(a: string, b: string)
    ensures var first := SplitLines(a); var second := SplitLines(first.rest + b);
            SplitLines(a + b) == Lines(first.complete + second.complete, second.rest)
    decreases |a|
  {
    hide SplitLines, NewlineIndex;
    var i := NewlineIndex(a, 0);
    if i == |a| {
      NoLineYet(a);
      assert [] + SplitLines(a + b).complete == SplitLines(a + b).complete;
    } else {
      NewlineIsPrefixStable(a, b, 0);
      SplitLinesAt(a, i);
      SplitLinesAt(a + b, i);
      assert (a + b)[..i] == a[..i] && (a + b)[i + 1..] == a[i + 1..] + b;
      SplitLinesResumes(a[i + 1..], b);
      var first := SplitLines(a[i + 1..]);
      var second := SplitLines(first.rest + b);
      assert [a[..i]] + (first.complete + second.complete) == [a[..i]] + first.complete + second.complete;
    }
  }

  predicate NoNewline(s: string) { forall i :: 0 <= i < |s| ==> s[i] != '\n' }

  /** The text breaks off here: nothing yet, or a newline comes last. */
  predicate LineStarts(before: string) { before == "" || before[|before| - 1] == '\n' }

  ghost predicate LineBetween(s: string, before: string, line: string, after: string) {
    LineStarts(before) && s == before + line + "\n" + after
  }

  /** `line` is one of the lines of `s` that a newline ends. */
  ghost predicate TerminatedLine(s: string, line: string) {
    NoNewline(line) && exists before, after :: LineBetween(s, before, line, after)
  }

  lemma {:induction false} NewlineIsFirst(s: string, from: nat)
    requires from <= |s|
    ensures NoNewline(s[from..NewlineIndex(s, from)])
    decreases |s| - from
  {
    if from < |s| && s[from] != '\n' {
      NewlineIsFirst(s, from + 1);
      assert s[from..NewlineIndex(s, from)] == [s[from]] + s[from + 1..NewlineIndex(s, from)];
    }
  }

  /** The line ends at the first newline, or lies behind it. */
  lemma FirstOrLater(s: string, i: nat, before: string, line: string, after: string)
    requires i < |s| && s[i] == '\n' && NoNewline(s[..i]) && NoNewline(line) && LineBetween(s, before, line, after)
    ensures if before == "" then line == s[..i]
            else i < |before| && LineBetween(s[i + 1..], before[i + 1..], line, after)
  {
    var n := |before| + |line|;
    assert s[n] == '\n';
    assert forall k :: 0 <= k < i ==> s[k] == s[..i][k];
    if before == "" {
      assert forall k :: 0 <= k < n ==> s[k] == line[k];
    } else {
      assert s[|before| - 1] == before[|before| - 1];
      assert before[i + 1..] + line + "\n" + after == s[i + 1..];
    }
  }

  lemma LineIsFirst(s: string, i: nat)
    requires i < |s| && s[i] == '\n'
    ensures LineBetween(s, "", s[..i], s[i + 1..])
  {
    assert s == "" + s[..i] + "\n" + s[i + 1..];
  }

  lemma LineIsLater(s: string, i: nat, before: string, line: string, after: string)
    requires i < |s| && s[i] == '\n' && LineBetween(s[i + 1..], before, line, after)
    ensures LineBetween(s, s[..i] + "\n" + before, line, after)
  {
    assert s == s[..i] + "\n" + s[i + 1..];
    assert (s[..i] + "\n" + before) + line + "\n" + after == s[..i] + "\n" + (before + line + "\n" + after);
  }

  lemma NoTerminatedLine(s: string, line: string)
    requires NoNewline(s)
    ensures !TerminatedLine(s, line)
  {
    forall before, after ensures !LineBetween(s, before, line, after) {
      assert (before + line + "\n" + after)[|before| + |line|] == '\n';
    }
  }

  lemma TerminatedInside(s: string, i: nat, line: string)
    requires i < |s| && s[i] == '\n' && NoNewline(s[..i])
    ensures TerminatedLine(s, line) <==> line == s[..i] || TerminatedLine(s[i + 1..], line)
  {
    hide LineBetween;
    LineIsFirst(s, i);
    if TerminatedLine(s[i + 1..], line) {
      var before, after :| LineBetween(s[i + 1..], before, line, after);
      LineIsLater(s, i, before, line, after);
    }
    if TerminatedLine(s, line) {
      var before, after :| LineBetween(s, before, line, after);
      FirstOrLater(s, i, before, line, after);
    }
  }

  /** The complete lines of the split are exactly the lines that a newline ends. */
  lemma {:induction false} LinesAre(s: string, line: string)
    ensures line in SplitLines(s).complete <==> TerminatedLine(s, line)
    decreases |s|
  {
    hide SplitLines, TerminatedLine, NoNewline;
    var i := NewlineIndex(s, 0);
    NewlineIsFirst(s, 0);
    assert s[0..i] == s[..i];
    if i == |s| {
      assert s[..i] == s;
      NoLineYet(s);
      NoTerminatedLine(s, line);
    } else {
      SplitLinesAt(s, i);
      LinesAre(s[i + 1..], line);
      TerminatedInside(s, i, line);
    }
  }

  lemma LaterStarts(line: string, before: string)
    requires LineStarts(before)
    ensures LineStarts(line + "\n" + before)
  {
  }

  /** The rest is what follows the last newline. */
  lemma {:induction false} RestIs(s: string) returns (before: string)
    ensures LineStarts(before) && NoNewline(SplitLines(s).rest) && s == before + SplitLines(s).rest
    decreases |s|
  {
    hide SplitLines, NoNewline;
    var i := NewlineIndex(s, 0);
    NewlineIsFirst(s, 0);
    assert s[0..i] == s[..i];
    if i == |s| {
      assert s[..i] == s;
      NoLineYet(s);
      before := "";
    } else {
      SplitLinesAt(s, i);
      var later := RestIs(s[i + 1..]);
      LaterStarts(s[..i], later);
      before := s[..i] + "\n" + later;
    }
  }

  /** What one line contributes. `parse` is the JSON parser. */
  function LineUsage(parse: string -> Option<Json>, line: string): Usage {
    if !StartsWith(line, "data:") then NO_USAGE
    else
      var payload := TrimStart(line[5..]);
      if payload == [] || payload == "[DONE]" then NO_USAGE
      else
        var v := parse(payload);
        if v.None? then NO_USAGE
        else
          var u := ExtractTokenUsage(v.value);
          if u.Some? then u.value else NO_USAGE
  }

  /** A data line with payload `text`, which starts behind the blanks. */
  ghost predicate DataLine(line: string, text: string) {
    text != "" && !IsWhitespace(text[0]) && exists blanks :: AllBlank(blanks) && line == "data:" + blanks + text
  }

  /** A line reports `u`: its payload is parsed and holds that usage. */
  ghost predicate Reports(parse: string -> Option<Json>, line: string, u: Usage) {
    exists text :: DataLine(line, text) && text != "[DONE]" && parse(text).Some? &&
                   ExtractTokenUsage(parse(text).value) == Some(u)
  }

  /** `line` is how `raw` is read: one carriage return at its end is not part of it. */
  ghost predicate ReadAs(raw: string, line: string) {
    raw == line + "\r" || (raw == line && (raw == "" || raw[|raw| - 1] != '\r'))
  }

  lemma StrippedIsRead(raw: string, line: string)
    ensures ReadAs(raw, line) <==> line == StripCr(raw)
  {
    if raw != "" && raw[|raw| - 1] == '\r' { assert raw == raw[..|raw| - 1] + "\r"; }
  }

  lemma PayloadIs(line: string, text: string)
    ensures DataLine(line, text) <==> StartsWith(line, "data:") && (var rest := line[5..]; TrimStart(rest) == text) && text != ""
  {
    if StartsWith(line, "data:") {
      var rest := line[5..];
      TrimStartIs(rest, text);
      assert line == "data:" + rest;
      forall blanks ensures line == "data:" + blanks + text <==> rest == blanks + text {
        assert "data:" + blanks + text == "data:" + (blanks + text);
        assert ("data:" + blanks + text)[5..] == blanks + text;
      }
    } else {
      forall blanks ensures line != "data:" + blanks + text { assert StartsWith("data:" + blanks + text, "data:"); }
    }
  }

  /** What a line contributes is what it reports, and nothing when it reports nothing. */
  lemma ContributionIs(parse: string -> Option<Json>, line: string)
    ensures forall u :: Reports(parse, line, u) ==> LineUsage(parse, line) == u
    ensures (forall u :: !Reports(parse, line, u)) ==> LineUsage(parse, line) == NO_USAGE
  {
    hide DataLine, ExtractTokenUsage, TrimStart;
    forall text ensures DataLine(line, text) <==> StartsWith(line, "data:") && TrimStart(line[5..]) == text && text != "" {
      PayloadIs(line, text);
    }
    var u := LineUsage(parse, line);
    if u != NO_USAGE {
      assert DataLine(line, TrimStart(line[5..]));
      assert Reports(parse, line, u);
    }
  }

  function Max(a: nat, b: nat): nat { if a < b then b else a }

  function Join(a: Usage, b: Usage): Usage {
    Usage(Max(a.input, b.input), Max(a.output, b.output),
          Max(a.cacheRead, b.cacheRead), Max(a.cacheWrite, b.cacheWrite))
  }

  function JoinLines(parse: string -> Option<Json>, start: Usage, lines: seq<string>): Usage
    decreases |lines|
  {
    if lines == [] then start
    else JoinLines(parse, Join(start, LineUsage(parse, StripCr(lines[0]))), lines[1..])
  }

  lemma {:induction false} JoinLinesAppend(
    parse: string -> Option<Json>, start: Usage, a: seq<string>, b: seq<string>)
    ensures JoinLines(parse, start, a + b) == JoinLines(parse, JoinLines(parse, start, a), b)
    decreases |a|
  {
    if a == [] {
      assert a + b == b;
    } else {
      assert (a + b)[1..] == a[1..] + b;
      JoinLinesAppend(parse, Join(start, LineUsage(parse, StripCr(a[0]))), a[1..], b);
    }
  }

  class StreamTokenAccumulator {
    const parse: string -> Option<Json>
    var lineBuffer: string
    var counters: Usage

    constructor (parse: string -> Option<Json>)
      ensures lineBuffer == "" && counters == NO_USAGE && this.parse == parse
    {
      this.parse, this.lineBuffer, this.counters := parse, "", NO_USAGE;
    }

    method ConsumeLine(line: string)
      modifies this`counters
      ensures counters == Join(old(counters), LineUsage(parse, line))
      ensures forall u :: Reports(parse, line, u) ==> counters == Join(old(counters), u)
      ensures (forall u :: !Reports(parse, line, u)) ==> counters == old(counters)
    {
      ContributionIs(parse, line);
      hide Reports;
      if !StartsWith(line, "data:") { return; }
      var payload := TrimStart(line[5..]);
      if payload == [] || payload == "[DONE]" { return; }
      var parsed := parse(payload);
      if parsed.Some? {
        var usage := ExtractTokenUsage(parsed.value);
        if usage.Some? {
          counters := Join(counters, usage.value);
        }
      }
    }

    method ConsumeChunk(chunk: string)
      modifies this
      ensures var lines := SplitLines(old(lineBuffer) + chunk);
              lineBuffer == lines.rest && counters == JoinLines(parse, old(counters), lines.complete)
    {
      lineBuffer := lineBuffer + chunk;
      ghost var lines := SplitLines(lineBuffer);
      while true
        invariant SplitLines(lineBuffer).rest == lines.rest
        invariant JoinLines(parse, counters, SplitLines(lineBuffer).complete)
               == JoinLines(parse, old(counters), lines.complete)
        decreases |lineBuffer|
      {
        var i := NewlineIndex(lineBuffer, 0);
        if i == |lineBuffer| { return; }
        ConsumeLine(StripCr(lineBuffer[..i]));
        assert SplitLines(lineBuffer).complete[1..] == SplitLines(lineBuffer[i + 1..]).complete;
        lineBuffer := lineBuffer[i + 1..];
      }
    }

    method ConsumeAll(chunks: seq<string>)
      requires lineBuffer == "" && counters == NO_USAGE
      modifies this
      ensures lineBuffer == SplitLines(DecodedText(chunks)).rest
      ensures counters == JoinLines(parse, NO_USAGE, SplitLines(DecodedText(chunks)).complete)
      ensures forall bound :: AtMost(counters, bound) <==> Covers(parse, DecodedText(chunks), bound)
    {
      var i := 0;
      assert DecodedText(chunks[..0]) == "";
      while i < |chunks|
        invariant 0 <= i <= |chunks|
        invariant lineBuffer == SplitLines(DecodedText(chunks[..i])).rest
        invariant counters == JoinLines(parse, NO_USAGE, SplitLines(DecodedText(chunks[..i])).complete)
      {
        ghost var soFar := DecodedText(chunks[..i]);
        ghost var more := SplitLines(lineBuffer + chunks[i]).complete;
        SplitLinesResumes(soFar, chunks[i]);
        JoinLinesAppend(parse, NO_USAGE, SplitLines(soFar).complete, more);
        assert chunks[..i + 1][..i] == chunks[..i];
        ConsumeChunk(chunks[i]);
        i := i + 1;
      }
      assert chunks[..i] == chunks;
      forall bound ensures AtMost(counters, bound) <==> Covers(parse, DecodedText(chunks), bound) {
        CountersAreLeastUpperBound(parse, DecodedText(chunks), bound);
      }
    }
  }

  /** The decoded text of a stream. */
  function DecodedText(chunks: seq<string>): string {
    if chunks == [] then "" else DecodedText(chunks[..|chunks| - 1]) + chunks[|chunks| - 1]
  }

  ghost predicate AtMost(a: Usage, b: Usage) {
    a.input <= b.input && a.output <= b.output && a.cacheRead <= b.cacheRead && a.cacheWrite <= b.cacheWrite
  }

  /** `bound` covers what every complete line of the text reports. */
  ghost predicate Covers(parse: string -> Option<Json>, text: string, bound: Usage) {
    forall raw, line, u :: TerminatedLine(text, raw) && ReadAs(raw, line) && Reports(parse, line, u) ==> AtMost(u, bound)
  }

  lemma {:induction false} JoinIsLeast(
    parse: string -> Option<Json>, start: Usage, lines: seq<string>, bound: Usage)
    ensures AtMost(JoinLines(parse, start, lines), bound) <==>
            AtMost(start, bound) && forall i :: 0 <= i < |lines| ==> AtMost(LineUsage(parse, StripCr(lines[i])), bound)
    decreases |lines|
  {
    if lines != [] {
      var first := LineUsage(parse, StripCr(lines[0]));
      JoinIsLeast(parse, Join(start, first), lines[1..], bound);
      assert AtMost(Join(start, first), bound) <==> AtMost(start, bound) && AtMost(first, bound);
      assert forall i :: 0 < i < |lines| ==> lines[i] == lines[1..][i - 1];
    }
  }

  /** The counters are the least upper bound of what the newline-terminated data lines report: whatever
      covers them covers the counters, and nothing else does. */
  lemma CountersAreLeastUpperBound(parse: string -> Option<Json>, text: string, bound: Usage)
    ensures AtMost(JoinLines(parse, NO_USAGE, SplitLines(text).complete), bound) <==> Covers(parse, text, bound)
  {
    var lines := SplitLines(text).complete;
    JoinIsLeast(parse, NO_USAGE, lines, bound);
    hide SplitLines, TerminatedLine, Reports, ReadAs, StripCr, LineUsage;
    forall raw ensures raw in lines <==> TerminatedLine(text, raw) { LinesAre(text, raw); }
    forall raw, line ensures ReadAs(raw, line) <==> line == StripCr(raw) { StrippedIsRead(raw, line); }
    forall line
      ensures forall u :: Reports(parse, line, u) ==> LineUsage(parse, line) == u
      ensures (forall u :: !Reports(parse, line, u)) ==> LineUsage(parse, line) == NO_USAGE
    {
      ContributionIs(parse, line);
    }
    if Covers(parse, text, bound) {
      forall i | 0 <= i < |lines| ensures AtMost(LineUsage(parse, StripCr(lines[i])), bound) {
        assert ReadAs(lines[i], StripCr(lines[i])) && TerminatedLine(text, lines[i]);
      }
    }
  }
}
