// Aggregating request events over a time window. A GROUP BY query is one total per distinct key,
// returned in an order the database chooses.
module StatsWindow {
  import opened Text
  import opened Sequences

  datatype Event = Event(
    ts: int, hour: string, groupId: Option<string>, groupName: Option<string>, ruleId: Option<string>,
    protocol: Option<string>, model: Option<string>, forwardedModel: Option<string>, status: Option<nat>,
    errors: nat, input: nat, output: nat, cacheRead: nat, cacheWrite: nat, durationMs: nat, cost: Option<real>)

  datatype Totals = Totals(
    requests: nat, errors: nat, input: nat, output: nat, cacheRead: nat, cacheWrite: nat, durationMs: nat, cost: real)

  const NOTHING := Totals(0, 0, 0, 0, 0, 0, 0, 0.0)

  function Plus(a: Totals, b: Totals): Totals {
    Totals(a.requests + b.requests, a.errors + b.errors, a.input + b.input, a.output + b.output,
           a.cacheRead + b.cacheRead, a.cacheWrite + b.cacheWrite, a.durationMs + b.durationMs, a.cost + b.cost)
  }

  function One(e: Event): Totals {
    Totals(1, e.errors, e.input, e.output, e.cacheRead, e.cacheWrite, e.durationMs,
           if e.cost.Some? then e.cost.value else 0.0)
  }

  /** The direct fold over a list of events. */
  function Sum(events: seq<Event>): Totals {
    if events == [] then NOTHING else Plus(Sum(events[..|events| - 1]), One(events[|events| - 1]))
  }

  /** The numbers an event records. */
  datatype Field = Errors | Input | Output | CacheRead | CacheWrite | Duration

  function Recorded(e: Event, f: Field): nat {
    match f
    case Errors => e.errors
    case Input => e.input
    case Output => e.output
    case CacheRead => e.cacheRead
    case CacheWrite => e.cacheWrite
    case Duration => e.durationMs
  }

  function FieldSum(events: seq<Event>, f: Field): nat {
    if events == [] then 0 else Recorded(events[0], f) + FieldSum(events[1..], f)
  }

  /** The recorded costs; an event without one adds nothing. */
  function CostSum(events: seq<Event>): real {
    if events == [] then 0.0
    else (match events[0].cost { case None => 0.0 case Some(c) => c }) + CostSum(events[1..])
  }

  lemma {:induction false} LastInSums(events: seq<Event>, e: Event, f: Field)
    ensures FieldSum(events + [e], f) == FieldSum(events, f) + Recorded(e, f)
    ensures CostSum(events + [e]) == CostSum(events) + CostSum([e])
  {
    if events == [] {
      assert events + [e] == [e];
    } else {
      assert (events + [e])[1..] == events[1..] + [e];
      LastInSums(events[1..], e, f);
    }
  }

  /** Every total is the sum of its own field, and the requests are counted. */
  ghost predicate TotalsOf(t: Totals, events: seq<Event>) {
    t.requests == |events| && t.errors == FieldSum(events, Errors) && t.input == FieldSum(events, Input) &&
    t.output == FieldSum(events, Output) && t.cacheRead == FieldSum(events, CacheRead) &&
    t.cacheWrite == FieldSum(events, CacheWrite) && t.durationMs == FieldSum(events, Duration) && t.cost == CostSum(events)
  }

  lemma {:induction false} SumIsTotals(events: seq<Event>)
    ensures TotalsOf(Sum(events), events)
  {
    if events != [] {
      var front, e := events[..|events| - 1], events[|events| - 1];
      assert events == front + [e];
      SumIsTotals(front);
      hide FieldSum;
      forall f: Field ensures FieldSum(events, f) == FieldSum(front, f) + Recorded(e, f) { LastInSums(front, e, f); }
      LastInSums(front, e, Errors);
    }
  }

  // ----- which events count -----

  datatype Selection = AllRules | NoRules | Selected(keys: set<string>)
  datatype Query = Query(start: int, end: int, selection: Selection, model: Option<string>)

  function OrEmpty(s: Option<string>): string { if s.Some? then s.value else "" }

  /** SQL TRIM strips spaces only. */
  function SpaceStart(s: string, i: nat): (j: nat)
    requires i <= |s|
    ensures i <= j <= |s|
    decreases |s| - i
  {
    if i < |s| && s[i] == ' ' then SpaceStart(s, i + 1) else i
  }

  function SpaceEnd(s: string, i: nat, j: nat): (k: nat)
    requires i <= j <= |s|
    ensures i <= k <= j
    decreases j
  {
    if i < j && s[j - 1] == ' ' then SpaceEnd(s, i, j - 1) else j
  }

  /** NULLIF(TRIM(s), ''). */
  function NonBlank(s: Option<string>): Option<string> {
    if s.None? then None
    else
      var i := SpaceStart(s.value, 0);
      var t := s.value[i..SpaceEnd(s.value, i, |s.value|)];
      if t == "" then None else Some(t)
  }

  ghost predicate Spaces(s: string) { forall i :: 0 <= i < |s| ==> s[i] == ' ' }

  lemma {:induction false} LeadingSpaces(s: string, i: nat)
    requires i <= |s|
    ensures var j := SpaceStart(s, i); Spaces(s[i..j]) && (j < |s| ==> s[j] != ' ')
    decreases |s| - i
  {
    if i < |s| && s[i] == ' ' {
      LeadingSpaces(s, i + 1);
      assert s[i..SpaceStart(s, i)] == [s[i]] + s[i + 1..SpaceStart(s, i)];
    }
  }

  lemma {:induction false} TrailingSpaces(s: string, i: nat, j: nat)
    requires i <= j <= |s|
    ensures var k := SpaceEnd(s, i, j); Spaces(s[k..j]) && (i < k ==> s[k - 1] != ' ')
    decreases j
  {
    if i < j && s[j - 1] == ' ' {
      TrailingSpaces(s, i, j - 1);
      var k := SpaceEnd(s, i, j);
      assert s[k..j] == s[k..j - 1] + [s[j - 1]];
    }
  }

  /** Text without the spaces at both ends, if anything is left. */
  lemma NonBlankIs(s: string) returns (a: string, b: string)
    ensures Spaces(a) && Spaces(b)
    ensures match NonBlank(Some(s))
            case None => s == a + b
            case Some(t) => s == a + t + b && t != "" && t[0] != ' ' && t[|t| - 1] != ' '
  {
    hide SpaceStart, SpaceEnd, Spaces;
    var i := SpaceStart(s, 0);
    var k := SpaceEnd(s, i, |s|);
    LeadingSpaces(s, 0);
    TrailingSpaces(s, i, |s|);
    a, b := s[0..i], s[k..|s|];
    CutThree(s, i, k);
  }

  lemma CutThree(s: string, i: nat, k: nat)
    requires i <= k <= |s|
    ensures s == s[0..i] + s[i..k] + s[k..|s|] && (i == k ==> s == s[0..i] + s[k..|s|])
    ensures i < k ==> s[i..k][0] == s[i] && s[i..k][k - i - 1] == s[k - 1]
  {
  }

  function Coalesce(a: Option<string>, b: Option<string>): Option<string> { if a.Some? then a else b }

  predicate Matches(q: Query, e: Event) {
    q.start <= e.ts < q.end &&
    (match q.selection
     case AllRules => true
     case NoRules => false
     case Selected(keys) => OrEmpty(e.groupId) + "::" + OrEmpty(e.ruleId) in keys) &&
    (q.model.Some? ==> Coalesce(NonBlank(e.forwardedModel), NonBlank(e.model)) == q.model)
  }

  /** The model a request is counted under: the one it was forwarded as or else the one it asked for. */
  ghost predicate CountedUnder(e: Event, model: string) {
    NonBlank(e.forwardedModel) == Some(model) || (NonBlank(e.forwardedModel) == None && NonBlank(e.model) == Some(model))
  }

  /** The key of an event: its group, two colons, its rule; what is missing is empty. */
  ghost predicate Keyed(e: Event, k: string) {
    k == (if e.groupId == None then "" else e.groupId.value) + "::" + (if e.ruleId == None then "" else e.ruleId.value)
  }

  /** An event counts when it lies in the window, has a selected rule and ran the asked model. */
  ghost predicate Counted(q: Query, e: Event) {
    e.ts >= q.start && e.ts < q.end && q.selection != NoRules && (q.model == None || CountedUnder(e, q.model.value)) &&
    (q.selection.Selected? ==> exists k :: k in q.selection.keys && Keyed(e, k))
  }

  lemma CountsExactly(q: Query, e: Event)
    ensures Matches(q, e) <==> Counted(q, e)
    ensures e.groupId.Some? && e.ruleId.Some? ==> Keyed(e, RuleKey(RuleOf(e)))
  {
    hide NonBlank;
    var key := OrEmpty(e.groupId) + "::" + OrEmpty(e.ruleId);
    assert forall k :: Keyed(e, k) <==> k == key;
    hide Keyed;
  }

  function Select(q: Query, events: seq<Event>): seq<Event> { Keep(events, (e: Event) => Matches(q, e)) }

  /** Exactly the events that count are selected, in order. */
  lemma SelectPicks(q: Query, events: seq<Event>) returns (picks: seq<nat>)
    ensures Picked(events, Select(q, events), picks)
    ensures forall n: nat :: n in picks <==> n < |events| && Counted(q, events[n])
  {
    picks := KeepPicks(events, (e: Event) => Matches(q, e));
    forall n: nat | n < |events| ensures Matches(q, events[n]) <==> Counted(q, events[n]) { CountsExactly(q, events[n]); }
    hide Matches, Counted;
  }

  lemma {:induction false} NoRulesSelectNothing(q: Query, events: seq<Event>)
    requires q.selection.NoRules?
    ensures Select(q, events) == []
  {
    if events != [] { NoRulesSelectNothing(q, events[..|events| - 1]); }
  }

  // ----- grouping -----

  /** SUM(...) over the events with key `k`. */
  function GroupTotal<K(==)>(events: seq<Event>, keyOf: Event -> K, k: K): Totals {
    if events == [] then NOTHING
    else
      var n := |events| - 1;
      Plus(GroupTotal(events[..n], keyOf, k), if keyOf(events[n]) == k then One(events[n]) else NOTHING)
  }

  /** The total of a key is the total of the events that have it. */
  lemma {:induction false} GroupIsKept<K>(events: seq<Event>, keyOf: Event -> K, k: K, has: Event -> bool)
    requires forall e :: has(e) <==> keyOf(e) == k
    ensures GroupTotal(events, keyOf, k) == Sum(Keep(events, has))
  {
    assert Sum([]) == NOTHING;
    hide Plus, One, Sum;
    if events != [] {
      var n := |events| - 1;
      GroupIsKept(events[..n], keyOf, k, has);
      KeepOne(events, has);
      assert has(events[n]) <==> keyOf(events[n]) == k;
      SumGrows(Keep(events[..n], has), events[n]);
      PlusRegroups(Sum(Keep(events[..n], has)), NOTHING, NOTHING, NOTHING);
    }
  }

  lemma KeepOne(events: seq<Event>, has: Event -> bool)
    requires events != []
    ensures var n := |events| - 1; var kept := Keep(events[..n], has);
            Keep(events, has) == if has(events[n]) then kept + [events[n]] else kept
  {
  }

  lemma GroupTotalIs<K>(events: seq<Event>, keyOf: Event -> K, k: K, has: Event -> bool)
    requires forall e :: has(e) <==> keyOf(e) == k
    ensures TotalsOf(GroupTotal(events, keyOf, k), Keep(events, has))
  {
    GroupIsKept(events, keyOf, k, has);
    SumIsTotals(Keep(events, has));
    hide *;
  }

  /** The keys GROUP BY returns: each key of an event once, and nothing else. */
  ghost predicate GroupKeys<K>(keys: seq<K>, events: seq<Event>, keyOf: Event -> K) {
    Distinct(keys) &&
    (forall i :: 0 <= i < |events| ==> keyOf(events[i]) in keys) &&
    (forall j :: 0 <= j < |keys| ==> exists i :: 0 <= i < |events| && keyOf(events[i]) == keys[j])
  }

  function SumGroups<K(==)>(events: seq<Event>, keyOf: Event -> K, keys: seq<K>, n: nat): Totals
    requires n <= |keys|
  {
    if n == 0 then NOTHING else Plus(SumGroups(events, keyOf, keys, n - 1), GroupTotal(events, keyOf, keys[n - 1]))
  }

  lemma GroupTotalGrows<K>(events: seq<Event>, e: Event, keyOf: Event -> K, k: K)
    ensures GroupTotal(events + [e], keyOf, k) ==
            Plus(GroupTotal(events, keyOf, k), if keyOf(e) == k then One(e) else NOTHING)
  {
    assert (events + [e])[..|events|] == events;
  }

  lemma PlusRegroups(a: Totals, x: Totals, b: Totals, y: Totals)
    ensures Plus(Plus(a, x), Plus(b, y)) == Plus(Plus(a, b), Plus(x, y))
    ensures Plus(a, NOTHING) == a == Plus(NOTHING, a)
  {
  }

  lemma {:induction false} OneMoreEvent<K>(events: seq<Event>, e: Event, keyOf: Event -> K, keys: seq<K>, n: nat)
    requires n <= |keys| && Distinct(keys)
    ensures SumGroups(events + [e], keyOf, keys, n) ==
            Plus(SumGroups(events, keyOf, keys, n), if keyOf(e) in keys[..n] then One(e) else NOTHING)
    decreases n
  {
    hide GroupTotal;
    hide One;
    hide Plus;
    PlusRegroups(NOTHING, NOTHING, NOTHING, NOTHING);
    if n > 0 {
      var k := keys[n - 1];
      OneMoreEvent(events, e, keyOf, keys, n - 1);
      GroupTotalGrows(events, e, keyOf, k);
      assert keys[..n] == keys[..n - 1] + [k];
      assert keyOf(e) == k ==> keyOf(e) !in keys[..n - 1];
      var x := if keyOf(e) in keys[..n - 1] then One(e) else NOTHING;
      var y := if keyOf(e) == k then One(e) else NOTHING;
      PlusRegroups(SumGroups(events, keyOf, keys, n - 1), x, GroupTotal(events, keyOf, k), y);
      PlusRegroups(One(e), NOTHING, NOTHING, NOTHING);
    }
  }

  lemma {:induction false} NoEvents<K>(keyOf: Event -> K, keys: seq<K>, n: nat)
    requires n <= |keys|
    ensures SumGroups([], keyOf, keys, n) == NOTHING
    decreases n
  {
    if n > 0 { NoEvents(keyOf, keys, n - 1); }
  }

  /** Totals of the groups add up to the direct fold, whatever the grouping. */
  lemma {:induction false} GroupsAddUp<K>(events: seq<Event>, keyOf: Event -> K, keys: seq<K>)
    requires Distinct(keys) && forall i :: 0 <= i < |events| ==> keyOf(events[i]) in keys
    ensures SumGroups(events, keyOf, keys, |keys|) == Sum(events)
    decreases |events|
  {
    hide GroupTotal;
    hide SumGroups;
    hide One;
    hide Plus;
    if events == [] {
      NoEvents(keyOf, keys, |keys|);
    } else {
      var n := |events| - 1;
      GroupsAddUp(events[..n], keyOf, keys);
      OneMoreEvent(events[..n], events[n], keyOf, keys, |keys|);
      assert events[..n] + [events[n]] == events;
      assert keys[..|keys|] == keys;
    }
  }

  lemma {:induction false} GroupOccupied<K>(events: seq<Event>, keyOf: Event -> K, i: nat)
    requires i < |events|
    ensures GroupTotal(events, keyOf, keyOf(events[i])).requests >= 1
  {
    if i < |events| - 1 { GroupOccupied(events[..|events| - 1], keyOf, i); }
  }

  // ----- sums over maps -----

  ghost function SumMap(m: map<string, nat>): nat {
    if m == map[] then 0 else var k :| k in m; m[k] + SumMap(m - {k})
  }

  lemma EmptySum()
    ensures SumMap(map[]) == 0
  {
  }

  lemma {:induction false} SumMapRemove(m: map<string, nat>, k: string)
    requires k in m
    ensures SumMap(m) == m[k] + SumMap(m - {k})
    decreases |m|
  {
    var p :| p in m && SumMap(m) == m[p] + SumMap(m - {p});
    if p != k {
      SumMapRemove(m - {p}, k);
      SumMapRemove(m - {k}, p);
      assert m - {p} - {k} == m - {k} - {p};
    }
  }

  lemma SumMapUpdate(m: map<string, nat>, k: string, v: nat)
    ensures SumMap(m[k := v]) + (if k in m then m[k] else 0) == SumMap(m) + v
  {
    SumMapRemove(m[k := v], k);
    assert m[k := v] - {k} == m - {k};
    if k in m { SumMapRemove(m, k); } else { assert m - {k} == m; }
  }

  // ----- the queries -----

  function HourOf(e: Event): string { e.hour }

  function ProtocolOf(e: Event): string {
    var p := NonBlank(e.protocol);
    if p.Some? then p.value else "unknown"
  }

  datatype StatusKey = StatusKey(status: string, protocol: string)

  function StatusOf(e: Event): StatusKey {
    StatusKey(if e.status.Some? then Numeral(e.status.value) else "unknown", ProtocolOf(e))
  }

  datatype RuleGroup = RuleGroup(groupId: string, groupLabel: string, ruleId: string)

  function RuleOf(e: Event): RuleGroup {
    RuleGroup(OrEmpty(e.groupId), OrEmpty(Coalesce(e.groupName, e.groupId)), OrEmpty(e.ruleId))
  }

  /** What an event is grouped under: its protocol and status, or that they are unknown. */
  lemma KeysOfEvent(e: Event)
    ensures NonBlank(e.protocol) == None ==> ProtocolOf(e) == "unknown"
    ensures forall p :: NonBlank(e.protocol) == Some(p) ==> ProtocolOf(e) == p
    ensures e.status == None ==> StatusOf(e).status == "unknown"
    ensures forall n :: e.status == Some(n) ==> AllDigits(StatusOf(e).status) && DigitsValue(StatusOf(e).status) == n
    ensures forall d: Dimension ::
              LabelOf(d, e) == if d == ByProtocolDimension then ProtocolOf(e) + " · " + StatusOf(e).status else StatusOf(e).status
  {
  }

  /** Two requests are in one row exactly when group, group name and rule agree, a missing name being the group's id. */
  lemma SameRowExactly(e: Event, f: Event)
    requires e.groupId.Some? && e.ruleId.Some? && f.groupId.Some? && f.ruleId.Some?
    ensures RuleOf(e) == RuleOf(f) <==>
              e.groupId == f.groupId && e.ruleId == f.ruleId &&
              (if e.groupName == None then e.groupId else e.groupName) == (if f.groupName == None then f.groupId else f.groupName)
  {
  }

  predicate HasRule(e: Event) { e.groupId.Some? && e.ruleId.Some? }
  predicate HasErrors(e: Event) { e.errors > 0 }

  datatype Dimension = ByRuleDimension | ByProtocolDimension | ByStatusDimension

  /** Hour rows: the running totals equal the direct fold, and each hour keeps its own. */
  method SumHours(rows: seq<Event>, hours: seq<string>) returns (total: Totals, hourly: map<string, Totals>)
    requires GroupKeys(hours, rows, HourOf)
    ensures total == Sum(rows)
    ensures forall h :: h in hourly <==> h in hours
    ensures forall h :: h in hourly ==> hourly[h] == GroupTotal(rows, HourOf, h)
  {
    hide GroupTotal;
    hide Sum;
    hide Plus;
    hide HourOf;
    total, hourly := NOTHING, map[];
    var i := 0;
    while i < |hours|
      invariant 0 <= i <= |hours|
      invariant total == SumGroups(rows, HourOf, hours, i)
      invariant forall h :: h in hourly <==> h in hours[..i]
      invariant forall h :: h in hourly ==> hourly[h] == GroupTotal(rows, HourOf, h)
    {
      var point := GroupTotal(rows, HourOf, hours[i]);
      total := Plus(total, point);
      assert hours[..i + 1] == hours[..i] + [hours[i]];
      hourly := hourly[hours[i] := point];
      i := i + 1;
    }
    assert hours[..i] == hours;
    GroupsAddUp(rows, HourOf, hours);
  }

  /** The total of an hour is the total of its events. */
  lemma HourTotalIs(rows: seq<Event>, h: string, inHour: Event -> bool)
    requires forall e :: inHour(e) <==> e.hour == h
    ensures TotalsOf(GroupTotal(rows, HourOf, h), Keep(rows, inHour))
  {
    GroupTotalIs(rows, HourOf, h, inHour);
  }

  /** What a protocol row contributes: its tokens or its requests. */
  function Pick(t: Totals, tokens: bool): nat { if tokens then t.input + t.output else t.requests }

  /** `m` holds the first `n` protocol rows. */
  ghost predicate Tallied(m: map<string, nat>, rows: seq<Event>, keys: seq<string>, n: nat, tokens: bool)
    requires n <= |keys|
  {
    SumMap(m) == Pick(SumGroups(rows, ProtocolOf, keys, n), tokens) &&
    (forall k :: k in m <==> k in keys[..n]) &&
    (forall k :: k in m ==> m[k] == Pick(GroupTotal(rows, ProtocolOf, k), tokens))
  }

  lemma TallyStarts(rows: seq<Event>, keys: seq<string>, tokens: bool)
    ensures Tallied(map[], rows, keys, 0, tokens)
  {
  }

  lemma TallyGrows(m: map<string, nat>, rows: seq<Event>, keys: seq<string>, n: nat, tokens: bool)
    requires n < |keys| && Distinct(keys) && Tallied(m, rows, keys, n, tokens)
    ensures Tallied(m[keys[n] := Pick(GroupTotal(rows, ProtocolOf, keys[n]), tokens)], rows, keys, n + 1, tokens)
  {
    hide SumMap;
    hide GroupTotal;
    hide ProtocolOf;
    NewElement(keys, n);
    hide Distinct;
    assert keys[..n + 1] == keys[..n] + [keys[n]];
    SumMapUpdate(m, keys[n], Pick(GroupTotal(rows, ProtocolOf, keys[n]), tokens));
  }

  lemma TallyEnds(m: map<string, nat>, rows: seq<Event>, keys: seq<string>, tokens: bool)
    requires GroupKeys(keys, rows, ProtocolOf) && Tallied(m, rows, keys, |keys|, tokens)
    ensures SumMap(m) == Pick(Sum(rows), tokens)
    ensures forall k :: k in m <==> k in keys
    ensures forall k :: k in m ==> m[k] == Pick(GroupTotal(rows, ProtocolOf, k), tokens)
  {
    hide SumMap;
    hide GroupTotal;
    hide ProtocolOf;
    assert keys[..|keys|] == keys;
    GroupsAddUp(rows, ProtocolOf, keys);
  }

  method ByProtocol(rows: seq<Event>, protocols: seq<string>)
    returns (requests: map<string, nat>, tokens: map<string, nat>)
    requires GroupKeys(protocols, rows, ProtocolOf)
    ensures SumMap(requests) == Pick(Sum(rows), false)
    ensures SumMap(tokens) == Pick(Sum(rows), true)
    ensures forall p :: p in requests <==> p in protocols
    ensures forall p :: p in requests ==> requests[p] == Pick(GroupTotal(rows, ProtocolOf, p), false)
    ensures forall p :: p in tokens <==> p in protocols
    ensures forall p :: p in tokens ==> tokens[p] == Pick(GroupTotal(rows, ProtocolOf, p), true)
  {
    assert Distinct(protocols);
    hide *;
    requests, tokens := map[], map[];
    TallyStarts(rows, protocols, false);
    TallyStarts(rows, protocols, true);
    var i := 0;
    while i < |protocols|
      invariant 0 <= i <= |protocols|
      invariant Tallied(requests, rows, protocols, i, false)
      invariant Tallied(tokens, rows, protocols, i, true)
    {
      TallyGrows(requests, rows, protocols, i, false);
      TallyGrows(tokens, rows, protocols, i, true);
      requests := requests[protocols[i] := Pick(GroupTotal(rows, ProtocolOf, protocols[i]), false)];
      tokens := tokens[protocols[i] := Pick(GroupTotal(rows, ProtocolOf, protocols[i]), true)];
      i := i + 1;
    }
    TallyEnds(requests, rows, protocols, false);
    TallyEnds(tokens, rows, protocols, true);
  }

  function StatusLabel(dimension: Dimension, k: StatusKey): string {
    if dimension.ByProtocolDimension? then k.protocol + " · " + k.status else k.status
  }

  lemma SumGrows(events: seq<Event>, e: Event)
    ensures Sum(events + [e]) == Plus(Sum(events), One(e))
  {
    assert (events + [e])[..|events|] == events;
  }

  lemma {:induction false} ErrorsOfFailures(rows: seq<Event>)
    ensures Sum(Keep(rows, HasErrors)).errors == Sum(rows).errors
  {
    if rows != [] {
      var n := |rows| - 1;
      ErrorsOfFailures(rows[..n]);
      var kept := Keep(rows[..n], HasErrors);
      SumGrows(kept, rows[n]);
      assert kept + [] == kept;
    }
  }

  function LabelOf(dimension: Dimension, e: Event): string { StatusLabel(dimension, StatusOf(e)) }

  /** The errors of the events with one label. */
  function LabelErrors(events: seq<Event>, dimension: Dimension, name: string): nat {
    if events == [] then 0
    else
      var e := events[|events| - 1];
      LabelErrors(events[..|events| - 1], dimension, name) + if LabelOf(dimension, e) == name then e.errors else 0
  }

  /** The errors in the first `n` rows with one label. */
  function RowErrors(events: seq<Event>, dimension: Dimension, keys: seq<StatusKey>, n: nat, name: string): nat
    requires n <= |keys|
  {
    if n == 0 then 0
    else
      RowErrors(events, dimension, keys, n - 1, name) +
      if StatusLabel(dimension, keys[n - 1]) == name then GroupTotal(events, StatusOf, keys[n - 1]).errors else 0
  }

  lemma {:induction false} OneMoreFailure(
    events: seq<Event>, e: Event, dimension: Dimension, keys: seq<StatusKey>, n: nat, name: string)
    requires n <= |keys| && Distinct(keys)
    ensures RowErrors(events + [e], dimension, keys, n, name) == RowErrors(events, dimension, keys, n, name) +
              if StatusOf(e) in keys[..n] && LabelOf(dimension, e) == name then e.errors else 0
    decreases n
  {
    hide GroupTotal;
    hide StatusOf;
    hide StatusLabel;
    if n > 0 {
      OneMoreFailure(events, e, dimension, keys, n - 1, name);
      GroupTotalGrows(events, e, StatusOf, keys[n - 1]);
      NewElement(keys, n - 1);
      assert keys[..n] == keys[..n - 1] + [keys[n - 1]];
    }
  }

  /** Rows with one label add up to the errors of the events with that label. */
  lemma {:induction false} LabelsAddUp(events: seq<Event>, dimension: Dimension, keys: seq<StatusKey>, name: string)
    requires Distinct(keys) && forall i :: 0 <= i < |events| ==> StatusOf(events[i]) in keys
    ensures RowErrors(events, dimension, keys, |keys|, name) == LabelErrors(events, dimension, name)
    decreases |events|
  {
    hide GroupTotal;
    hide RowErrors;
    hide StatusOf;
    hide StatusLabel;
    if events == [] {
      NoFailures(dimension, keys, |keys|, name);
    } else {
      var n := |events| - 1;
      LabelsAddUp(events[..n], dimension, keys, name);
      OneMoreFailure(events[..n], events[n], dimension, keys, |keys|, name);
      assert events[..n] + [events[n]] == events;
      assert keys[..|keys|] == keys;
    }
  }

  lemma {:induction false} NoFailures(dimension: Dimension, keys: seq<StatusKey>, n: nat, name: string)
    requires n <= |keys|
    ensures RowErrors([], dimension, keys, n, name) == 0
    decreases n
  {
    if n > 0 { NoFailures(dimension, keys, n - 1, name); }
  }

  lemma {:induction false} FailuresHoldErrors(rows: seq<Event>, dimension: Dimension, name: string)
    ensures LabelErrors(Keep(rows, HasErrors), dimension, name) == LabelErrors(rows, dimension, name)
  {
    hide LabelOf;
    if rows != [] {
      var n := |rows| - 1;
      FailuresHoldErrors(rows[..n], dimension, name);
      var kept := Keep(rows[..n], HasErrors);
      assert (kept + [rows[n]])[..|kept|] == kept;
      assert kept + [] == kept;
    }
  }

  ghost predicate Labels(dimension: Dimension, keys: seq<StatusKey>, n: nat, name: string)
    requires n <= |keys|
  {
    exists j :: 0 <= j < n && StatusLabel(dimension, keys[j]) == name
  }

  ghost predicate Labelled(
    errors: map<string, nat>, events: seq<Event>, dimension: Dimension, keys: seq<StatusKey>, n: nat)
    requires n <= |keys|
  {
    forall x :: (x in errors <==> Labels(dimension, keys, n, x)) &&
                (if x in errors then errors[x] else 0) == RowErrors(events, dimension, keys, n, x)
  }

  lemma LabelledStarts(events: seq<Event>, dimension: Dimension, keys: seq<StatusKey>)
    ensures Labelled(map[], events, dimension, keys, 0)
  {
  }

  lemma LabelledGrows(errors: map<string, nat>, events: seq<Event>, dimension: Dimension, keys: seq<StatusKey>, n: nat)
    requires n < |keys| && Labelled(errors, events, dimension, keys, n)
    ensures var x := StatusLabel(dimension, keys[n]);
            var row := GroupTotal(events, StatusOf, keys[n]).errors;
            Labelled(errors[x := (if x in errors then errors[x] else 0) + row], events, dimension, keys, n + 1)
  {
    hide GroupTotal;
    hide StatusOf;
    hide StatusLabel;
    forall y
      ensures Labels(dimension, keys, n + 1, y) <==> Labels(dimension, keys, n, y) || StatusLabel(dimension, keys[n]) == y
    {
      if StatusLabel(dimension, keys[n]) == y { assert Labels(dimension, keys, n + 1, y); }
    }
  }

  /** The labels of the errors that occurred, with the errors of the events under each. */
  ghost predicate ErrorsByLabel(errors: map<string, nat>, rows: seq<Event>, dimension: Dimension) {
    forall x :: (x in errors <==> exists i :: 0 <= i < |rows| && rows[i].errors > 0 && LabelOf(dimension, rows[i]) == x) &&
                (x in errors ==> errors[x] == LabelErrors(rows, dimension, x))
  }

  lemma LabelledEnds(errors: map<string, nat>, rows: seq<Event>, dimension: Dimension, keys: seq<StatusKey>)
    requires GroupKeys(keys, Keep(rows, HasErrors), StatusOf)
    requires Labelled(errors, Keep(rows, HasErrors), dimension, keys, |keys|)
    ensures ErrorsByLabel(errors, rows, dimension)
  {
    hide Keep;
    hide StatusOf;
    hide StatusLabel;
    hide RowErrors;
    hide LabelErrors;
    var failures := Keep(rows, HasErrors);
    forall x
      ensures x in errors <==> exists i :: 0 <= i < |rows| && rows[i].errors > 0 && LabelOf(dimension, rows[i]) == x
      ensures x in errors ==> errors[x] == LabelErrors(rows, dimension, x)
    {
      LabelsAddUp(failures, dimension, keys, x);
      FailuresHoldErrors(rows, dimension, x);
      if Labels(dimension, keys, |keys|, x) {
        var j :| 0 <= j < |keys| && StatusLabel(dimension, keys[j]) == x;
        var i :| 0 <= i < |failures| && StatusOf(failures[i]) == keys[j];
        KeepMembers(rows, HasErrors, failures[i]);
        var k :| 0 <= k < |rows| && rows[k] == failures[i];
        assert rows[k].errors > 0 && LabelOf(dimension, rows[k]) == x;
      }
      if i :| 0 <= i < |rows| && rows[i].errors > 0 && LabelOf(dimension, rows[i]) == x {
        KeepMembers(rows, HasErrors, rows[i]);
        var k :| 0 <= k < |failures| && failures[k] == rows[i];
        var j :| 0 <= j < |keys| && keys[j] == StatusOf(failures[k]);
        assert Labels(dimension, keys, |keys|, x);
      }
    }
  }

  ghost predicate StatusTally(
    errors: map<string, nat>, failures: seq<Event>, dimension: Dimension, keys: seq<StatusKey>, n: nat)
    requires n <= |keys|
  {
    SumMap(errors) == SumGroups(failures, StatusOf, keys, n).errors && Labelled(errors, failures, dimension, keys, n)
  }

  lemma StatusStarts(failures: seq<Event>, dimension: Dimension, keys: seq<StatusKey>)
    ensures StatusTally(map[], failures, dimension, keys, 0)
  {
    EmptySum();
    LabelledStarts(failures, dimension, keys);
  }

  lemma StatusGrows(errors: map<string, nat>, failures: seq<Event>, dimension: Dimension, keys: seq<StatusKey>, n: nat)
    requires n < |keys| && StatusTally(errors, failures, dimension, keys, n)
    ensures var x := StatusLabel(dimension, keys[n]);
            var row := GroupTotal(failures, StatusOf, keys[n]).errors;
            StatusTally(errors[x := (if x in errors then errors[x] else 0) + row], failures, dimension, keys, n + 1)
  {
    hide GroupTotal, StatusOf, StatusLabel, SumMap, Labelled;
    var x := StatusLabel(dimension, keys[n]);
    var row := GroupTotal(failures, StatusOf, keys[n]).errors;
    SumMapUpdate(errors, x, (if x in errors then errors[x] else 0) + row);
    LabelledGrows(errors, failures, dimension, keys, n);
  }

  lemma StatusEnds(errors: map<string, nat>, rows: seq<Event>, dimension: Dimension, keys: seq<StatusKey>)
    requires GroupKeys(keys, Keep(rows, HasErrors), StatusOf)
    requires StatusTally(errors, Keep(rows, HasErrors), dimension, keys, |keys|)
    ensures ErrorsByLabel(errors, rows, dimension) && SumMap(errors) == Sum(rows).errors
  {
    hide GroupTotal, StatusOf, SumMap, Labelled, ErrorsByLabel, SumGroups, Keep, Sum;
    GroupsAddUp(Keep(rows, HasErrors), StatusOf, keys);
    ErrorsOfFailures(rows);
    LabelledEnds(errors, rows, dimension, keys);
  }

  /** Labels may collide, under any dimension; counts under one label are added, so nothing is lost. */
  method ByStatus(rows: seq<Event>, dimension: Dimension, keys: seq<StatusKey>) returns (errors: map<string, nat>)
    requires GroupKeys(keys, Keep(rows, HasErrors), StatusOf)
    ensures ErrorsByLabel(errors, rows, dimension)
    ensures SumMap(errors) == Sum(rows).errors
  {
    hide *;
    var failures := Keep(rows, HasErrors);
    errors := map[];
    StatusStarts(failures, dimension, keys);
    var i := 0;
    while i < |keys|
      invariant 0 <= i <= |keys| && StatusTally(errors, failures, dimension, keys, i)
    {
      var row := GroupTotal(failures, StatusOf, keys[i]).errors;
      var text := StatusLabel(dimension, keys[i]);
      StatusGrows(errors, failures, dimension, keys, i);
      errors := errors[text := (if text in errors then errors[text] else 0) + row];
      i := i + 1;
    }
    StatusEnds(errors, rows, dimension, keys);
  }

  function RuleKey(k: RuleGroup): string { k.groupId + "::" + k.ruleId }

  /** Two rule rows with one key, such as one rule under two group names. */
  ghost predicate KeysCollide(keys: seq<RuleGroup>, n: nat)
    requires n <= |keys|
  {
    exists i, j :: 0 <= i < j < n && RuleKey(keys[i]) == RuleKey(keys[j])
  }

  lemma {:induction false} RequestsAreCount(events: seq<Event>)
    ensures Sum(events).requests == |events|
  {
    if events != [] { RequestsAreCount(events[..|events| - 1]); }
  }

  /** Row `j` is the last of the first `n` with its key. */
  ghost predicate LastWithKey(keys: seq<RuleGroup>, n: nat, j: int)
    requires n <= |keys|
  {
    0 <= j < n && forall i :: j < i < n ==> RuleKey(keys[i]) != RuleKey(keys[j])
  }

  ghost predicate KeyAmong(keys: seq<RuleGroup>, n: nat, k: string)
    requires n <= |keys|
  {
    exists j :: 0 <= j < n && RuleKey(keys[j]) == k
  }

  ghost predicate Holds(m: map<string, nat>, k: string, v: nat) { k in m && m[k] == v }

  /** Among the first `n` rows the last one of each key is the one `m` holds. */
  ghost predicate LastRowsHeld(m: map<string, nat>, named: seq<Event>, keys: seq<RuleGroup>, n: nat, tokens: bool)
    requires n <= |keys|
  {
    (forall k :: k in m <==> KeyAmong(keys, n, k)) &&
    (forall j :: LastWithKey(keys, n, j) ==> Holds(m, RuleKey(keys[j]), Pick(GroupTotal(named, RuleOf, keys[j]), tokens)))
  }

  lemma NextKeyAmong(keys: seq<RuleGroup>, n: nat, k: string)
    requires n < |keys|
    ensures KeyAmong(keys, n + 1, k) <==> KeyAmong(keys, n, k) || RuleKey(keys[n]) == k
  {
    hide RuleKey;
    if RuleKey(keys[n]) == k { assert KeyAmong(keys, n + 1, k); }
  }

  lemma LastRowReplaces(m: map<string, nat>, named: seq<Event>, keys: seq<RuleGroup>, n: nat, tokens: bool)
    requires n < |keys| && LastRowsHeld(m, named, keys, n, tokens)
    ensures LastRowsHeld(m[RuleKey(keys[n]) := Pick(GroupTotal(named, RuleOf, keys[n]), tokens)], named, keys, n + 1, tokens)
  {
    hide GroupTotal, RuleOf, RuleKey, Pick, KeyAmong;
    var m' := m[RuleKey(keys[n]) := Pick(GroupTotal(named, RuleOf, keys[n]), tokens)];
    forall k ensures k in m' <==> KeyAmong(keys, n + 1, k) { NextKeyAmong(keys, n, k); }
    forall j | LastWithKey(keys, n + 1, j)
      ensures Holds(m', RuleKey(keys[j]), Pick(GroupTotal(named, RuleOf, keys[j]), tokens))
    {
      if j < n {
        assert LastWithKey(keys, n, j);
        assert Holds(m, RuleKey(keys[j]), Pick(GroupTotal(named, RuleOf, keys[j]), tokens));
      }
    }
  }

  lemma {:induction false} KeepHoldsNoMoreTokens(rows: seq<Event>)
    ensures Pick(Sum(Keep(rows, HasRule)), true) <= Pick(Sum(rows), true)
  {
    if rows != [] {
      var n := |rows| - 1;
      KeepHoldsNoMoreTokens(rows[..n]);
      var kept := Keep(rows[..n], HasRule);
      SumGrows(kept, rows[n]);
      assert kept + [] == kept;
    }
  }

  ghost predicate AllNamed(rows: seq<Event>) { forall i :: 0 <= i < |rows| ==> rows[i].groupId.Some? && rows[i].ruleId.Some? }

  /** A repeated key overwrites, so the last row of each key is what remains. The counts therefore sum to
      at most the requests, and to exactly the requests when and only when every event names a rule and
      no two rows share a key. */
  method ByRule(rows: seq<Event>, keys: seq<RuleGroup>) returns (requests: map<string, nat>, tokens: map<string, nat>)
    requires GroupKeys(keys, Keep(rows, HasRule), RuleOf)
    ensures LastRowsHeld(requests, Keep(rows, HasRule), keys, |keys|, false)
    ensures LastRowsHeld(tokens, Keep(rows, HasRule), keys, |keys|, true)
    ensures SumMap(requests) <= Pick(Sum(rows), false) && SumMap(tokens) <= Pick(Sum(rows), true)
    ensures SumMap(requests) == Pick(Sum(rows), false) <==> AllNamed(rows) && !KeysCollide(keys, |keys|)
    ensures AllNamed(rows) && !KeysCollide(keys, |keys|) ==> SumMap(tokens) == Pick(Sum(rows), true)
  {
    hide *;
    var named := Keep(rows, HasRule);
    EveryRowCounts(named, keys);
    RulesStart(named, keys);
    requests, tokens := map[], map[];
    ghost var lost, lostTokens := 0, 0;
    var i := 0;
    while i < |keys|
      invariant 0 <= i <= |keys| && lost >= 0 && lostTokens >= 0
      invariant RuleTally(requests, named, keys, i, false, lost) && RuleTally(tokens, named, keys, i, true, lostTokens)
      invariant Positive(requests) && (lost == 0 <==> !KeysCollide(keys, i)) && (lost == 0 ==> lostTokens == 0)
    {
      var key := RuleKey(keys[i]);
      var row := GroupTotal(named, RuleOf, keys[i]);
      RulesGrow(requests, named, keys, i, false, lost);
      RulesGrow(tokens, named, keys, i, true, lostTokens);
      PositiveGrows(requests, key, Pick(row, false));
      if key in requests {
        PositiveAt(requests, key);
        lost, lostTokens := lost + requests[key], lostTokens + tokens[key];
      }
      requests, tokens := requests[key := Pick(row, false)], tokens[key := Pick(row, true)];
      i := i + 1;
    }
    RulesEnd(requests, named, keys, false, lost);
    RulesEnd(tokens, named, keys, true, lostTokens);
    NamedAddUp(rows, keys);
  }

  /** `m` holds the last row of each key, and `lost` is what the rows it replaced had counted. */
  ghost predicate RuleTally(
    m: map<string, nat>, named: seq<Event>, keys: seq<RuleGroup>, n: nat, tokens: bool, lost: int)
    requires n <= |keys|
  {
    LastRowsHeld(m, named, keys, n, tokens) && SumMap(m) + lost == Pick(SumGroups(named, RuleOf, keys, n), tokens)
  }

  lemma RulesStart(named: seq<Event>, keys: seq<RuleGroup>)
    ensures RuleTally(map[], named, keys, 0, false, 0) && RuleTally(map[], named, keys, 0, true, 0)
    ensures Positive(map[]) && !KeysCollide(keys, 0)
  {
    EmptySum();
    NoKeys(named, keys);
  }

  lemma RulesGrow(m: map<string, nat>, named: seq<Event>, keys: seq<RuleGroup>, n: nat, tokens: bool, lost: int)
    requires n < |keys| && RuleTally(m, named, keys, n, tokens, lost)
    ensures var k := RuleKey(keys[n]);
            RuleTally(m[k := Pick(GroupTotal(named, RuleOf, keys[n]), tokens)], named, keys, n + 1, tokens,
                      lost + if k in m then m[k] else 0)
    ensures KeysCollide(keys, n + 1) <==> KeysCollide(keys, n) || RuleKey(keys[n]) in m
    ensures RuleKey(keys[n]) in m <==> KeyAmong(keys, n, RuleKey(keys[n]))
  {
    hide GroupTotal, RuleOf, RuleKey, SumMap;
    OneMoreKey(keys, n);
    LastRowReplaces(m, named, keys, n, tokens);
    SumMapUpdate(m, RuleKey(keys[n]), Pick(GroupTotal(named, RuleOf, keys[n]), tokens));
  }

  lemma RulesEnd(m: map<string, nat>, named: seq<Event>, keys: seq<RuleGroup>, tokens: bool, lost: int)
    requires RuleTally(m, named, keys, |keys|, tokens, lost)
    ensures LastRowsHeld(m, named, keys, |keys|, tokens)
    ensures SumMap(m) + lost == Pick(SumGroups(named, RuleOf, keys, |keys|), tokens)
  {
  }

  ghost predicate Positive(m: map<string, nat>) { forall k :: k in m ==> m[k] >= 1 }

  lemma PositiveGrows(m: map<string, nat>, k: string, v: nat)
    requires Positive(m) && v >= 1
    ensures Positive(m[k := v])
  {
  }

  lemma PositiveAt(m: map<string, nat>, k: string)
    requires Positive(m) && k in m
    ensures m[k] >= 1
  {
  }

  lemma EveryRowCounts(named: seq<Event>, keys: seq<RuleGroup>)
    requires GroupKeys(keys, named, RuleOf)
    ensures forall i :: 0 <= i < |keys| ==> Pick(GroupTotal(named, RuleOf, keys[i]), false) >= 1
  {
    hide GroupTotal;
    hide RuleOf;
    forall i | 0 <= i < |keys| ensures GroupTotal(named, RuleOf, keys[i]).requests >= 1 {
      var e :| 0 <= e < |named| && RuleOf(named[e]) == keys[i];
      GroupOccupied(named, RuleOf, e);
    }
  }

  lemma NamedAddUp(rows: seq<Event>, keys: seq<RuleGroup>)
    requires GroupKeys(keys, Keep(rows, HasRule), RuleOf)
    ensures var t := SumGroups(Keep(rows, HasRule), RuleOf, keys, |keys|);
            Pick(t, false) <= Pick(Sum(rows), false) && Pick(t, true) <= Pick(Sum(rows), true) &&
            (Pick(t, false) == Pick(Sum(rows), false) <==> AllNamed(rows)) &&
            (AllNamed(rows) ==> Pick(t, true) == Pick(Sum(rows), true))
  {
    hide GroupTotal;
    hide RuleOf;
    hide SumGroups;
    hide Keep;
    hide Sum;
    var named := Keep(rows, HasRule);
    GroupsAddUp(named, RuleOf, keys);
    RequestsAreCount(rows);
    RequestsAreCount(named);
    KeepLength(rows, HasRule);
    KeepHoldsNoMoreTokens(rows);
    if AllNamed(rows) { KeepAll(rows, HasRule); }
  }

  /** A group that was renamed: two requests, two rows, one key. */
  lemma RenamedGroupCollides() returns (rows: seq<Event>, keys: seq<RuleGroup>)
    ensures |rows| == 2 && AllNamed(rows) && GroupKeys(keys, Keep(rows, HasRule), RuleOf) && KeysCollide(keys, |keys|)
  {
    var e := Event(0, "h", Some("g"), Some("old"), Some("r"), None, None, None, None, 0, 0, 0, 0, 0, 0, None);
    rows := [e, e.(groupName := Some("new"))];
    keys := [RuleGroup("g", "old", "r"), RuleGroup("g", "new", "r")];
    KeepAll(rows, HasRule);
    assert RuleOf(rows[0]) == keys[0] && RuleOf(rows[1]) == keys[1];
    assert RuleKey(keys[0]) == RuleKey(keys[1]);
  }

  lemma NoKeys(named: seq<Event>, keys: seq<RuleGroup>)
    ensures !KeysCollide(keys, 0) && forall tokens :: LastRowsHeld(map[], named, keys, 0, tokens)
  {
  }

  lemma OneMoreKey(keys: seq<RuleGroup>, i: nat)
    requires i < |keys|
    ensures KeysCollide(keys, i + 1) <==> KeysCollide(keys, i) || KeyAmong(keys, i, RuleKey(keys[i]))
  {
    hide RuleKey;
    if KeyAmong(keys, i, RuleKey(keys[i])) {
      var j :| 0 <= j < i && RuleKey(keys[j]) == RuleKey(keys[i]);
      assert KeysCollide(keys, i + 1);
    }
  }

  lemma NoGroups<K>(events: seq<Event>, keys: seq<K>, keyOf: Event -> K)
    requires GroupKeys(keys, events, keyOf)
    ensures keys != [] ==> events != []
  {
    if keys != [] {
      var k := keys[0];
      assert exists i :: 0 <= i < |events| && keyOf(events[i]) == k;
    }
  }

  lemma NothingSelected(
    dimension: Dimension, hours: seq<string>, protocols: seq<string>, statuses: seq<StatusKey>, rules: seq<RuleGroup>)
    requires GroupKeys(hours, [], HourOf) && GroupKeys(protocols, [], ProtocolOf)
    requires GroupKeys(statuses, Keep([], HasErrors), StatusOf) && GroupKeys(rules, Keep([], HasRule), RuleOf)
    ensures hours == [] && protocols == [] && Sum([]) == NOTHING && SumMap(map[]) == 0 == NOTHING.errors
    ensures ErrorsByLabel(map[], [], dimension) && AllNamed([]) && !KeysCollide(rules, |rules|)
    ensures forall tokens :: LastRowsHeld(map[], Keep([], HasRule), rules, |rules|, tokens) && Pick(NOTHING, tokens) == 0
  {
    NoGroups([], hours, HourOf);
    NoGroups([], protocols, ProtocolOf);
    NoGroups([], rules, RuleOf);
    NoKeys([], rules);
  }

  lemma PicksFrom(t: Totals, events: seq<Event>)
    requires TotalsOf(t, events)
    ensures Pick(t, false) == |events| && Pick(t, true) == t.input + t.output
  {
  }

  /** The whole window: one selection of events feeds all breakdowns. */
  method AggregateWindow(
    q: Query, events: seq<Event>, dimension: Dimension,
    hours: seq<string>, protocols: seq<string>, statuses: seq<StatusKey>, rules: seq<RuleGroup>)
    returns (total: Totals, hourly: map<string, Totals>, requestsByProtocol: map<string, nat>,
             tokensByProtocol: map<string, nat>, errorsByStatus: map<string, nat>,
             requestsByRule: map<string, nat>, tokensByRule: map<string, nat>)
    requires GroupKeys(hours, Select(q, events), HourOf)
    requires GroupKeys(protocols, Select(q, events), ProtocolOf)
    requires GroupKeys(statuses, Keep(Select(q, events), HasErrors), StatusOf)
    requires GroupKeys(rules, Keep(Select(q, events), HasRule), RuleOf)
    ensures total == Sum(Select(q, events)) && TotalsOf(total, Select(q, events))
    ensures SumMap(requestsByProtocol) == |Select(q, events)| && SumMap(tokensByProtocol) == total.input + total.output
    ensures forall h :: h in hourly <==> h in hours
    ensures forall h :: h in hourly ==> hourly[h] == GroupTotal(Select(q, events), HourOf, h)
    ensures SumMap(requestsByProtocol) == Pick(total, false) && SumMap(tokensByProtocol) == Pick(total, true)
    ensures forall p :: p in requestsByProtocol <==> p in protocols
    ensures forall p :: p in tokensByProtocol <==> p in protocols
    ensures forall p :: p in requestsByProtocol ==>
              requestsByProtocol[p] == Pick(GroupTotal(Select(q, events), ProtocolOf, p), false)
    ensures forall p :: p in tokensByProtocol ==>
              tokensByProtocol[p] == Pick(GroupTotal(Select(q, events), ProtocolOf, p), true)
    ensures ErrorsByLabel(errorsByStatus, Select(q, events), dimension)
    ensures SumMap(errorsByStatus) == total.errors
    ensures LastRowsHeld(requestsByRule, Keep(Select(q, events), HasRule), rules, |rules|, false)
    ensures LastRowsHeld(tokensByRule, Keep(Select(q, events), HasRule), rules, |rules|, true)
    ensures SumMap(requestsByRule) <= Pick(total, false) && SumMap(tokensByRule) <= Pick(total, true)
    ensures SumMap(requestsByRule) == Pick(total, false) <==>
              AllNamed(Select(q, events)) && !KeysCollide(rules, |rules|)
    ensures AllNamed(Select(q, events)) && !KeysCollide(rules, |rules|) ==> SumMap(tokensByRule) == Pick(total, true)
  {
    hide *;
    if q.selection.NoRules? {
      NoRulesSelectNothing(q, events);
      NothingSelected(dimension, hours, protocols, statuses, rules);
      SumIsTotals([]);
      PicksFrom(Sum([]), []);
      return NOTHING, map[], map[], map[], map[], map[], map[];
    }
    var rows := Select(q, events);
    SumIsTotals(rows);
    PicksFrom(Sum(rows), rows);
    total, hourly := SumHours(rows, hours);
    requestsByProtocol, tokensByProtocol := ByProtocol(rows, protocols);
    errorsByStatus := ByStatus(rows, dimension, statuses);
    requestsByRule, tokensByRule := ByRule(rows, rules);
  }
}
