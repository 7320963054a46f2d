// Storage normalisation: groups are relinked to one provider table, and empty groups and providers dropped.
module ConfigNormalize {
  import opened Text
  import opened Sequences
  import opened ConfigModel
  import opened ConfigTable

  // ----- links -----

  function Renamed(remap: map<string, string>, id: string): string {
    if id in remap then remap[id] else id
  }

  /** The ids a list of links stands for, trimmed and renamed. */
  function Targets(raw: seq<string>, remap: map<string, string>): (names: seq<string>)
    ensures |names| == |raw| && forall i :: 0 <= i < |raw| ==> names[i] == Renamed(remap, Trim(raw[i]))
  {
    seq(|raw|, i requires 0 <= i < |raw| => Renamed(remap, Trim(raw[i])))
  }

  /** The links that remain: blank, unknown and repeated ones are dropped, the rest stay in order. */
  function Links(raw: seq<string>, remap: map<string, string>, m: Entries): seq<string> {
    Firsts(Targets(raw, remap), m.Keys - {""}, |raw|)
  }

  lemma LinksAre(raw: seq<string>, remap: map<string, string>, m: Entries)
    ensures var names, ids := Targets(raw, remap), Links(raw, remap, m);
            Distinct(ids) && InOrder(names, ids) && forall x :: x in ids <==> x != "" && x in m && x in names
  {
    hide Targets;
    var names := Targets(raw, remap);
    FirstsMembers(names, m.Keys - {""}, |raw|);
    FirstsInOrder(names, m.Keys - {""}, |raw|);
    assert names[..|raw|] == names;
  }

  method LinkIds(raw: seq<string>, remap: map<string, string>, m: Entries) returns (ids: seq<string>)
    ensures ids == Links(raw, remap, m) && Distinct(ids) && InOrder(Targets(raw, remap), ids)
    ensures forall x :: x in ids <==> x != "" && x in m && x in Targets(raw, remap)
  {
    hide Trim;
    hide Firsts;
    hide InOrder;
    ghost var names, known := Targets(raw, remap), m.Keys - {""};
    LinksAre(raw, remap, m);
    hide Targets;
    FirstsStart(names, known);
    ids := [];
    var seen: set<string> := {};
    var i := 0;
    while i < |raw|
      invariant 0 <= i <= |raw| == |names|
      invariant ids == Firsts(names, known, i) && forall x :: x in ids <==> x in seen
    {
      var id := Renamed(remap, Trim(raw[i]));
      assert id == names[i];
      FirstsStep(names, known, i);
      i := i + 1;
      if id == "" || id in seen { continue; }
      if id in m {
        seen := seen + {id};
        ids := ids + [id];
      }
    }
  }

  // ----- one group -----

  function Embedded(g: ProviderGroup): seq<Rule> { if g.providers.Some? then g.providers.value else [] }

  /** The links of a group: its explicit ids when there are global providers, else its embedded ones. */
  function RawIds(g: ProviderGroup, hasGlobal: bool): seq<string> {
    if hasGlobal && g.providerIds.Some? then g.providerIds.value
    else seq(|Embedded(g)|, i requires 0 <= i < |Embedded(g)| => Embedded(g)[i].id)
  }

  function ScopedIds(raw: seq<string>): set<string> {
    set r | r in raw && Trim(r) != "" :: Trim(r)
  }

  ghost predicate LinksOk(ids: seq<string>, providers: seq<Rule>, m: Entries) {
    |ids| == |providers| && Distinct(ids) &&
    forall i :: 0 <= i < |ids| ==> ids[i] in m && providers[i] == m[ids[i]]
  }

  /** Links are distinct, name table entries and carry them along; the active id is one of them. */
  ghost predicate GroupOk(g: ProviderGroup, m: Entries) {
    g.providerIds.Some? && g.providers.Some? && LinksOk(g.providerIds.value, g.providers.value, m) &&
    (g.activeProviderId.Some? ==> g.activeProviderId.value in g.providerIds.value)
  }

  lemma GroupOkGrows(g: ProviderGroup, m: Entries, m': Entries)
    requires GroupOk(g, m) && SubTable(m, m')
    ensures GroupOk(g, m')
  {
  }

  ghost predicate EntriesOk(t: Entries) { forall k :: k in t ==> EntryOk(t, k) }

  /** The embedded providers of a finished group are those its table files under its links. */
  lemma FinishedGroupIsCanonical(g: ProviderGroup, hasGlobal: bool, t: Entries)
    requires GroupOk(g, t) && EntriesOk(t)
    ensures CanonicalEmbedded(Embedded(g), ScopedIds(RawIds(g, hasGlobal)), t)
    ensures Targets(RawIds(g, hasGlobal), map[]) == g.providerIds.value
    ensures forall j :: 0 <= j < |Embedded(g)| ==> Key(Embedded(g)[j]) == g.providerIds.value[j]
  {
    hide Trim;
    hide Normal;
    var ids, ps, raw := g.providerIds.value, g.providers.value, RawIds(g, hasGlobal);
    forall j | 0 <= j < |ids| ensures Trim(raw[j]) == ids[j] && Key(ps[j]) == ids[j] && CanonicalProvider(ps[j], t) {
      assert EntryOk(t, ids[j]);
    }
    forall j | 0 <= j < |ids| ensures ids[j] in ScopedIds(raw) {
      assert EntryOk(t, ids[j]) && raw[j] in raw && Trim(raw[j]) != "";
    }
    assert Targets(raw, map[]) == ids;
  }

  function ListEntries(ids: seq<string>, m: Entries): (providers: seq<Rule>)
    requires forall i :: 0 <= i < |ids| ==> ids[i] in m
    ensures |providers| == |ids| && forall i :: 0 <= i < |ids| ==> providers[i] == m[ids[i]]
  {
    seq(|ids|, i requires 0 <= i < |ids| => m[ids[i]])
  }

  /** Only the links, the embedded copies and the active id of a group change. */
  ghost predicate SameGroup(g: ProviderGroup, g': ProviderGroup) {
    g' == g.(providerIds := g'.providerIds, providers := g'.providers, activeProviderId := g'.activeProviderId)
  }

  /** Every embedded provider in scope has an entry under its key. */
  ghost predicate KeysFiled(g: ProviderGroup, hasGlobal: bool, m: Entries) {
    forall j :: 0 <= j < |Embedded(g)| && Scoped(Embedded(g)[j], ScopedIds(RawIds(g, hasGlobal))) ==>
      Key(Embedded(g)[j]) in m
  }

  /** What becomes of a group, `m` being the table after its own providers have been filed. */
  ghost predicate GroupResult(
    g: ProviderGroup, hasGlobal: bool, g': ProviderGroup, remap: map<string, string>, m: Entries)
  {
    SameGroup(g, g') && GroupOk(g', m) && RemapOk(remap, m, Embedded(g)) && KeysFiled(g, hasGlobal, m) &&
    g'.providerIds.value == Links(RawIds(g, hasGlobal), remap, m) &&
    g'.activeProviderId == if ActiveLinked(g, g') then g.activeProviderId else None
  }

  ghost predicate ActiveLinked(g: ProviderGroup, g': ProviderGroup) {
    g.activeProviderId.Some? && g'.providerIds.Some? && g.activeProviderId.value in g'.providerIds.value
  }

  /** An embedded provider that is in scope stays reachable. If no other one of the group has its key,
      the group links to it. */
  ghost predicate GroupSurvives(
    g: ProviderGroup, hasGlobal: bool, g': ProviderGroup, remap: map<string, string>, m: Entries)
  {
    forall j :: 0 <= j < |Embedded(g)| && Scoped(Embedded(g)[j], ScopedIds(RawIds(g, hasGlobal))) ==>
      Reached(Embedded(g)[j], remap, m) && (OnlyWithKey(Embedded(g), j) ==> StaysLinked(Embedded(g)[j], g', remap, m))
  }

  ghost predicate OnlyWithKey(embedded: seq<Rule>, j: int)
    requires 0 <= j < |embedded|
  {
    forall i :: 0 <= i < |embedded| && Key(embedded[i]) == Key(embedded[j]) ==> i == j
  }

  ghost predicate StaysLinked(p: Rule, g': ProviderGroup, remap: map<string, string>, m: Entries) {
    g'.providerIds.Some? && Renamed(remap, Key(p)) in g'.providerIds.value && FiledAs(p, Renamed(remap, Key(p)), m)
  }

  lemma RenamedLeadsHome(embedded: seq<Rule>, j: int, remap: map<string, string>, m: Entries)
    requires 0 <= j < |embedded| && OnlyWithKey(embedded, j) && RemapOk(remap, m, embedded)
    requires Reached(embedded[j], remap, m)
    ensures FiledAs(embedded[j], Renamed(remap, Key(embedded[j])), m)
  {
    hide Key;
    hide FiledAs;
    var k := Key(embedded[j]);
    if k in remap { assert RenamedFrom(k, remap[k], m, embedded); }
  }

  lemma ReachedStaysLinked(
    g: ProviderGroup, hasGlobal: bool, g': ProviderGroup, remap: map<string, string>, m: Entries, j: int)
    requires EntriesOk(m) && GroupResult(g, hasGlobal, g', remap, m) && 0 <= j < |Embedded(g)|
    requires Scoped(Embedded(g)[j], ScopedIds(RawIds(g, hasGlobal))) && Reached(Embedded(g)[j], remap, m)
    requires OnlyWithKey(Embedded(g), j)
    ensures StaysLinked(Embedded(g)[j], g', remap, m)
  {
    hide Trim;
    hide Normal;
    hide Normalizes;
    hide Links;
    hide Reached;
    hide RemapOk;
    var raw, p := RawIds(g, hasGlobal), Embedded(g)[j];
    hide RawIds;
    RenamedLeadsHome(Embedded(g), j, remap, m);
    LinksAre(raw, remap, m);
    var r :| r in raw && Trim(r) == Key(p);
    var i :| 0 <= i < |raw| && raw[i] == r;
    var x := Renamed(remap, Key(p));
    assert Targets(raw, remap)[i] == x;
    assert EntryOk(m, x);
  }

  ghost predicate GroupDecided(
    g: ProviderGroup, hasGlobal: bool, same: Compare, newId: set<string> -> string, reserved: set<string>)
  {
    Decided(Embedded(g), ScopedIds(RawIds(g, hasGlobal)), same, newId, reserved)
  }

  ghost predicate GroupTracks(
    g: ProviderGroup, hasGlobal: bool, m: Entries, m': Entries, remap: map<string, string>, reserved: set<string>)
  {
    Tracks(Embedded(g), |Embedded(g)|, ScopedIds(RawIds(g, hasGlobal)), m, m', remap, reserved)
  }

  /** One group. `remap` says which ids were renamed on the way. */
  method NormalizeGroup(
    g: ProviderGroup, hasGlobal: bool, m: Entries, order: seq<string>, same: Compare, call: nat,
    newId: set<string> -> string, ghost t: Entries, ghost reserved: set<string>)
    returns (g': ProviderGroup, m': Entries, order': seq<string>, call': nat, ghost remap: map<string, string>)
    requires TableOk(m, order) && GivesFresh(newId)
    ensures TableOk(m', order') && Grows(m, order, m', order')
    ensures GroupResult(g, hasGlobal, g', remap, m')
    ensures NewSourced(m, m', ScopedRules(Embedded(g), ScopedIds(RawIds(g, hasGlobal))))
    ensures Faithful(same) ==> GroupSurvives(g, hasGlobal, g', remap, m')
    ensures GroupDecided(g, hasGlobal, same, newId, reserved) ==> GroupTracks(g, hasGlobal, m, m', remap, reserved)
    ensures AllSelfSame(same, Embedded(g)) && SubTable(m, t) && EntriesOk(t) && GroupOk(g, t) ==>
              g' == g && SubTable(m', t)
  {
    hide Trim, Normal, Targets, ScopedIds, RawIds, TableOk, EmbeddedFiled, EntriesOk, ScopedRules, NewSourced, RemapOk;
    hide GroupSurvives, Links, InOrder, AllSelfSame, Faithful, GivesFresh, Decided, Tracks;
    ghost var canonical := AllSelfSame(same, Embedded(g)) && SubTable(m, t) && EntriesOk(t) && GroupOk(g, t);
    if canonical { FinishedGroupIsCanonical(g, hasGlobal, t); }
    var raw := RawIds(g, hasGlobal);
    var scoped := ScopedIds(raw);
    var renames;
    m', order', renames, call' := MergeEmbedded(Embedded(g), scoped, m, order, same, call, newId, t, reserved);
    remap := renames;
    var ids := LinkIds(raw, renames, m');
    var providers := ListEntries(ids, m');
    var active := if g.activeProviderId.Some? && g.activeProviderId.value in ids then g.activeProviderId else None;
    g' := g.(providerIds := Some(ids), providers := Some(providers), activeProviderId := active);
    EmbeddedEnds(g, hasGlobal, g', remap, m, m', order', same);
    if canonical {
      FinishedGroupStays(g, hasGlobal, m', t);
      assert ids == g.providerIds.value;
      assert providers == g.providers.value;
    }
  }

  lemma EmbeddedEnds(
    g: ProviderGroup, hasGlobal: bool, g': ProviderGroup, remap: map<string, string>,
    m: Entries, m': Entries, order': seq<string>, same: Compare)
    requires EmbeddedFiled(Embedded(g), |Embedded(g)|, ScopedIds(RawIds(g, hasGlobal)), m, m', remap, same)
    requires TableOk(m', order') && SameGroup(g, g') && GroupOk(g', m')
    requires g'.providerIds.value == Links(RawIds(g, hasGlobal), remap, m')
    requires g'.activeProviderId == if ActiveLinked(g, g') then g.activeProviderId else None
    ensures GroupResult(g, hasGlobal, g', remap, m')
    ensures NewSourced(m, m', ScopedRules(Embedded(g), ScopedIds(RawIds(g, hasGlobal))))
    ensures Faithful(same) ==> GroupSurvives(g, hasGlobal, g', remap, m')
  {
    hide Trim;
    hide Normal;
    hide Reached;
    hide RawIds;
    hide ScopedIds;
    hide StaysLinked;
    hide OnlyWithKey;
    hide RemapOk;
    hide NewSourced;
    hide Faithful;
    hide Links;
    if Faithful(same) {
      forall j | 0 <= j < |Embedded(g)| && Scoped(Embedded(g)[j], ScopedIds(RawIds(g, hasGlobal)))
        ensures Reached(Embedded(g)[j], remap, m')
        ensures OnlyWithKey(Embedded(g), j) ==> StaysLinked(Embedded(g)[j], g', remap, m')
      {
        if OnlyWithKey(Embedded(g), j) { ReachedStaysLinked(g, hasGlobal, g', remap, m', j); }
      }
    }
  }

  /** A finished group keeps its links, and the entries behind them are its embedded providers. */
  lemma FinishedGroupStays(g: ProviderGroup, hasGlobal: bool, m: Entries, t: Entries)
    requires GroupOk(g, t) && EntriesOk(t) && SubTable(m, t)
    requires KeysFiled(g, hasGlobal, m)
    ensures Links(RawIds(g, hasGlobal), map[], m) == g.providerIds.value
    ensures forall i :: 0 <= i < |g.providerIds.value| ==>
              g.providerIds.value[i] in m && m[g.providerIds.value[i]] == g.providers.value[i]
  {
    hide Trim;
    hide Normal;
    hide ScopedIds;
    FinishedGroupIsCanonical(g, hasGlobal, t);
    var ids := g.providerIds.value;
    forall i | 0 <= i < |ids| ensures ids[i] in m && ids[i] != "" && m[ids[i]] == g.providers.value[i] {
      assert CanonicalProvider(Embedded(g)[i], t) && Key(Embedded(g)[i]) == ids[i];
      assert Scoped(Embedded(g)[i], ScopedIds(RawIds(g, hasGlobal)));
    }
    FirstsAll(ids, m.Keys - {""}, |ids|);
    assert ids[..|ids|] == ids;
  }

  // ----- all groups -----

  ghost predicate GroupsOk(groups: seq<ProviderGroup>, m: Entries) {
    forall i :: 0 <= i < |groups| ==> GroupOk(groups[i], m)
  }

  lemma GroupSurvivalGrows(
    g: ProviderGroup, hasGlobal: bool, g': ProviderGroup, remap: map<string, string>, m: Entries, m': Entries)
    requires GroupSurvives(g, hasGlobal, g', remap, m) && SubTable(m, m')
    ensures GroupSurvives(g, hasGlobal, g', remap, m')
  {
    hide Key;
    hide Reached;
    hide FiledAs;
    hide ScopedIds;
    hide RawIds;
    hide OnlyWithKey;
    forall j | 0 <= j < |Embedded(g)| && Scoped(Embedded(g)[j], ScopedIds(RawIds(g, hasGlobal)))
      ensures Reached(Embedded(g)[j], remap, m')
      ensures OnlyWithKey(Embedded(g), j) ==> StaysLinked(Embedded(g)[j], g', remap, m')
    {
      var p := Embedded(g)[j];
      ReachedGrows(p, remap, m, m');
      if OnlyWithKey(Embedded(g), j) { FiledAsGrows(p, Renamed(remap, Key(p)), m, m'); }
    }
  }

  /** One turn of the group loop: the renamed ids and the table it left behind. */
  datatype Turn = Turn(remap: map<string, string>, table: Entries)

  /** Every group has its result, from the table of its own turn, which lies between `base` and `m`. */
  ghost predicate GroupsDone(
    groups: seq<ProviderGroup>, hasGlobal: bool, gs: seq<ProviderGroup>, turns: seq<Turn>, base: Entries, m: Entries)
  {
    |gs| == |turns| <= |groups| &&
    forall i :: 0 <= i < |gs| ==>
      SubTable(base, turns[i].table) && SubTable(turns[i].table, m) &&
      GroupResult(groups[i], hasGlobal, gs[i], turns[i].remap, turns[i].table)
  }

  ghost predicate GroupsSurvive(
    groups: seq<ProviderGroup>, hasGlobal: bool, gs: seq<ProviderGroup>, turns: seq<Turn>, m: Entries)
  {
    |gs| == |turns| <= |groups| &&
    forall i :: 0 <= i < |gs| ==> GroupSurvives(groups[i], hasGlobal, gs[i], turns[i].remap, m)
  }

  function TableBefore(base: Entries, turns: seq<Turn>, i: nat): Entries
    requires i <= |turns|
  {
    if i == 0 then base else turns[i - 1].table
  }

  /** Every turn keeps track of the reserved keys. */
  ghost predicate TurnsTrack(
    groups: seq<ProviderGroup>, hasGlobal: bool, turns: seq<Turn>, base: Entries, reserved: set<string>)
  {
    |turns| <= |groups| &&
    forall i :: 0 <= i < |turns| ==>
      GroupTracks(groups[i], hasGlobal, TableBefore(base, turns, i), turns[i].table, turns[i].remap, reserved)
  }

  lemma TurnTracks(
    groups: seq<ProviderGroup>, hasGlobal: bool, turns: seq<Turn>, base: Entries, reserved: set<string>,
    m: Entries, remap: map<string, string>)
    requires TurnsTrack(groups, hasGlobal, turns, base, reserved) && |turns| < |groups|
    requires GroupTracks(groups[|turns|], hasGlobal, TableBefore(base, turns, |turns|), m, remap, reserved)
    ensures TurnsTrack(groups, hasGlobal, turns + [Turn(remap, m)], base, reserved)
  {
    hide GroupTracks;
    var turns' := turns + [Turn(remap, m)];
    forall i | 0 <= i < |turns'|
      ensures GroupTracks(groups[i], hasGlobal, TableBefore(base, turns', i), turns'[i].table, turns'[i].remap, reserved)
    {
      assert TableBefore(base, turns', i) == TableBefore(base, turns, i);
    }
  }

  ghost predicate AllDecided(
    groups: seq<ProviderGroup>, hasGlobal: bool, same: Compare, newId: set<string> -> string, reserved: set<string>)
  {
    forall i :: 0 <= i < |groups| ==> GroupDecided(groups[i], hasGlobal, same, newId, reserved)
  }

  /** The embedded providers of the groups compare equal to themselves. */
  ghost predicate StableFor(same: Compare, groups: seq<ProviderGroup>) {
    forall i :: 0 <= i < |groups| ==> AllSelfSame(same, Embedded(groups[i]))
  }

  /** The embedded providers in scope of their group. */
  function InScope(groups: seq<ProviderGroup>, hasGlobal: bool): set<Rule> {
    set g, p | g in groups && p in ScopedRules(Embedded(g), ScopedIds(RawIds(g, hasGlobal))) :: p
  }

  lemma TurnDone(
    groups: seq<ProviderGroup>, hasGlobal: bool, gs: seq<ProviderGroup>, turns: seq<Turn>, base: Entries, n: Entries,
    m: Entries, g: ProviderGroup, remap: map<string, string>)
    requires GroupsDone(groups, hasGlobal, gs, turns, base, n) && |gs| < |groups|
    requires SubTable(base, n) && SubTable(n, m)
    requires GroupResult(groups[|gs|], hasGlobal, g, remap, m)
    ensures GroupsDone(groups, hasGlobal, gs + [g], turns + [Turn(remap, m)], base, m)
  {
    hide GroupResult;
  }

  lemma TurnSurvives(
    groups: seq<ProviderGroup>, hasGlobal: bool, gs: seq<ProviderGroup>, turns: seq<Turn>, n: Entries,
    m: Entries, g: ProviderGroup, remap: map<string, string>)
    requires GroupsSurvive(groups, hasGlobal, gs, turns, n) && |gs| < |groups| && SubTable(n, m)
    requires GroupSurvives(groups[|gs|], hasGlobal, g, remap, m)
    ensures GroupsSurvive(groups, hasGlobal, gs + [g], turns + [Turn(remap, m)], m)
  {
    hide GroupSurvives;
    forall i | 0 <= i < |gs| ensures GroupSurvives(groups[i], hasGlobal, gs[i], turns[i].remap, m) {
      GroupSurvivalGrows(groups[i], hasGlobal, gs[i], turns[i].remap, n, m);
    }
  }

  lemma TurnSourced(groups: seq<ProviderGroup>, hasGlobal: bool, i: nat, m: Entries, n: Entries, m': Entries)
    requires i < |groups| && NewSourced(m, n, InScope(groups, hasGlobal)) && SubTable(n, m')
    requires NewSourced(n, m', ScopedRules(Embedded(groups[i]), ScopedIds(RawIds(groups[i], hasGlobal))))
    ensures NewSourced(m, m', InScope(groups, hasGlobal))
  {
    hide ScopedRules;
    var g := groups[i];
    var new_ := ScopedRules(Embedded(g), ScopedIds(RawIds(g, hasGlobal)));
    assert new_ <= InScope(groups, hasGlobal);
    NewSourcedJoins(m, n, m', InScope(groups, hasGlobal), new_, InScope(groups, hasGlobal));
  }

  method NormalizeGroups(
    groups: seq<ProviderGroup>, hasGlobal: bool, m: Entries, order: seq<string>, same: Compare,
    newId: set<string> -> string, ghost t: Entries, ghost reserved: set<string>)
    returns (gs: seq<ProviderGroup>, m': Entries, order': seq<string>, ghost turns: seq<Turn>)
    requires TableOk(m, order) && GivesFresh(newId)
    ensures TableOk(m', order') && Grows(m, order, m', order')
    ensures |gs| == |groups| && GroupsDone(groups, hasGlobal, gs, turns, m, m')
    ensures NewSourced(m, m', InScope(groups, hasGlobal))
    ensures Faithful(same) ==> GroupsSurvive(groups, hasGlobal, gs, turns, m')
    ensures AllDecided(groups, hasGlobal, same, newId, reserved) ==> TurnsTrack(groups, hasGlobal, turns, m, reserved)
    ensures StableFor(same, groups) && SubTable(m, t) && EntriesOk(t) && GroupsOk(groups, t) ==>
              gs == groups && SubTable(m', t)
  {
    hide TableOk, GroupOk, GroupResult, GroupSurvives, GroupsSurvive, GroupsDone, EntriesOk, NewSourced, InScope;
    hide AllSelfSame, Faithful, GivesFresh, GroupDecided, GroupTracks, TurnsTrack;
    ghost var canonical := StableFor(same, groups) && SubTable(m, t) && EntriesOk(t) && GroupsOk(groups, t);
    ghost var decided := AllDecided(groups, hasGlobal, same, newId, reserved);
    m', order', gs, turns := m, order, [], [];
    TurnsStart(groups, hasGlobal, m, reserved);
    var call, i := 0, 0;
    while i < |groups|
      invariant 0 <= i <= |groups| && |gs| == |turns| == i
      invariant TableOk(m', order') && Grows(m, order, m', order')
      invariant GroupsDone(groups, hasGlobal, gs, turns, m, m')
      invariant NewSourced(m, m', InScope(groups, hasGlobal))
      invariant Faithful(same) ==> GroupsSurvive(groups, hasGlobal, gs, turns, m')
      invariant m' == TableBefore(m, turns, i) && (decided ==> TurnsTrack(groups, hasGlobal, turns, m, reserved))
      invariant canonical ==> gs == groups[..i] && SubTable(m', t)
    {
      ghost var before := m';
      var g;
      ghost var remap;
      g, m', order', call, remap := NormalizeGroup(groups[i], hasGlobal, m', order', same, call, newId, t, reserved);
      TurnDone(groups, hasGlobal, gs, turns, m, before, m', g, remap);
      TurnSourced(groups, hasGlobal, i, m, before, m');
      if Faithful(same) { TurnSurvives(groups, hasGlobal, gs, turns, before, m', g, remap); }
      if decided { TurnTracks(groups, hasGlobal, turns, m, reserved, m', remap); }
      gs, turns := gs + [g], turns + [Turn(remap, m')];
      i := i + 1;
    }
  }

  lemma TurnsStart(groups: seq<ProviderGroup>, hasGlobal: bool, m: Entries, reserved: set<string>)
    ensures TurnsTrack(groups, hasGlobal, [], m, reserved)
    ensures GroupsDone(groups, hasGlobal, [], [], m, m) && GroupsSurvive(groups, hasGlobal, [], [], m)
    ensures NewSourced(m, m, InScope(groups, hasGlobal))
  {
  }

  lemma DoneGroupsFit(
    groups: seq<ProviderGroup>, hasGlobal: bool, gs: seq<ProviderGroup>, turns: seq<Turn>, base: Entries, m: Entries)
    requires GroupsDone(groups, hasGlobal, gs, turns, base, m)
    ensures GroupsOk(gs, m)
  {
    forall i | 0 <= i < |gs| ensures GroupOk(gs[i], m) { GroupOkGrows(gs[i], turns[i].table, m); }
  }

  /** Every provider that can end up in the table: global ones and embedded ones in scope. */
  function Given(groups: seq<ProviderGroup>, providers: seq<Rule>): set<Rule> {
    Rules(providers) + InScope(groups, HasGlobal(providers))
  }

  /** The ids that matter to a config: keys of global providers and links of groups. */
  function Reserved(groups: seq<ProviderGroup>, providers: seq<Rule>): set<string> {
    NonBlank(Keys(providers)) + (set g, k | g in groups && k in ScopedIds(RawIds(g, HasGlobal(providers))) :: k)
  }

  method NormalizeGroupsAndProviders(
    groups: seq<ProviderGroup>, providers: seq<Rule>, same: Compare, newId: set<string> -> string, ghost t: Entries)
    returns (gs: seq<ProviderGroup>, ps: seq<Rule>, ghost base: Entries, ghost m: Entries, ghost order: seq<string>,
             ghost turns: seq<Turn>)
    requires GivesFresh(newId)
    ensures TableOk(m, order) && (forall i :: 0 <= i < |order| ==> order[i] in m) && ps == ListEntries(order, m)
    ensures Firsts(Keys(providers), NonBlank(Keys(providers)), |providers|) <= order
    ensures FirstsFiled(providers, |providers|, base) && base.Keys == NonBlank(Keys(providers)) && SubTable(base, m)
    ensures |gs| == |groups| && GroupsDone(groups, HasGlobal(providers), gs, turns, base, m)
    ensures NewSourced(map[], base, Rules(providers)) && NewSourced(base, m, InScope(groups, HasGlobal(providers)))
    ensures Faithful(same) ==> GroupsSurvive(groups, HasGlobal(providers), gs, turns, m)
    ensures AllDecided(groups, HasGlobal(providers), same, newId, Reserved(groups, providers)) ==>
              TurnsTrack(groups, HasGlobal(providers), turns, base, Reserved(groups, providers))
    ensures StableFor(same, groups) && EntriesOk(t) && CanonicalList(providers, t) && GroupsOk(groups, t) ==>
              gs == groups && SubTable(m, t) && |providers| <= |order| &&
              forall i :: 0 <= i < |providers| ==> order[i] == Key(providers[i])
  {
    hide Key, TableOk, GroupsOk, GroupsDone, GroupsSurvive, EntriesOk, CanonicalList, HasGlobal, NewSourced, InScope;
    hide Normalizes, Firsts, StableFor, Faithful, GivesFresh, Reserved, AllDecided, TurnsTrack;
    var table, ids := MergeGlobal(providers, t);
    base := table;
    var hasGlobal := ids != [];
    gs, table, ids, turns := NormalizeGroups(
      groups, hasGlobal, table, ids, same, newId, t, Reserved(groups, providers));
    TableListsAll(table, ids);
    ps := ListEntries(ids, table);
    m, order := table, ids;
  }

  lemma TableListsAll(m: Entries, order: seq<string>)
    requires TableOk(m, order)
    ensures forall i :: 0 <= i < |order| ==> order[i] in m
  {
  }

  // ----- the whole config -----

  predicate KeepGroup(g: ProviderGroup) {
    g.routingTable != [] || (g.providerIds.Some? && g.providerIds.value != []) ||
    (g.providers.Some? && g.providers.value != [])
  }

  predicate KeepProvider(p: Rule) {
    p.models != [] || p.defaultModel.Some? || (p.modelMappings.Some? && p.modelMappings.value != map[])
  }

  lemma {:induction false} KeptListIsCanonical(ps: seq<Rule>, keep: Rule -> bool, t: Entries)
    requires CanonicalList(ps, t)
    ensures CanonicalList(Keep(ps, keep), t)
  {
    hide Trim;
    hide Normal;
    if ps != [] {
      var n := |ps| - 1;
      KeptListIsCanonical(ps[..n], keep, t);
      var kept := Keep(ps[..n], keep);
      forall i | 0 <= i < |kept| ensures Key(kept[i]) != Key(ps[n]) {
        KeepMembers(ps[..n], keep, kept[i]);
      }
    }
  }

  /** A config in storage form, with `t` the table behind it: providers are normal and have distinct
      keys, groups fit the table, and exactly the model-less providers have been dropped from the list. */
  ghost predicate CanonicalConfig(c: ProxyConfig, t: Entries) {
    EntriesOk(t) && CanonicalList(c.providers, t) && GroupsOk(c.groups, t) &&
    (forall i :: 0 <= i < |c.groups| ==> KeepGroup(c.groups[i])) &&
    (forall i :: 0 <= i < |c.providers| ==> KeepProvider(c.providers[i])) &&
    (forall k :: k in t && KeepProvider(t[k]) ==> t[k] in c.providers)
  }

  ghost predicate Canonical(c: ProxyConfig) { exists t :: CanonicalConfig(c, t) }

  lemma ListedIsCanonical(m: Entries, order: seq<string>, ps: seq<Rule>)
    requires TableOk(m, order) && (forall i :: 0 <= i < |order| ==> order[i] in m) && ps == ListEntries(order, m)
    ensures EntriesOk(m) && CanonicalList(ps, m)
  {
    hide Trim;
    hide Normal;
    forall i | 0 <= i < |ps| ensures CanonicalProvider(ps[i], m) && Key(ps[i]) == order[i] {
      assert EntryOk(m, order[i]);
    }
  }

  /** On a canonical config the entries beyond the listed providers are dropped again. */
  lemma CanonicalProvidersReappear(c: ProxyConfig, t: Entries, m: Entries, order: seq<string>)
    requires CanonicalConfig(c, t) && TableOk(m, order) && SubTable(m, t) && |c.providers| <= |order|
    requires forall i :: 0 <= i < |order| ==> order[i] in m
    requires forall i :: 0 <= i < |c.providers| ==> order[i] == Key(c.providers[i])
    ensures Keep(ListEntries(order, m), KeepProvider) == c.providers
  {
    hide Trim;
    hide Normal;
    var all, n := ListEntries(order, m), |c.providers|;
    forall i | 0 <= i < n ensures all[i] == c.providers[i] {
      assert CanonicalProvider(c.providers[i], t);
    }
    forall i | n <= i < |all| ensures !KeepProvider(all[i]) {
      assert EntryOk(t, order[i]) && all[i] == t[order[i]];
    }
    assert all[..n] == c.providers;
    KeepPrefix(all, KeepProvider, n);
    KeepAll(c.providers, KeepProvider);
  }

  lemma EveryEntryListed(m: Entries, order: seq<string>)
    requires TableOk(m, order) && forall i :: 0 <= i < |order| ==> order[i] in m
    ensures forall k :: k in m ==> m[k] in ListEntries(order, m)
  {
    hide Trim;
    hide Normal;
    forall k | k in m ensures m[k] in ListEntries(order, m) {
      var i :| 0 <= i < |order| && order[i] == k;
      assert ListEntries(order, m)[i] == m[k];
    }
  }

  lemma KeptIsCanonical(gs: seq<ProviderGroup>, ps: seq<Rule>, m: Entries, order: seq<string>, rest: string)
    requires TableOk(m, order) && (forall i :: 0 <= i < |order| ==> order[i] in m) && ps == ListEntries(order, m)
    requires GroupsOk(gs, m)
    ensures CanonicalConfig(ProxyConfig(Keep(gs, KeepGroup), Keep(ps, KeepProvider), rest), m)
  {
    hide Trim;
    hide TableOk;
    hide CanonicalList;
    hide EntriesOk;
    hide GroupOk;
    hide KeepGroup;
    hide KeepProvider;
    ListedIsCanonical(m, order, ps);
    KeptListIsCanonical(ps, KeepProvider, m);
    EveryEntryListed(m, order);
    var kept, keptGroups := Keep(ps, KeepProvider), Keep(gs, KeepGroup);
    forall p ensures p in kept <==> p in ps && KeepProvider(p) { KeepMembers(ps, KeepProvider, p); }
    forall i | 0 <= i < |keptGroups| ensures GroupOk(keptGroups[i], m) && KeepGroup(keptGroups[i]) {
      KeepMembers(gs, KeepGroup, keptGroups[i]);
    }
  }

  /** How a result came about: the table after the global providers, the result and the turn of every
      group, and the order of the final table. */
  datatype Trail = Trail(global: Entries, groups: seq<ProviderGroup>, turns: seq<Turn>, order: seq<string>)

  /** What normalisation makes of a config: the first provider of each key is filed, keys in order of
      first occurrence lead the table, new entries are embedded providers in scope, there is one result
      per group in order, less the empty ones, and the entries of the table in order, less the model-less
      ones. */
  ghost predicate Follows(c: ProxyConfig, r: ProxyConfig, table: Entries, trail: Trail) {
    |trail.groups| == |c.groups| &&
    trail.global.Keys == NonBlank(Keys(c.providers)) && FirstsFiled(c.providers, |c.providers|, trail.global) &&
    NewSourced(map[], trail.global, Rules(c.providers)) && SubTable(trail.global, table) &&
    NewSourced(trail.global, table, InScope(c.groups, HasGlobal(c.providers))) &&
    GroupsDone(c.groups, HasGlobal(c.providers), trail.groups, trail.turns, trail.global, table) &&
    TableOk(table, trail.order) && (forall i :: 0 <= i < |trail.order| ==> trail.order[i] in table) &&
    Firsts(Keys(c.providers), NonBlank(Keys(c.providers)), |c.providers|) <= trail.order &&
    r.rest == c.rest && r.groups == Keep(trail.groups, KeepGroup) &&
    r.providers == Keep(ListEntries(trail.order, table), KeepProvider)
  }

  /** Groups have no embedded providers. */
  ghost predicate OnlyLinks(c: ProxyConfig) { forall g :: g in c.groups ==> Embedded(g) == [] }

  /** The config decides what becomes of it: groups only link, or the given providers are normal and
      compare equal exactly to themselves, and no allocated id is one the config uses. */
  ghost predicate Settled(c: ProxyConfig, same: Compare, newId: set<string> -> string) {
    OnlyLinks(c) ||
    (Faithful(same) && Avoids(newId, Reserved(c.groups, c.providers)) &&
     forall p :: p in Given(c.groups, c.providers) ==> Normal(p) && SelfSame(same, p))
  }

  lemma SettledDecides(c: ProxyConfig, same: Compare, newId: set<string> -> string)
    requires Settled(c, same, newId)
    ensures AllDecided(c.groups, HasGlobal(c.providers), same, newId, Reserved(c.groups, c.providers))
  {
    hide Key, Normal, SelfSame, Faithful, Avoids, RawIds, HasGlobal;
    forall i | 0 <= i < |c.groups|
      ensures GroupDecided(c.groups[i], HasGlobal(c.providers), same, newId, Reserved(c.groups, c.providers))
    {
      var g := c.groups[i];
      var embedded, scoped := Embedded(g), ScopedIds(RawIds(g, HasGlobal(c.providers)));
      hide ScopedIds;
      forall j | 0 <= j < |embedded| && Scoped(embedded[j], scoped)
        ensures embedded[j] in Given(c.groups, c.providers) && Key(embedded[j]) in Reserved(c.groups, c.providers)
      {
        assert g in c.groups && embedded[j] in ScopedRules(embedded, scoped);
      }
    }
  }

  /** `r` is what normalising `c` gives, with `t` the table behind it and `trail` how it came about. It is
      canonical whatever the comparisons answer, and the config was canonical if it is unchanged. A
      canonical config is unchanged when its embedded providers compare equal to themselves. When only
      equal providers compare equal, embedded providers in scope survive; when the config is settled,
      the turns of the groups keep track of its keys. */
  ghost predicate NormalForm(
    c: ProxyConfig, r: ProxyConfig, t: Entries, trail: Trail, same: Compare, newId: set<string> -> string)
  {
    CanonicalConfig(r, t) && Follows(c, r, t, trail) && (r == c ==> Canonical(c)) &&
    (StableFor(same, c.groups) && Canonical(c) ==> r == c) &&
    (Faithful(same) ==> GroupsSurvive(c.groups, HasGlobal(c.providers), trail.groups, trail.turns, t)) &&
    (Settled(c, same, newId) ==>
       TurnsTrack(c.groups, HasGlobal(c.providers), trail.turns, trail.global, Reserved(c.groups, c.providers)))
  }

  ghost predicate NormalFormOf(c: ProxyConfig, r: ProxyConfig, same: Compare, newId: set<string> -> string) {
    exists t, trail :: NormalForm(c, r, t, trail, same, newId)
  }

  lemma EveryEntryGiven(c: ProxyConfig, r: ProxyConfig, t: Entries, trail: Trail)
    requires Follows(c, r, t, trail)
    ensures NewSourced(map[], t, Given(c.groups, c.providers))
  {
    hide NewSourced, GroupsDone, TableOk, InScope, Rules, HasGlobal;
    NewSourcedJoins(map[], trail.global, t, Rules(c.providers), InScope(c.groups, HasGlobal(c.providers)),
                    Given(c.groups, c.providers));
  }

  // ----- the outcome, group by group and entry by entry -----

  /** Some global provider has an id. */
  ghost predicate SomeGlobal(c: ProxyConfig) { exists p :: p in c.providers && Trim(p.id) != "" }

  /** The ids a group stands by: its explicit ones when there are global providers, else those of its own. */
  ghost predicate Stands(c: ProxyConfig, g: ProviderGroup, id: string) {
    if SomeGlobal(c) && g.providerIds.Some? then id in g.providerIds.value
    else g.providers.Some? && exists p :: p in g.providers.value && p.id == id
  }

  /** `x` is what `id` was renamed to, or `id` itself, trimmed. */
  ghost predicate RenamesTo(remap: map<string, string>, id: string, x: string) {
    x == if Trim(id) in remap then remap[Trim(id)] else Trim(id)
  }

  /** What becomes of a group: its links are the filed ids it stands by, everything but links, embedded
      copies and active id stays, and the active id stays exactly if it is linked. */
  ghost predicate GroupOutcome(c: ProxyConfig, g: ProviderGroup, g': ProviderGroup, turn: Turn) {
    g'.id == g.id && g'.name == g.name && g'.routingTable == g.routingTable && g'.models == g.models &&
    g'.failover == g.failover && g'.providerIds.Some? && g'.providers.Some? &&
    var ids, ps := g'.providerIds.value, g'.providers.value;
    (forall x :: x in ids <==> x != "" && x in turn.table && exists id :: Stands(c, g, id) && RenamesTo(turn.remap, id, x)) &&
    |ps| == |ids| && (forall i :: 0 <= i < |ids| ==> ids[i] in turn.table && ps[i] == turn.table[ids[i]]) &&
    forall a :: g'.activeProviderId == Some(a) <==> g.activeProviderId == Some(a) && a in ids
  }

  lemma SomeGlobalMeansKeys(c: ProxyConfig)
    ensures HasGlobal(c.providers) <==> SomeGlobal(c)
  {
    hide Trim;
    if p :| p in c.providers && Trim(p.id) != "" {
      var i :| 0 <= i < |c.providers| && c.providers[i] == p;
      assert Key(c.providers[i]) != "";
    }
    if HasGlobal(c.providers) {
      var i :| 0 <= i < |c.providers| && Key(c.providers[i]) != "";
      assert c.providers[i] in c.providers;
    }
  }

  lemma StandsBy(c: ProxyConfig, g: ProviderGroup, id: string)
    ensures id in RawIds(g, HasGlobal(c.providers)) <==> Stands(c, g, id)
  {
    SomeGlobalMeansKeys(c);
    hide HasGlobal, SomeGlobal;
    var raw := RawIds(g, HasGlobal(c.providers));
    if Stands(c, g, id) && !(HasGlobal(c.providers) && g.providerIds.Some?) {
      var p :| p in g.providers.value && p.id == id;
      var j :| 0 <= j < |Embedded(g)| && Embedded(g)[j] == p;
      assert raw[j] == id;
    }
    if id in raw && !(HasGlobal(c.providers) && g.providerIds.Some?) {
      var j :| 0 <= j < |raw| && raw[j] == id;
      assert Embedded(g)[j] in Embedded(g);
    }
  }

  lemma TargetsAre(c: ProxyConfig, g: ProviderGroup, remap: map<string, string>, x: string)
    ensures x in Targets(RawIds(g, HasGlobal(c.providers)), remap) <==> exists id :: Stands(c, g, id) && RenamesTo(remap, id, x)
  {
    var raw := RawIds(g, HasGlobal(c.providers));
    var names := Targets(raw, remap);
    forall id ensures id in raw <==> Stands(c, g, id) { StandsBy(c, g, id); }
    hide RawIds, HasGlobal, Stands, Trim;
    if x in names {
      var i :| 0 <= i < |names| && names[i] == x;
      assert raw[i] in raw && RenamesTo(remap, raw[i], x);
    }
    if id :| Stands(c, g, id) && RenamesTo(remap, id, x) {
      var i :| 0 <= i < |raw| && raw[i] == id;
      assert names[i] == x;
    }
  }

  lemma ResultIsOutcome(c: ProxyConfig, g: ProviderGroup, g': ProviderGroup, turn: Turn)
    requires GroupResult(g, HasGlobal(c.providers), g', turn.remap, turn.table)
    ensures GroupOutcome(c, g, g', turn)
  {
    var raw := RawIds(g, HasGlobal(c.providers));
    hide RawIds, HasGlobal, Stands, RenamesTo, Trim, InOrder, KeysFiled, RemapOk, Links, Targets;
    LinksAre(raw, turn.remap, turn.table);
    forall x ensures x in Targets(raw, turn.remap) <==> exists id :: Stands(c, g, id) && RenamesTo(turn.remap, id, x) {
      TargetsAre(c, g, turn.remap, x);
    }
  }

  /** An own provider of a group, and the link it leads to. */
  ghost predicate OwnLeadsTo(g: ProviderGroup, remap: map<string, string>, p: Rule, x: string) {
    g.providers.Some? && p in g.providers.value && Trim(p.id) != "" && RenamesTo(remap, p.id, x)
  }

  lemma LinkIsOwn(c: ProxyConfig, g: ProviderGroup, turn: Turn, id: string, x: string)
    requires !SomeGlobal(c) && RemapOk(turn.remap, turn.table, Embedded(g))
    requires Stands(c, g, id) && RenamesTo(turn.remap, id, x) && x != ""
    ensures exists p :: OwnLeadsTo(g, turn.remap, p, x)
  {
    hide Trim, SomeGlobal;
    var p :| p in g.providers.value && p.id == id;
    assert OwnLeadsTo(g, turn.remap, p, x);
  }

  lemma OwnIsLinked(c: ProxyConfig, g: ProviderGroup, turn: Turn, p: Rule, x: string)
    requires !HasGlobal(c.providers) && !SomeGlobal(c) && EntriesOk(turn.table)
    requires RemapOk(turn.remap, turn.table, Embedded(g)) && KeysFiled(g, false, turn.table)
    requires OwnLeadsTo(g, turn.remap, p, x)
    ensures x != "" && x in turn.table && Stands(c, g, p.id) && RenamesTo(turn.remap, p.id, x)
  {
    hide Trim, SomeGlobal, HasGlobal, Normal;
    var j :| 0 <= j < |Embedded(g)| && Embedded(g)[j] == p;
    var raw := RawIds(g, false);
    assert raw[j] == p.id && raw[j] in raw;
    assert Scoped(p, ScopedIds(raw));
    assert x in turn.table;
    assert EntryOk(turn.table, x);
  }

  /** Without global providers a group links all of its own providers that have an id, and only those,
      whatever explicit ids it has. */
  lemma OwnProvidersLinked(c: ProxyConfig, g: ProviderGroup, g': ProviderGroup, turn: Turn)
    requires GroupResult(g, HasGlobal(c.providers), g', turn.remap, turn.table) && EntriesOk(turn.table)
    requires forall p :: p in c.providers ==> Trim(p.id) == ""
    ensures g'.providerIds.Some? && forall x :: x in g'.providerIds.value <==> exists p :: OwnLeadsTo(g, turn.remap, p, x)
  {
    ResultIsOutcome(c, g, g', turn);
    SomeGlobalMeansKeys(c);
    assert !SomeGlobal(c) && !HasGlobal(c.providers) && g'.providerIds.Some?;
    assert RemapOk(turn.remap, turn.table, Embedded(g)) && KeysFiled(g, false, turn.table);
    hide GroupResult, HasGlobal, SomeGlobal, Trim, RemapOk, KeysFiled, EntriesOk, Stands, RenamesTo, OwnLeadsTo, Embedded;
    var ids := g'.providerIds.value;
    forall x | x in ids ensures exists p :: OwnLeadsTo(g, turn.remap, p, x) {
      var id :| Stands(c, g, id) && RenamesTo(turn.remap, id, x);
      LinkIsOwn(c, g, turn, id, x);
    }
    forall p, x | OwnLeadsTo(g, turn.remap, p, x) ensures x in ids {
      OwnIsLinked(c, g, turn, p, x);
    }
  }

  /** Groups stay exactly if they have a route or a link, table entries exactly if they have a model, a
      default model or a mapping, all in order. */
  ghost predicate KeptExactly(
    c: ProxyConfig, r: ProxyConfig, results: seq<ProviderGroup>, turns: seq<Turn>, entries: seq<Rule>,
    groupPicks: seq<nat>, providerPicks: seq<nat>)
  {
    |results| == |turns| == |c.groups| && Picked(results, r.groups, groupPicks) && Picked(entries, r.providers, providerPicks) &&
    (forall n :: 0 <= n < |results| ==>
       GroupOutcome(c, c.groups[n], results[n], turns[n]) && results[n].providerIds.Some? &&
       (n in groupPicks <==> c.groups[n].routingTable != [] || results[n].providerIds.value != [])) &&
    forall n :: 0 <= n < |entries| ==>
      (n in providerPicks <==> SomethingToServe(entries[n]))
  }

  /** The provider has a model, a default model or a mapping. */
  ghost predicate SomethingToServe(p: Rule) {
    |p.models| > 0 || p.defaultModel != None || (p.modelMappings != None && exists k :: k in p.modelMappings.value)
  }

  lemma ProviderKeptExactly(p: Rule)
    ensures KeepProvider(p) <==> SomethingToServe(p)
  {
    if p.modelMappings.Some? && forall k :: k !in p.modelMappings.value { assert p.modelMappings.value == map[]; }
  }

  lemma GroupKeptExactly(c: ProxyConfig, g: ProviderGroup, g': ProviderGroup, turn: Turn)
    requires GroupResult(g, HasGlobal(c.providers), g', turn.remap, turn.table)
    ensures GroupOutcome(c, g, g', turn) && g'.providerIds.Some?
    ensures KeepGroup(g') <==> g.routingTable != [] || g'.providerIds.value != []
  {
    ResultIsOutcome(c, g, g', turn);
    hide GroupResult, Stands, RenamesTo;
  }

  lemma FollowsKeeps(c: ProxyConfig, r: ProxyConfig, t: Entries, trail: Trail)
    returns (groupPicks: seq<nat>, providerPicks: seq<nat>)
    requires Follows(c, r, t, trail)
    ensures KeptExactly(c, r, trail.groups, trail.turns, ListEntries(trail.order, t), groupPicks, providerPicks)
  {
    hide Key, NewSourced, TableOk, FirstsFiled, InScope, Rules, HasGlobal, Firsts, Picked, GroupResult, GroupOutcome;
    var entries := ListEntries(trail.order, t);
    groupPicks := KeepPicks(trail.groups, KeepGroup);
    providerPicks := KeepPicks(entries, KeepProvider);
    forall n | 0 <= n < |trail.groups|
      ensures GroupOutcome(c, c.groups[n], trail.groups[n], trail.turns[n]) && trail.groups[n].providerIds.Some?
      ensures KeepGroup(trail.groups[n]) <==> c.groups[n].routingTable != [] || trail.groups[n].providerIds.value != []
    {
      GroupKeptExactly(c, c.groups[n], trail.groups[n], trail.turns[n]);
    }
    forall n | 0 <= n < |entries|
      ensures KeepProvider(entries[n]) <==> SomethingToServe(entries[n])
    {
      ProviderKeptExactly(entries[n]);
    }
    hide KeepGroup, KeepProvider, SomethingToServe;
  }

  /** Exactly what has to stay is kept. */
  ghost predicate NothingElseDropped(c: ProxyConfig, r: ProxyConfig, t: Entries, trail: Trail)
    requires forall i :: 0 <= i < |trail.order| ==> trail.order[i] in t
  {
    exists groupPicks, providerPicks ::
      KeptExactly(c, r, trail.groups, trail.turns, ListEntries(trail.order, t), groupPicks, providerPicks)
  }

  method NormalizeConfigForStorage(c: ProxyConfig, same: Compare, newId: set<string> -> string)
    returns (r: ProxyConfig, ghost table: Entries, ghost trail: Trail)
    requires GivesFresh(newId)
    ensures NormalForm(c, r, table, trail, same, newId) && NormalFormOf(c, r, same, newId)
    ensures NothingElseDropped(c, r, table, trail)
    ensures Canonical(r) && r.rest == c.rest && (r == c ==> Canonical(c))
    ensures StableFor(same, c.groups) && Canonical(c) ==> r == c
  {
    hide Key, Normal, TableOk, EntriesOk, CanonicalList, GroupOk, GroupsDone, GroupsSurvive, NewSourced, InScope, Rules;
    hide HasGlobal, Firsts, Normalizes, KeepGroup, KeepProvider, StableFor, Settled, AllDecided, TurnsTrack, Reserved;
    hide KeptExactly;
    ghost var t: Entries := map[];
    if Canonical(c) { t :| CanonicalConfig(c, t); }
    ghost var base, order, turns;
    var gs, ps;
    gs, ps, base, table, order, turns := NormalizeGroupsAndProviders(c.groups, c.providers, same, newId, t);
    r := ProxyConfig(Keep(gs, KeepGroup), Keep(ps, KeepProvider), c.rest);
    trail := Trail(base, gs, turns, order);
    DoneGroupsFit(c.groups, HasGlobal(c.providers), gs, turns, base, table);
    KeptIsCanonical(gs, ps, table, order, c.rest);
    if Settled(c, same, newId) { SettledDecides(c, same, newId); }
    if StableFor(same, c.groups) && Canonical(c) {
      CanonicalProvidersReappear(c, t, table, order);
      KeepAll(c.groups, KeepGroup);
    }
    ghost var groupPicks, providerPicks := FollowsKeeps(c, r, table, trail);
  }

  // ----- normalising twice -----

  /** Each hash map of the provider has at most one entry, so there is one way to render it. */
  predicate OneOrder(p: Rule) {
    |p.modelCosts| <= 1 && |p.quotaHeaders| <= 1 && (p.modelMappings.Some? ==> |p.modelMappings.value| <= 1)
  }

  /** The normal form of the provider is such. */
  predicate NormalOneOrder(p: Rule) {
    |NormalKeys(p)| <= 1 && |p.quotaHeaders| <= 1 && (p.modelMappings.Some? ==> |p.modelMappings.value| <= 1)
  }

  lemma NormalFormHasOneOrder(p: Rule, q: Rule)
    requires NormalOneOrder(p) && Normalizes(p, q.(id := p.id))
    ensures OneOrder(q)
  {
    NormalCostKeys(p, q.modelCosts);
  }

  /** Comparisons are stable where rendering is: on providers with one order. */
  ghost predicate StableRendering(same: Compare) { forall p :: OneOrder(p) ==> SelfSame(same, p) }

  lemma EntryHasOneOrder(given: set<Rule>, t: Entries, k: string)
    requires NewSourced(map[], t, given) && k in t && forall p :: p in given ==> NormalOneOrder(p)
    ensures OneOrder(t[k])
  {
    hide Normalizes, OneOrder, NormalOneOrder;
    assert Sourced(t, k, given);
    var p :| p in given && FiledAs(p, k, t);
    NormalFormHasOneOrder(p, t[k]);
  }

  lemma OneOrderIsStable(c: ProxyConfig, r: ProxyConfig, t: Entries, trail: Trail, same: Compare)
    requires Follows(c, r, t, trail) && GroupsOk(r.groups, t) && StableRendering(same)
    requires forall p :: p in Given(c.groups, c.providers) ==> NormalOneOrder(p)
    ensures StableFor(same, r.groups)
  {
    EveryEntryGiven(c, r, t, trail);
    hide Follows, Given, SelfSame, OneOrder, NormalOneOrder, NewSourced;
    forall i, j | 0 <= i < |r.groups| && 0 <= j < |Embedded(r.groups[i])| ensures SelfSame(same, Embedded(r.groups[i])[j]) {
      assert GroupOk(r.groups[i], t);
      var k := r.groups[i].providerIds.value[j];
      EntryHasOneOrder(Given(c.groups, c.providers), t, k);
    }
  }

  lemma CanonicalGroupsFit(c: ProxyConfig, t: Entries)
    requires CanonicalConfig(c, t)
    ensures GroupsOk(c.groups, t)
  {
  }

  /** Normalising twice is normalising once, when what comes out of the first run compares equal to itself:
      in particular when the hash maps of the given providers have at most one entry in normal form. The
      second run then allocates no id and reorders nothing. */
  method NormalizeTwice(c: ProxyConfig, same: Compare, newId: set<string> -> string)
    returns (once: ProxyConfig, twice: ProxyConfig)
    requires GivesFresh(newId)
    ensures NormalFormOf(c, once, same, newId) && NormalFormOf(once, twice, same, newId)
    ensures StableFor(same, once.groups) ==> once == twice
    ensures StableRendering(same) && (forall p :: p in Given(c.groups, c.providers) ==> NormalOneOrder(p)) ==> once == twice
    ensures Stable(same) ==> once == twice
  {
    hide Follows, CanonicalConfig, StableRendering, NormalOneOrder, Given, TurnsTrack, GroupsSurvive, Settled;
    ghost var t, trail, t', trail';
    once, t, trail := NormalizeConfigForStorage(c, same, newId);
    assert Canonical(once);
    twice, t', trail' := NormalizeConfigForStorage(once, same, newId);
    assert NormalFormOf(c, once, same, newId) && NormalFormOf(once, twice, same, newId);
    if StableRendering(same) && (forall p :: p in Given(c.groups, c.providers) ==> NormalOneOrder(p)) {
      CanonicalGroupsFit(once, t);
      OneOrderIsStable(c, once, t, trail, same);
    }
  }
}
