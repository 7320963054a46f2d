// Groups and providers in the database: written in one transaction, read back in row order.
module ConfigPersist {
  import opened Text
  import opened ConfigModel
  import opened ConfigTable
  import opened ConfigNormalize
  import opened ConfigOrigin
  import opened ConfigValidate

  /** A row: primary key and JSON text. */
  datatype Row = Row(id: string, json: string)

  /** The JSON codec. */
  datatype Codec = Codec(
    writeGroup: ProviderGroup -> string, readGroup: string -> Option<ProviderGroup>,
    writeRule: Rule -> string, readRule: string -> Option<Rule>)
  {
    /** Decoding undoes encoding for what is written. */
    ghost predicate Inverts(groups: seq<ProviderGroup>, providers: seq<Rule>) {
      (forall i :: 0 <= i < |groups| ==> readGroup(writeGroup(groups[i])) == Some(groups[i])) &&
      (forall i :: 0 <= i < |providers| ==> readRule(writeRule(providers[i])) == Some(providers[i]))
    }
  }

  function Position<T(==)>(s: seq<T>, x: T): (i: nat)
    ensures x in s ==> i < |s| && s[i] == x
  {
    if s == [] || s[0] == x then 0 else Position(s[1..], x) + 1
  }

  function ReadAt<T>(s: seq<T>, text: string): Option<T> {
    if AllDigits(text) && DigitsValue(text) < |s| then Some(s[DigitsValue(text)]) else None
  }

  /** Whatever is written, some codec inverts it. */
  lemma SomeCodecInverts(groups: seq<ProviderGroup>, providers: seq<Rule>)
    ensures exists codec: Codec :: codec.Inverts(groups, providers)
  {
    var codec := Codec(
      g => Numeral(Position(groups, g)), text => ReadAt(groups, text),
      p => Numeral(Position(providers, p)), text => ReadAt(providers, text));
    assert codec.Inverts(groups, providers);
  }

  function GroupRows(codec: Codec, groups: seq<ProviderGroup>): (rows: seq<Row>)
    ensures |rows| == |groups|
  {
    seq(|groups|, i requires 0 <= i < |groups| => Row(groups[i].id, codec.writeGroup(groups[i])))
  }

  function ProviderRows(codec: Codec, providers: seq<Rule>): (rows: seq<Row>)
    ensures |rows| == |providers|
  {
    seq(|providers|, i requires 0 <= i < |providers| => Row(providers[i].id, codec.writeRule(providers[i])))
  }

  ghost predicate DistinctRows(rows: seq<Row>) { forall i, j :: 0 <= i < j < |rows| ==> rows[i].id != rows[j].id }

  /** No two groups, or providers, have the same id. */
  ghost predicate DistinctGroupIds(groups: seq<ProviderGroup>) {
    forall i, j :: 0 <= i < j < |groups| ==> groups[i].id != groups[j].id
  }

  ghost predicate DistinctProviderIds(providers: seq<Rule>) {
    forall i, j :: 0 <= i < j < |providers| ==> providers[i].id != providers[j].id
  }

  /** The tables hold one row for each group and provider, in order, under its id. */
  ghost predicate Holds(
    codec: Codec, groupRows: seq<Row>, providerRows: seq<Row>, groups: seq<ProviderGroup>, providers: seq<Rule>)
  {
    |groupRows| == |groups| && |providerRows| == |providers| &&
    (forall i :: 0 <= i < |groups| ==> groupRows[i].id == groups[i].id && groupRows[i].json == codec.writeGroup(groups[i])) &&
    forall i :: 0 <= i < |providers| ==>
      providerRows[i].id == providers[i].id && providerRows[i].json == codec.writeRule(providers[i])
  }

  lemma RowsHold(codec: Codec, groups: seq<ProviderGroup>, providers: seq<Rule>)
    ensures Holds(codec, GroupRows(codec, groups), ProviderRows(codec, providers), groups, providers)
    ensures DistinctRows(GroupRows(codec, groups)) <==> DistinctGroupIds(groups)
    ensures DistinctRows(ProviderRows(codec, providers)) <==> DistinctProviderIds(providers)
  {
    var rows, prows := GroupRows(codec, groups), ProviderRows(codec, providers);
    if DistinctRows(rows) {
      forall i, j | 0 <= i < j < |groups| ensures groups[i].id != groups[j].id { assert rows[i].id != rows[j].id; }
    }
    if DistinctRows(prows) {
      forall i, j | 0 <= i < j < |providers| ensures providers[i].id != providers[j].id { assert prows[i].id != prows[j].id; }
    }
  }

  type ById = map<string, Rule>

  /** The map loading fills: the rule of each of the first `n` rows under its row id. */
  function RowMap(rows: seq<Row>, rules: seq<Rule>, n: nat): ById
    requires n <= |rows| == |rules|
  {
    if n == 0 then map[] else RowMap(rows, rules, n - 1)[rows[n - 1].id := rules[n - 1]]
  }

  /** The first `n` links are looked up by exact id; those without a provider are passed over. */
  function LookUp(ids: seq<string>, providers: ById, n: nat): seq<Rule>
    requires n <= |ids|
  {
    if n == 0 then []
    else LookUp(ids, providers, n - 1) + (if ids[n - 1] in providers then [providers[ids[n - 1]]] else [])
  }

  /** A group as it comes back: its embedded providers are refilled from the provider rows. */
  function Refill(g: ProviderGroup, providers: ById): ProviderGroup {
    var ids := if g.providerIds.Some? then g.providerIds.value else [];
    g.(providers := Some(LookUp(ids, providers, |ids|)))
  }

  function RefillAll(groups: seq<ProviderGroup>, providers: ById): (r: seq<ProviderGroup>)
    ensures |r| == |groups| && forall i :: 0 <= i < |r| ==> r[i] == Refill(groups[i], providers)
  {
    seq(|groups|, i requires 0 <= i < |groups| => Refill(groups[i], providers))
  }

  lemma {:induction false} RowMapIs(rows: seq<Row>, rules: seq<Rule>, n: nat, id: string)
    requires n <= |rows| == |rules|
    ensures var m := RowMap(rows, rules, n);
            (id in m <==> exists i :: 0 <= i < n && rows[i].id == id) &&
            (id in m ==> exists i :: 0 <= i < n && rows[i].id == id && m[id] == rules[i] &&
                                     forall j :: i < j < n ==> rows[j].id != id)
  {
    if n > 0 {
      RowMapIs(rows, rules, n - 1, id);
      if rows[n - 1].id == id { assert RowMap(rows, rules, n)[id] == rules[n - 1]; }
    }
  }

  lemma {:induction false} LookUpPicks(ids: seq<string>, providers: ById, n: nat) returns (picks: seq<nat>)
    requires n <= |ids|
    ensures |picks| == |LookUp(ids, providers, n)|
    ensures forall k :: 0 <= k < |picks| ==>
              picks[k] < n && ids[picks[k]] in providers && LookUp(ids, providers, n)[k] == providers[ids[picks[k]]]
    ensures forall k, l :: 0 <= k < l < |picks| ==> picks[k] < picks[l]
    ensures forall i: nat :: i in picks <==> i < n && ids[i] in providers
  {
    if n == 0 {
      picks := [];
    } else {
      picks := LookUpPicks(ids, providers, n - 1);
      if ids[n - 1] in providers { picks := picks + [n - 1]; }
    }
  }

  /** A group comes back as it was decoded, but with the providers that have a row under one of its links,
      link by link, each from the last such row. */
  lemma RefilledFromRows(g: ProviderGroup, rows: seq<Row>, rules: seq<Rule>) returns (picks: seq<nat>)
    requires |rows| == |rules| && g.providerIds.Some?
    ensures var g' := Refill(g, RowMap(rows, rules, |rows|)); var ids := g.providerIds.value;
            g'.providers.Some? && g' == g.(providers := g'.providers) && |picks| == |g'.providers.value| &&
            (forall k, l :: 0 <= k < l < |picks| ==> picks[k] < picks[l]) &&
            (forall i: nat :: i in picks <==> i < |ids| && exists j :: 0 <= j < |rows| && rows[j].id == ids[i]) &&
            forall k :: 0 <= k < |picks| ==>
              picks[k] < |ids| && exists j ::
                0 <= j < |rows| && rows[j].id == ids[picks[k]] && g'.providers.value[k] == rules[j] &&
                forall l :: j < l < |rows| ==> rows[l].id != rows[j].id
  {
    var ids, m := g.providerIds.value, RowMap(rows, rules, |rows|);
    picks := LookUpPicks(ids, m, |ids|);
    hide RowMap, LookUp;
    forall i | 0 <= i < |ids|
      ensures ids[i] in m <==> exists j :: 0 <= j < |rows| && rows[j].id == ids[i]
      ensures ids[i] in m ==> exists j :: 0 <= j < |rows| && rows[j].id == ids[i] && m[ids[i]] == rules[j] &&
                                          forall l :: j < l < |rows| ==> rows[l].id != rows[j].id
    {
      RowMapIs(rows, rules, |rows|, ids[i]);
    }
  }

  /** What two tables decode to. */
  ghost predicate Decodes(codec: Codec, groupRows: seq<Row>, providerRows: seq<Row>, gs: seq<ProviderGroup>, ps: seq<Rule>) {
    |gs| == |groupRows| && |ps| == |providerRows| &&
    (forall i :: 0 <= i < |gs| ==> codec.readGroup(groupRows[i].json) == Some(gs[i])) &&
    (forall i :: 0 <= i < |ps| ==> codec.readRule(providerRows[i].json) == Some(ps[i]))
  }

  class GroupsDb {
    const codec: Codec
    var groupRows: seq<Row>
    var providerRows: seq<Row>

    constructor (codec: Codec)
      ensures groupRows == [] && providerRows == [] && this.codec == codec
    {
      this.codec, groupRows, providerRows := codec, [], [];
    }

    /** Replaces both tables, or neither when a primary key repeats. */
    method Persist(groups: seq<ProviderGroup>, providers: seq<Rule>) returns (ok: bool)
      modifies this
      ensures ok <==> DistinctGroupIds(groups) && DistinctProviderIds(providers)
      ensures ok ==> groupRows == GroupRows(codec, groups) && providerRows == ProviderRows(codec, providers)
      ensures ok ==> Holds(codec, groupRows, providerRows, groups, providers)
      ensures !ok ==> groupRows == old(groupRows) && providerRows == old(providerRows)
    {
      RowsHold(codec, groups, providers);
      hide GroupRows, ProviderRows, DistinctRows, DistinctGroupIds, DistinctProviderIds, Holds;
      var newGroups, okGroups := InsertAll(GroupRows(codec, groups));
      if !okGroups { return false; }
      var newProviders, okProviders := InsertAll(ProviderRows(codec, providers));
      if !okProviders { return false; }
      groupRows, providerRows := newGroups, newProviders;
      return true;
    }

    /** Succeeds exactly when every row decodes, and then refills the decoded groups `gs`. */
    method Load() returns (groups: Option<seq<ProviderGroup>>, providers: seq<Rule>)
      ensures groups.Some? ==> |providers| == |providerRows|
      ensures groups.Some? ==>
                exists gs :: Decodes(codec, groupRows, providerRows, gs, providers) &&
                             groups.value == RefillAll(gs, RowMap(providerRows, providers, |providers|))
      ensures groups.None? ==> forall gs, ps :: !Decodes(codec, groupRows, providerRows, gs, ps)
    {
      providers := [];
      ghost var gs: seq<ProviderGroup> := [];
      var byId: ById := map[];
      var i := 0;
      while i < |providerRows|
        invariant 0 <= i <= |providerRows| && |providers| == i
        invariant forall j :: 0 <= j < i ==> codec.readRule(providerRows[j].json) == Some(providers[j])
        invariant byId == RowMap(providerRows[..i], providers, i)
      {
        var p := codec.readRule(providerRows[i].json);
        if p.None? { return None, providers; }
        RowMapGrows(providerRows, providers, p.value, i);
        byId := byId[providerRows[i].id := p.value];
        providers := providers + [p.value];
        i := i + 1;
      }
      assert providerRows[..i] == providerRows;
      var loaded: seq<ProviderGroup> := [];
      i := 0;
      while i < |groupRows|
        invariant 0 <= i <= |groupRows| && |gs| == |loaded| == i
        invariant forall j :: 0 <= j < i ==> codec.readGroup(groupRows[j].json) == Some(gs[j])
        invariant forall j :: 0 <= j < i ==> loaded[j] == Refill(gs[j], byId)
      {
        var g := codec.readGroup(groupRows[i].json);
        if g.None? { return None, providers; }
        loaded := loaded + [Refill(g.value, byId)];
        gs := gs + [g.value];
        i := i + 1;
      }
      assert loaded == RefillAll(gs, byId);
      groups := Some(loaded);
    }
  }

  lemma {:induction false} RowMapPrefix(rows: seq<Row>, rules: seq<Rule>, rows': seq<Row>, rules': seq<Rule>, n: nat)
    requires n <= |rows| == |rules| && n <= |rows'| == |rules'|
    requires rows[..n] == rows'[..n] && rules[..n] == rules'[..n]
    ensures RowMap(rows, rules, n) == RowMap(rows', rules', n)
    decreases n
  {
    if n > 0 {
      assert rows[n - 1] == rows[..n][n - 1] == rows'[n - 1] && rules[n - 1] == rules[..n][n - 1] == rules'[n - 1];
      assert rows[..n - 1] == rows[..n][..n - 1] == rows'[..n - 1];
      assert rules[..n - 1] == rules[..n][..n - 1] == rules'[..n - 1];
      RowMapPrefix(rows, rules, rows', rules', n - 1);
    }
  }

  lemma RowMapGrows(rows: seq<Row>, rules: seq<Rule>, p: Rule, i: nat)
    requires i < |rows| && |rules| == i
    ensures RowMap(rows[..i + 1], rules + [p], i + 1) == RowMap(rows[..i], rules, i)[rows[i].id := p]
  {
    RowMapPrefix(rows[..i + 1], rules + [p], rows[..i], rules, i);
  }

  /** The rules under their own ids, as Persist writes them. */
  function OwnIds(codec: Codec, providers: seq<Rule>): ById {
    RowMap(ProviderRows(codec, providers), providers, |providers|)
  }

  /** Tables that Persist wrote decode to what was written. */
  lemma WrittenLoadsBack(codec: Codec, gs: seq<ProviderGroup>, ps: seq<Rule>, gs': seq<ProviderGroup>, ps': seq<Rule>)
    requires codec.Inverts(gs, ps) && Decodes(codec, GroupRows(codec, gs), ProviderRows(codec, ps), gs', ps')
    ensures gs' == gs && ps' == ps
  {
    forall i | 0 <= i < |gs| ensures gs'[i] == gs[i] {
      assert codec.readGroup(codec.writeGroup(gs[i])) == Some(gs[i]);
    }
    forall i | 0 <= i < |ps| ensures ps'[i] == ps[i] {
      assert codec.readRule(codec.writeRule(ps[i])) == Some(ps[i]);
    }
  }

  lemma WrittenDecodes(codec: Codec, gs: seq<ProviderGroup>, ps: seq<Rule>)
    requires codec.Inverts(gs, ps)
    ensures Decodes(codec, GroupRows(codec, gs), ProviderRows(codec, ps), gs, ps)
  {
  }

  method InsertAll(rows: seq<Row>) returns (table: seq<Row>, ok: bool)
    ensures ok <==> DistinctRows(rows)
    ensures ok ==> table == rows
  {
    table := [];
    var i := 0;
    while i < |rows|
      invariant 0 <= i <= |rows| && table == rows[..i] && DistinctRows(rows[..i])
    {
      if exists j :: 0 <= j < |table| && table[j].id == rows[i].id {
        return table, false;
      }
      table := table + [rows[i]];
      i := i + 1;
    }
    return table, true;
  }

  // ----- what comes back -----

  /** A link survives a restart when its provider was kept and carries exactly the linked id. */
  ghost predicate LinkKept(c: ProxyConfig, g: ProviderGroup, i: int)
    requires g.providerIds.Some? && g.providers.Some? && 0 <= i < |g.providerIds.value| == |g.providers.value|
  {
    g.providers.value[i] in c.providers && g.providers.value[i].id == g.providerIds.value[i]
  }

  lemma {:induction false} OwnIdsFind(codec: Codec, ps: seq<Rule>, id: string, n: nat)
    requires n <= |ps|
    ensures var m := RowMap(ProviderRows(codec, ps), ps, n);
            (id in m <==> exists i :: 0 <= i < n && ps[i].id == id) && (id in m ==> m[id] in ps && m[id].id == id)
    decreases n
  {
    if n > 0 { OwnIdsFind(codec, ps, id, n - 1); }
  }

  lemma LinkedProviderFound(codec: Codec, c: ProxyConfig, t: Entries, g: ProviderGroup, i: int)
    requires CanonicalConfig(c, t) && GroupOk(g, t) && 0 <= i < |g.providerIds.value|
    ensures var m := OwnIds(codec, c.providers); var id := g.providerIds.value[i];
            (id in m <==> LinkKept(c, g, i)) && (id in m ==> m[id] == g.providers.value[i])
  {
    hide Trim;
    hide Normal;
    hide RowMap;
    var id, p := g.providerIds.value[i], g.providers.value[i];
    assert EntryOk(t, id);
    OwnIdsFind(codec, c.providers, id, |c.providers|);
    forall j | 0 <= j < |c.providers| && c.providers[j].id == id ensures c.providers[j] == p {
      assert CanonicalProvider(c.providers[j], t);
    }
  }

  /** The embedded providers among the first `n` whose link was kept, in order. */
  function KeptLinks(ids: seq<string>, ps: seq<Rule>, providers: seq<Rule>, n: nat): (r: seq<Rule>)
    requires n <= |ids| == |ps|
    ensures |r| <= n
  {
    if n == 0 then []
    else
      KeptLinks(ids, ps, providers, n - 1) +
      (if ps[n - 1] in providers && ps[n - 1].id == ids[n - 1] then [ps[n - 1]] else [])
  }

  lemma {:induction false} LookUpKeepsLinks(codec: Codec, c: ProxyConfig, t: Entries, g: ProviderGroup, n: nat)
    requires CanonicalConfig(c, t) && GroupOk(g, t) && n <= |g.providerIds.value|
    ensures LookUp(g.providerIds.value, OwnIds(codec, c.providers), n) ==
            KeptLinks(g.providerIds.value, g.providers.value, c.providers, n)
  {
    hide CanonicalConfig;
    hide OwnIds;
    if n > 0 {
      LookUpKeepsLinks(codec, c, t, g, n - 1);
      LinkedProviderFound(codec, c, t, g, n - 1);
    }
  }

  lemma {:induction false} KeptLinksComplete(ids: seq<string>, ps: seq<Rule>, providers: seq<Rule>, n: nat)
    requires n <= |ids| == |ps|
    ensures KeptLinks(ids, ps, providers, n) == ps[..n] <==>
              forall i :: 0 <= i < n ==> ps[i] in providers && ps[i].id == ids[i]
  {
    if n > 0 {
      KeptLinksComplete(ids, ps, providers, n - 1);
      assert ps[..n] == ps[..n - 1] + [ps[n - 1]];
      var kept := KeptLinks(ids, ps, providers, n - 1);
      if kept + [ps[n - 1]] == ps[..n] { assert kept == ps[..n - 1]; }
    }
  }

  lemma RefillKeepsLinks(codec: Codec, c: ProxyConfig, t: Entries, g: ProviderGroup)
    requires CanonicalConfig(c, t) && GroupOk(g, t)
    ensures |g.providerIds.value| == |g.providers.value| && Refill(g, OwnIds(codec, c.providers)) ==
            g.(providers := Some(KeptLinks(g.providerIds.value, g.providers.value, c.providers, |g.providerIds.value|)))
  {
    hide CanonicalConfig;
    hide LookUp;
    hide KeptLinks;
    LookUpKeepsLinks(codec, c, t, g, |g.providerIds.value|);
  }

  /** A group of a normalised config reads back with its id list intact and exactly its kept links
      filled in; it reads back unchanged exactly when every link was kept. */
  lemma GroupReadsBack(codec: Codec, c: ProxyConfig, t: Entries, g: ProviderGroup)
    requires CanonicalConfig(c, t) && GroupOk(g, t)
    ensures |g.providerIds.value| == |g.providers.value| && Refill(g, OwnIds(codec, c.providers)) ==
            g.(providers := Some(KeptLinks(g.providerIds.value, g.providers.value, c.providers, |g.providerIds.value|)))
    ensures Refill(g, OwnIds(codec, c.providers)) == g <==> forall i :: 0 <= i < |g.providerIds.value| ==> LinkKept(c, g, i)
  {
    hide CanonicalConfig;
    hide Refill;
    hide KeptLinks;
    RefillKeepsLinks(codec, c, t, g);
    var ids, ps := g.providerIds.value, g.providers.value;
    KeptLinksComplete(ids, ps, c.providers, |ids|);
    assert ps[..|ids|] == ps;
    assert Refill(g, OwnIds(codec, c.providers)) == g <==> KeptLinks(ids, ps, c.providers, |ids|) == ps;
    if forall i :: 0 <= i < |ids| ==> LinkKept(c, g, i) {
      forall i | 0 <= i < |ids| ensures ps[i] in c.providers && ps[i].id == ids[i] { assert LinkKept(c, g, i); }
    }
  }

  ghost predicate AllLinksKept(c: ProxyConfig) {
    forall g :: g in c.groups ==>
      forall i :: 0 <= i < |Embedded(g)| ==> Embedded(g)[i] in c.providers
  }

  lemma GroupUnchanged(codec: Codec, c: ProxyConfig, t: Entries, g: ProviderGroup)
    requires CanonicalConfig(c, t) && GroupOk(g, t)
    requires forall i :: 0 <= i < |Embedded(g)| ==> Trimmed(Embedded(g)[i].id)
    ensures Refill(g, OwnIds(codec, c.providers)) == g <==> forall i :: 0 <= i < |Embedded(g)| ==> Embedded(g)[i] in c.providers
  {
    hide Trim;
    hide Normal;
    hide Refill;
    hide KeptLinks;
    GroupReadsBack(codec, c, t, g);
    var ids, ps := g.providerIds.value, g.providers.value;
    assert Embedded(g) == ps;
    forall i | 0 <= i < |ids| ensures LinkKept(c, g, i) <==> ps[i] in c.providers {
      assert EntryOk(t, ids[i]) && Trimmed(Embedded(g)[i].id);
    }
    if Refill(g, OwnIds(codec, c.providers)) == g {
      forall i | 0 <= i < |ps| ensures ps[i] in c.providers { assert LinkKept(c, g, i); }
    }
  }

  lemma ConfigReadsBack(codec: Codec, c: ProxyConfig, t: Entries)
    requires CanonicalConfig(c, t) && LinkedIdsTrimmed(c)
    ensures RefillAll(c.groups, OwnIds(codec, c.providers)) == c.groups <==> AllLinksKept(c)
  {
    hide Trim;
    hide Normal;
    hide Refill;
    forall g | g in c.groups
      ensures Refill(g, OwnIds(codec, c.providers)) == g <==> forall i :: 0 <= i < |Embedded(g)| ==> Embedded(g)[i] in c.providers
    {
      assert GroupOk(g, t);
      GroupUnchanged(codec, c, t, g);
    }
    var r := RefillAll(c.groups, OwnIds(codec, c.providers));
    if r == c.groups {
      forall g | g in c.groups ensures Refill(g, OwnIds(codec, c.providers)) == g {
        var i :| 0 <= i < |c.groups| && c.groups[i] == g;
        assert r[i] == Refill(c.groups[i], OwnIds(codec, c.providers));
      }
    }
  }

  lemma CanonicalRowsDistinct(codec: Codec, c: ProxyConfig, t: Entries)
    requires CanonicalConfig(c, t)
    ensures DistinctProviderIds(c.providers)
  {
    hide Trim;
    hide Normal;
    forall i, j | 0 <= i < j < |c.providers| ensures c.providers[i].id != c.providers[j].id {
      assert Key(c.providers[i]) != Key(c.providers[j]);
    }
  }

  // ----- reading back and validating again -----

  lemma {:induction false} LookUpFindsProviders(codec: Codec, ids: seq<string>, ps: seq<Rule>, n: nat)
    requires n <= |ids|
    ensures forall p :: p in LookUp(ids, OwnIds(codec, ps), n) ==> p in ps
  {
    hide RowMap;
    if n > 0 {
      LookUpFindsProviders(codec, ids, ps, n - 1);
      OwnIdsFind(codec, ps, ids[n - 1], |ps|);
    }
  }

  /** A link whose provider was not kept cannot be resolved after reading back. */
  lemma DroppedLinkDangles(codec: Codec, c: ProxyConfig, t: Entries, g: ProviderGroup, i: int)
    requires CanonicalConfig(c, t) && GroupOk(g, t) && 0 <= i < |g.providerIds.value| && !LinkKept(c, g, i)
    ensures var g' := Refill(g, OwnIds(codec, c.providers));
            g.providerIds.value[i] in LinksOf(g') && !Resolves(c, g', g.providerIds.value[i])
  {
    hide CanonicalConfig;
    hide RowMap;
    hide LookUp;
    var id := g.providerIds.value[i];
    LinkedProviderFound(codec, c, t, g, i);
    OwnIdsFind(codec, c.providers, id, |c.providers|);
    LookUpFindsProviders(codec, g.providerIds.value, c.providers, |g.providerIds.value|);
    assert !HasId(c.providers, id);
    forall j | 0 <= j < |Embedded(Refill(g, OwnIds(codec, c.providers)))|
      ensures Embedded(Refill(g, OwnIds(codec, c.providers)))[j].id != id
    {
      assert Embedded(Refill(g, OwnIds(codec, c.providers)))[j] in c.providers;
    }
  }

  function Reloaded(codec: Codec, c: ProxyConfig): ProxyConfig {
    c.(groups := RefillAll(c.groups, OwnIds(codec, c.providers)))
  }

  lemma DanglingIsInvalid(c: ProxyConfig, g: ProviderGroup, id: string)
    requires g in c.groups && id in LinksOf(g) && !Resolves(c, g, id)
    ensures !ConfigValid(c)
  {
    hide Trim;
    hide Resolves;
    hide LinksOf;
    var i :| 0 <= i < |LinksOf(g)| && LinksOf(g)[i] == id;
    assert !LinkValid(c, g, LinksOf(g)[i]);
    var k :| 0 <= k < |c.groups| && c.groups[k] == g;
    assert !GroupValid(c, c.groups[k]);
  }

  lemma ResolvesLooksAtProviders(c: ProxyConfig, d: ProxyConfig, g: ProviderGroup, id: string)
    requires c.providers == d.providers
    ensures Resolves(c, g, id) <==> Resolves(d, g, id)
  {
  }

  /** What a valid normalised config reads back as is valid exactly when every linked provider was kept. */
  lemma ReloadedValidates(codec: Codec, c: ProxyConfig, t: Entries)
    requires CanonicalConfig(c, t) && ConfigValid(c)
    ensures LinkedIdsTrimmed(c)
    ensures Reloaded(codec, c) == c <==> AllLinksKept(c)
    ensures ConfigValid(Reloaded(codec, c)) <==> AllLinksKept(c)
  {
    hide Trim;
    hide Normal;
    hide ConfigValid;
    hide OwnIds;
    hide Refill;
    hide Resolves;
    hide LinksOf;
    hide EntriesOk;
    hide CanonicalList;
    hide LinkKept;
    var d := Reloaded(codec, c);
    NormalizedConfigValidates(c, t, Valid);
    ConfigReadsBack(codec, c, t);
    if !AllLinksKept(c) {
      var g, i :| g in c.groups && 0 <= i < |Embedded(g)| && Embedded(g)[i] !in c.providers;
      var k :| 0 <= k < |c.groups| && c.groups[k] == g;
      assert GroupOk(g, t);
      NotKept(c, g, i);
      DroppedLinkDangles(codec, c, t, g, i);
      assert d.groups[k] == Refill(g, OwnIds(codec, c.providers));
      ResolvesLooksAtProviders(c, d, d.groups[k], g.providerIds.value[i]);
      DanglingIsInvalid(d, d.groups[k], g.providerIds.value[i]);
    }
  }

  /** A config that is valid in memory and no longer valid once it has been read back: its group links
      to a provider without models. */
  lemma SavedButLost(codec: Codec) returns (c: ProxyConfig, t: Entries)
    ensures CanonicalConfig(c, t) && ConfigValid(c) && DistinctGroupIds(c.groups)
    ensures !ConfigValid(Reloaded(codec, c))
  {
    var p := Rule("a", [], None, None, Cost(false, 0, 0, 0, 0, "USD", None), map[], map[], "");
    var g := ProviderGroup("g", "g", [], None, Some(["a"]), None, Some([p]), None);
    c := ProxyConfig([g], [], "");
    t := map["a" := p];
    hide Trim;
    assert Trim("a") == "a" && Trim("g") == "g";
    assert EntryOk(t, "a") && GroupOk(g, t) && CanonicalConfig(c, t);
    assert Embedded(g)[0] == p && HasId(Embedded(g), "a");
    assert LinksOf(g) == ["a"] && LinkValid(c, g, "a") && GroupValid(c, g);
    assert ConfigValid(c);
    assert g in c.groups && Embedded(g)[0] !in c.providers;
    hide *;
    ReloadedValidates(codec, c, t);
  }

  lemma NotKept(c: ProxyConfig, g: ProviderGroup, i: int)
    requires g.providerIds.Some? && g.providers.Some? && 0 <= i < |g.providerIds.value| == |g.providers.value|
    requires Embedded(g)[i] !in c.providers
    ensures !LinkKept(c, g, i)
  {
  }

  /** Write a normalised config, then load it. */
  method PersistThenLoad(db: GroupsDb, c: ProxyConfig, ghost t: Entries)
    returns (written: bool, groups: Option<seq<ProviderGroup>>, providers: seq<Rule>)
    requires CanonicalConfig(c, t) && db.codec.Inverts(c.groups, c.providers)
    modifies db
    ensures written <==> DistinctGroupIds(c.groups)
    ensures written ==> groups.Some? && providers == c.providers && groups.value == Reloaded(db.codec, c).groups
    ensures written && LinkedIdsTrimmed(c) ==> (groups.value == c.groups <==> AllLinksKept(c))
  {
    hide *;
    CanonicalRowsDistinct(db.codec, c, t);
    WrittenDecodes(db.codec, c.groups, c.providers);
    written := db.Persist(c.groups, c.providers);
    groups, providers := db.Load();
    if written {
      ghost var gs :| Decodes(db.codec, db.groupRows, db.providerRows, gs, providers) &&
                      groups.value == RefillAll(gs, RowMap(db.providerRows, providers, |providers|));
      WrittenLoadsBack(db.codec, c.groups, c.providers, gs, providers);
      ReloadedIs(db.codec, c);
    }
    if LinkedIdsTrimmed(c) { ConfigReadsBack(db.codec, c, t); }
  }

  lemma ReloadedIs(codec: Codec, c: ProxyConfig)
    ensures OwnIds(codec, c.providers) == RowMap(ProviderRows(codec, c.providers), c.providers, |c.providers|)
    ensures Reloaded(codec, c) == c.(groups := RefillAll(c.groups, OwnIds(codec, c.providers)))
  {
  }

  // ----- which saves survive, told from what is saved -----

  lemma KeepingLasts()
    ensures Lasting(KeepProvider) && Firm(KeepProvider)
  {
    hide NormalCosts;
  }

  lemma KeptMeansModels(c: ProxyConfig, t: Entries)
    requires CanonicalConfig(c, t)
    ensures AllLinksKept(c) <==> LinkedAll(c, KeepProvider)
  {
    forall g, i | g in c.groups && 0 <= i < |Embedded(g)|
      ensures Embedded(g)[i] in c.providers <==> KeepProvider(Embedded(g)[i])
    {
      hide EntriesOk, CanonicalList, GroupsOk, KeepProvider;
      var x := LinkAt(c, t, g, i);
    }
  }

  /** Group `n` links to a key that stands for a provider without models. */
  ghost predicate LosesProvider(c: ProxyConfig, n: int, k: string) {
    Linked(c, n, k) && Origin(c, n, k).Some? && !KeepProvider(Origin(c, n, k).value)
  }

  lemma CopyKeepsModels(p: Rule, q: Rule)
    requires Normalizes(p, q.(id := p.id))
    ensures KeepProvider(q) <==> KeepProvider(p)
  {
    hide NormalCosts;
  }

  lemma KeptFromSettled(c: ProxyConfig, r: ProxyConfig, t: Entries, trail: Trail)
    requires CanonicalConfig(r, t) && Follows(c, r, t, trail) && Tracked(c, trail)
    ensures AllLinksKept(r) <==> forall n, k :: !LosesProvider(c, n, k)
  {
    TrackedLength(c, trail);
    KeptMeansModels(r, t);
    hide Follows, Tracked, ScopedIds, RawIds, HasGlobal, Origin, CopyFor, CanonicalList, GroupsOk, EntriesOk;
    hide AllLinksKept, LinkedAll, KeepProvider, Normalizes;
    LinkedAllExactly(c, r, t, trail, KeepProvider);
    forall n, k | Linked(c, n, k) && Origin(c, n, k).Some?
      ensures var x := Renamed(trail.turns[n].remap, k);
              x in t && (KeepProvider(t[x]) <==> !LosesProvider(c, n, k))
    {
      LinkLeadsToOrigin(c, r, t, trail, n, k);
      var x := Renamed(trail.turns[n].remap, k);
      CopyKeepsModels(Origin(c, n, k).value, t[x]);
    }
  }

  /** Whether every linked provider is kept, in terms of the config before normalisation: yes when all given
      providers have models, no when a group links to a global one without models and embeds none with its
      key; and exactly when no link stands for a provider without models, if the config settles what
      becomes of it. */
  lemma KeptFromInput(c: ProxyConfig, r: ProxyConfig, same: Compare, newId: set<string> -> string)
    requires NormalFormOf(c, r, same, newId)
    ensures AllGiven(c, KeepProvider) ==> AllLinksKept(r)
    ensures (exists i, n :: LinksBad(c, i, n, KeepProvider)) ==> !AllLinksKept(r)
    ensures Settled(c, same, newId) ==> (AllLinksKept(r) <==> forall n, k :: !LosesProvider(c, n, k))
  {
    var t, trail :| NormalForm(c, r, t, trail, same, newId);
    assert CanonicalConfig(r, t) && Follows(c, r, t, trail);
    hide *;
    KeepingLasts();
    KeptMeansModels(r, t);
    if AllGiven(c, KeepProvider) { GoodGivenGoodLinks(c, r, t, trail, KeepProvider); }
    if i, n :| LinksBad(c, i, n, KeepProvider) { BadLinkStays(c, r, t, trail, i, n, KeepProvider); }
    if Settled(c, same, newId) {
      SettledIsTracked(c, r, t, trail, same, newId);
      KeptFromSettled(c, r, t, trail);
    }
  }

  // ----- the store -----

  /** What the config file holds. */
  function OnFile(c: ProxyConfig): ProxyConfig { c.(groups := [], providers := []) }

  /** `c` is what the tables hold together with the settings in `rest`. */
  ghost predicate InTables(codec: Codec, groupRows: seq<Row>, providerRows: seq<Row>, rest: string, c: ProxyConfig) {
    c.rest == rest && |c.providers| == |providerRows| &&
    exists gs :: Decodes(codec, groupRows, providerRows, gs, c.providers) &&
                 c.groups == RefillAll(gs, RowMap(providerRows, c.providers, |c.providers|))
  }

  class ConfigStore {
    const db: GroupsDb
    var file: ProxyConfig
    var config: ProxyConfig
    var revision: nat

    constructor (db: GroupsDb, file: ProxyConfig, config: ProxyConfig)
      ensures this.db == db && this.file == file && this.config == config && revision == 0
    {
      this.db, this.file, this.config, revision := db, file, config, 0;
    }

    /** Normalise, validate, write the tables, write the file, publish. The tables are replaced exactly
        when the normalised config is valid and its group ids are distinct. When only the file cannot be
        written, the tables are new and the published config is not. */
    method SaveConfig(next: ProxyConfig, same: Compare, newId: set<string> -> string, writable: bool)
      returns (saved: bool, normal: ProxyConfig, verdict: Verdict)
      requires GivesFresh(newId)
      modifies this, db
      ensures NormalFormOf(next, normal, same, newId)
      ensures Explains(normal, verdict) && (verdict.Valid? <==> ConfigValid(normal))
      ensures GivenIdsTrimmed(next) ==> !verdict.AboutIds()
      ensures Settled(next, same, newId) ==>
                if exists n, k :: LinksUntrimmed(next, n, k) then !verdict.Valid? else !verdict.AboutIds()
      ensures var stored := ConfigValid(normal) && DistinctGroupIds(normal.groups);
              db.groupRows == (if stored then GroupRows(db.codec, normal.groups) else old(db.groupRows)) &&
              db.providerRows == (if stored then ProviderRows(db.codec, normal.providers) else old(db.providerRows)) &&
              (saved <==> stored && writable) && (!stored ==> file == old(file))
      ensures saved ==> file == OnFile(normal) && config == normal && revision == old(revision) + 1
      ensures !saved ==> config == old(config) && revision == old(revision)
    {
      hide *;
      ghost var t, trail;
      normal, verdict, t, trail := NormalizeThenValidate(next, same, newId);
      NormalFormWitness(next, normal, t, trail, same, newId);
      CanonicalRowsDistinct(db.codec, normal, t);
      if !verdict.Valid? { return false, normal, verdict; }
      saved := db.Persist(normal.groups, normal.providers);
      if !saved || !writable { return false, normal, verdict; }
      file := OnFile(normal);
      config := normal;
      revision := revision + 1;
    }

    /** Starting up. `parsed` is the migrated content of the file; unless the tables are empty they
        override its groups and providers. What is found is published exactly when it is valid, and else
        the tables are overwritten with the defaults. Nothing is found when a row does not decode, or
        when empty tables cannot be filled from the file. */
    method Initialize(parsed: ProxyConfig, defaults: ProxyConfig, same: Compare, newId: set<string> -> string, writable: bool)
      returns (ok: bool, found: Option<ProxyConfig>, reset: ProxyConfig)
      requires GivesFresh(newId)
      modifies this, db
      ensures NormalFormOf(defaults, reset, same, newId)
      ensures ok <==> found.Some? && ConfigValid(found.value) && writable
      ensures ok ==> config == found.value && file == OnFile(config) && revision == old(revision) + 1
      ensures var empty := old(db.groupRows) == [] && old(db.providerRows) == [];
              (found.None? && !empty ==> forall gs, ps :: !Decodes(db.codec, old(db.groupRows), old(db.providerRows), gs, ps)) &&
              (found.Some? && empty ==> NormalFormOf(parsed, found.value, same, newId)) &&
              (found.None? && empty ==>
                 exists r :: NormalFormOf(parsed, r, same, newId) && !DistinctGroupIds(r.groups)) &&
              (empty && parsed == OnFile(parsed) ==> found == Some(parsed)) &&
              (found.Some? && !empty ==>
                 InTables(db.codec, old(db.groupRows), old(db.providerRows), parsed.rest, found.value))
      ensures found.None? || (ConfigValid(found.value) && (old(db.groupRows) != [] || old(db.providerRows) != [])) ==>
                db.groupRows == old(db.groupRows) && db.providerRows == old(db.providerRows)
      ensures found.Some? && !ConfigValid(found.value) && DistinctGroupIds(reset.groups) ==>
                db.groupRows == GroupRows(db.codec, reset.groups) &&
                db.providerRows == ProviderRows(db.codec, reset.providers) && (writable ==> config == reset)
    {
      hide *;
      ghost var t, t', trail, trail';
      var normal, groups, providers;
      ok, found := false, None;
      normal, t, trail := NormalizeConfigForStorage(parsed, same, newId);
      NormalFormWitness(parsed, normal, t, trail, same, newId);
      NormalizedParts(parsed, normal, t, trail);
      reset, t', trail' := NormalizeConfigForStorage(defaults, same, newId);
      NormalFormWitness(defaults, reset, t', trail', same, newId);
      CanonicalRowsDistinct(db.codec, normal, t);
      CanonicalRowsDistinct(db.codec, reset, t');
      groups, providers := db.Load();
      NoRowsDecode(db.codec);
      if groups.None? { return; }
      ghost var gs :| Decodes(db.codec, db.groupRows, db.providerRows, gs, providers) &&
                      groups.value == RefillAll(gs, RowMap(db.providerRows, providers, |providers|));
      LoadedSizes(db.codec, db.groupRows, db.providerRows, gs, providers);
      if groups.value != [] || providers != [] {
        normal := normal.(groups := groups.value, providers := providers);
        TablesHold(db.codec, db.groupRows, db.providerRows, normal, gs);
      } else {
        var filled := db.Persist(normal.groups, normal.providers);
        if !filled { return; }
      }
      found := Some(normal);
      var verdict := ValidateConfig(normal);
      if !verdict.Valid? {
        var cleared := db.Persist(reset.groups, reset.providers);
        if cleared && writable {
          file, config, revision := OnFile(reset), reset, revision + 1;
        }
        return;
      }
      if !writable { return; }
      file, config, revision := OnFile(normal), normal, revision + 1;
      ok := true;
    }

    /** A saved config comes back after a restart exactly when no linked provider was dropped for lack of
        models; when one was, the restart finds an invalid config and overwrites the tables. Whether one
        was is told from the config that is saved. */
    method SaveThenRestart(
      next: ProxyConfig, defaults: ProxyConfig, same: Compare, newId: set<string> -> string)
      returns (saved: bool, normal: ProxyConfig, ok: bool, reset: ProxyConfig)
      requires GivesFresh(newId)
      modifies this, db
      ensures NormalFormOf(next, normal, same, newId)
      ensures saved <==> ConfigValid(normal) && DistinctGroupIds(normal.groups)
      ensures saved ==> NormalFormOf(defaults, reset, same, newId)
      ensures saved && db.codec.Inverts(normal.groups, normal.providers) ==>
                (ok <==> AllLinksKept(normal)) && (ok ==> config == normal) &&
                (AllGiven(next, KeepProvider) ==> ok) &&
                ((exists i, n :: LinksBad(next, i, n, KeepProvider)) ==> !ok) &&
                (Settled(next, same, newId) ==> (ok <==> forall n, k :: !LosesProvider(next, n, k))) &&
                (!ok && DistinctGroupIds(reset.groups) ==>
                   config == reset && db.groupRows == GroupRows(db.codec, reset.groups) &&
                   db.providerRows == ProviderRows(db.codec, reset.providers))
    {
      hide *;
      var verdict;
      saved, normal, verdict := SaveConfig(next, same, newId, true);
      KeptFromInput(next, normal, same, newId);
      ok, reset := false, normal;
      if !saved { return; }
      FileHasNoRows(normal);
      ghost var groupRows, providerRows := db.groupRows, db.providerRows;
      var found;
      ok, found, reset := Initialize(file, defaults, same, newId, true);
      if db.codec.Inverts(normal.groups, normal.providers) {
        ghost var t := TableOf(next, normal, same, newId);
        ReloadedValidates(db.codec, normal, t);
        WrittenDecodes(db.codec, normal.groups, normal.providers);
        FoundIsReloaded(db.codec, normal, groupRows, providerRows, found);
      }
    }
  }

  lemma NoRowsDecode(codec: Codec)
    ensures Decodes(codec, [], [], [], []) && DistinctGroupIds([])
    ensures forall c :: c == OnFile(c) ==> c.groups == []
  {
  }

  lemma TableOf(c: ProxyConfig, r: ProxyConfig, same: Compare, newId: set<string> -> string) returns (t: Entries)
    requires NormalFormOf(c, r, same, newId)
    ensures CanonicalConfig(r, t)
  {
    ghost var trail;
    t, trail :| NormalForm(c, r, t, trail, same, newId);
  }

  lemma NormalFormWitness(
    c: ProxyConfig, r: ProxyConfig, t: Entries, trail: Trail, same: Compare, newId: set<string> -> string)
    requires NormalForm(c, r, t, trail, same, newId)
    ensures NormalFormOf(c, r, same, newId) && CanonicalConfig(r, t) && Follows(c, r, t, trail)
  {
  }

  lemma FileHasNoRows(c: ProxyConfig)
    ensures OnFile(OnFile(c)) == OnFile(c) && OnFile(c).rest == c.rest
    ensures c.groups == [] && c.providers == [] ==> OnFile(c) == c
  {
  }

  /** A config without groups and providers stays as it is. */
  lemma NormalizedParts(c: ProxyConfig, r: ProxyConfig, t: Entries, trail: Trail)
    requires Follows(c, r, t, trail)
    ensures r.rest == c.rest
    ensures c == OnFile(c) ==> r == c
  {
    hide Key;
    EveryEntryGiven(c, r, t, trail);
    if c == OnFile(c) {
      assert Given(c.groups, c.providers) == {};
      assert forall k :: k !in t;
      assert trail.order == [];
    }
  }

  lemma LoadedSizes(codec: Codec, groupRows: seq<Row>, providerRows: seq<Row>, gs: seq<ProviderGroup>, ps: seq<Rule>)
    requires Decodes(codec, groupRows, providerRows, gs, ps)
    ensures |gs| == |groupRows| && |ps| == |providerRows|
  {
  }

  lemma TablesHold(codec: Codec, groupRows: seq<Row>, providerRows: seq<Row>, c: ProxyConfig, gs: seq<ProviderGroup>)
    requires Decodes(codec, groupRows, providerRows, gs, c.providers) && |c.providers| == |providerRows|
    requires c.groups == RefillAll(gs, RowMap(providerRows, c.providers, |c.providers|))
    ensures InTables(codec, groupRows, providerRows, c.rest, c)
  {
  }

  lemma FoundIsReloaded(codec: Codec, c: ProxyConfig, groupRows: seq<Row>, providerRows: seq<Row>, found: Option<ProxyConfig>)
    requires groupRows == GroupRows(codec, c.groups) && providerRows == ProviderRows(codec, c.providers)
    requires codec.Inverts(c.groups, c.providers)
    requires groupRows == [] && providerRows == [] ==> found == Some(OnFile(c))
    requires groupRows != [] || providerRows != [] ==>
               if found.None? then forall gs, ps :: !Decodes(codec, groupRows, providerRows, gs, ps)
               else InTables(codec, groupRows, providerRows, c.rest, found.value)
    ensures found == Some(Reloaded(codec, c))
  {
    hide Decodes;
    hide RowMap;
    hide RefillAll;
    WrittenDecodes(codec, c.groups, c.providers);
    if found.Some? && (groupRows != [] || providerRows != []) {
      var d := found.value;
      var gs :| Decodes(codec, groupRows, providerRows, gs, d.providers) &&
                d.groups == RefillAll(gs, RowMap(providerRows, d.providers, |d.providers|));
      WrittenLoadsBack(codec, c.groups, c.providers, gs, d.providers);
    }
    if groupRows == [] && providerRows == [] { assert RefillAll(c.groups, OwnIds(codec, c.providers)) == []; }
  }
}
