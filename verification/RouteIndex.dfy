// Routing: the per-group index built from a config, and the choice of a route for a model name.
// Strings here stand for their UTF-8 code units, so `len` and `contains` are sequence operations.
module RouteIndex {
  import opened Text

  datatype RouteEntry = RouteEntry(requestModel: string, providerId: string, targetModel: string)
  datatype Provider = Provider(id: string, payload: string)
  datatype Group = Group(id: string, name: string, routingTable: seq<RouteEntry>)
  datatype Config = Config(groups: seq<Group>, providers: seq<Provider>)

  datatype ActiveRoute =
    ActiveRoute(groupId: string, groupName: string, routingTable: seq<RouteEntry>, rule: Provider)

  datatype RouteResolution =
    | Ready(route: ActiveRoute)
    | NoRoutingTable(groupName: string)
    | NoDefaultRoute(groupName: string)

  type Index = map<string, RouteResolution>

  /** The placeholder rule stored until a request is resolved. */
  const BLANK_RULE := Provider("", "")

  // ----- the index -----

  predicate HasDefault(table: seq<RouteEntry>) {
    exists i :: 0 <= i < |table| && table[i].requestModel == "default"
  }

  function Classify(g: Group): RouteResolution {
    if g.routingTable == [] then NoRoutingTable(g.name)
    else if !HasDefault(g.routingTable) then NoDefaultRoute(g.name)
    else Ready(ActiveRoute(g.id, g.name, g.routingTable, BLANK_RULE))
  }

  ghost predicate IsLastGroup(groups: seq<Group>, id: string, k: nat) {
    k < |groups| && groups[k].id == id && forall j :: k < j < |groups| ==> groups[j].id != id
  }

  /** The index a config stands for: each group id maps to the last group that carries it. */
  function BuildIndex(groups: seq<Group>): Index {
    if groups == [] then map[]
    else
      var g := groups[|groups| - 1];
      BuildIndex(groups[..|groups| - 1])[g.id := Classify(g)]
  }

  method BuildRouteIndex(config: Config) returns (index: Index)
    ensures index == BuildIndex(config.groups)
  {
    index := map[];
    var i := 0;
    while i < |config.groups|
      invariant 0 <= i <= |config.groups|
      invariant index == BuildIndex(config.groups[..i])
    {
      var group := config.groups[i];
      assert config.groups[..i + 1][..i] == config.groups[..i];
      i := i + 1;
      if group.routingTable == [] {
        index := index[group.id := NoRoutingTable(group.name)];
        continue;
      }
      if !HasDefault(group.routingTable) {
        index := index[group.id := NoDefaultRoute(group.name)];
        continue;
      }
      index := index[group.id := Ready(ActiveRoute(group.id, group.name, group.routingTable, BLANK_RULE))];
    }
    assert config.groups[..i] == config.groups;
  }

  /** What the index holds for a group: its own id, name and whole routing table when there is a
      `default` entry, and else its name and what is missing. */
  ghost predicate TellsOf(r: RouteResolution, g: Group) {
    var hasDefault := exists i :: 0 <= i < |g.routingTable| && g.routingTable[i].requestModel == "default";
    match r
    case NoRoutingTable(name) => g.routingTable == [] && name == g.name
    case NoDefaultRoute(name) => g.routingTable != [] && !hasDefault && name == g.name
    case Ready(route) =>
      hasDefault && route.groupId == g.id && route.groupName == g.name && route.routingTable == g.routingTable &&
      route.rule == Provider("", "")
  }

  /** Looking a group up in the index is scanning for the last group with that id. */
  lemma {:induction false} IndexAgreesWithScan(groups: seq<Group>, id: string) returns (k: nat)
    ensures if id in BuildIndex(groups)
            then IsLastGroup(groups, id, k) && TellsOf(BuildIndex(groups)[id], groups[k])
            else forall j :: 0 <= j < |groups| ==> groups[j].id != id
  {
    k := 0;
    if groups != [] {
      var n := |groups| - 1;
      k := IndexAgreesWithScan(groups[..n], id);
      if groups[n].id == id { k := n; }
    }
  }

  // ----- choosing a route entry -----

  function Matches(table: seq<RouteEntry>, model: string): seq<RouteEntry> {
    if table == [] then []
    else
      var e := table[|table| - 1];
      Matches(table[..|table| - 1], model) + (if Contains(model, e.requestModel) then [e] else [])
  }

  /** `Iterator::max_by_key`: of equal keys the last one wins. */
  function LastLongest(entries: seq<RouteEntry>): RouteEntry
    requires entries != []
  {
    var e := entries[|entries| - 1];
    if |entries| == 1 then e
    else
      var best := LastLongest(entries[..|entries| - 1]);
      if |e.requestModel| >= |best.requestModel| then e else best
  }

  function FirstDefault(table: seq<RouteEntry>): Option<RouteEntry> {
    if table == [] then None
    else if table[0].requestModel == "default" then Some(table[0])
    else FirstDefault(table[1..])
  }

  function FindProvider(providers: seq<Provider>, id: string): (r: Option<Provider>)
    ensures r.Some? ==> r.value in providers && r.value.id == id
    ensures r.None? <==> forall i :: 0 <= i < |providers| ==> providers[i].id != id
  {
    if providers == [] then None
    else if providers[0].id == id then Some(providers[0])
    else FindProvider(providers[1..], id)
  }

  ghost predicate FirstWithId(providers: seq<Provider>, id: string, p: Provider) {
    exists i :: 0 <= i < |providers| && providers[i] == p && p.id == id && forall j :: 0 <= j < i ==> providers[j].id != id
  }

  lemma {:induction false} FirstProviderFound(providers: seq<Provider>, id: string)
    ensures var r := FindProvider(providers, id); r.Some? ==> FirstWithId(providers, id, r.value)
  {
    if providers != [] && providers[0].id != id {
      var rest, r := providers[1..], FindProvider(providers[1..], id);
      FirstProviderFound(rest, id);
      if r.Some? {
        var i :| 0 <= i < |rest| && rest[i] == r.value && forall j :: 0 <= j < i ==> rest[j].id != id;
        assert providers[i + 1] == r.value && forall j :: 0 < j < i + 1 ==> providers[j] == rest[j - 1];
      }
    }
  }

  datatype Resolved = Resolved(route: ActiveRoute) | NoDefault | ProviderNotFound(id: string)

  function SelectEntry(table: seq<RouteEntry>, model: string): Option<RouteEntry> {
    var matches := Matches(table, model);
    if matches == [] then FirstDefault(table) else Some(LastLongest(matches))
  }

  /** `config` is the config at resolve time; it may be newer than the one the route was built from. */
  function ResolveRoute(config: Config, route: ActiveRoute, model: string): Resolved {
    var entry := SelectEntry(route.routingTable, model);
    if entry.None? then NoDefault
    else
      var provider := FindProvider(config.providers, entry.value.providerId);
      if provider.None? then ProviderNotFound(entry.value.providerId)
      else Resolved(route.(routingTable := [entry.value], rule := provider.value))
  }

  /** The pattern of entry `k` stands somewhere in the model name. */
  ghost predicate MatchAt(table: seq<RouteEntry>, model: string, k: int) {
    0 <= k < |table| && Inside(table[k].requestModel, model)
  }

  /** Entry `k` is contained in the model, none contained is longer, and none as long comes later. */
  ghost predicate LongestMatchAt(table: seq<RouteEntry>, model: string, k: int) {
    MatchAt(table, model, k) &&
    forall j :: MatchAt(table, model, j) ==>
      |table[j].requestModel| <= |table[k].requestModel| &&
      (j > k ==> |table[j].requestModel| < |table[k].requestModel|)
  }

  ghost predicate FirstDefaultAt(table: seq<RouteEntry>, k: int) {
    0 <= k < |table| && table[k].requestModel == "default" &&
    forall j :: 0 <= j < k ==> table[j].requestModel != "default"
  }

  lemma {:induction false} LongestMatchFound(table: seq<RouteEntry>, model: string) returns (k: int)
    ensures Matches(table, model) == [] <==> forall j :: !MatchAt(table, model, j)
    ensures Matches(table, model) != [] ==>
              LongestMatchAt(table, model, k) && table[k] == LastLongest(Matches(table, model))
  {
    k := 0;
    if table != [] {
      var n := |table| - 1;
      var init := table[..n];
      k := LongestMatchFound(init, model);
      ContainsMeansInside(model, table[n].requestModel);
      assert forall j :: 0 <= j < n ==> (MatchAt(table, model, j) <==> MatchAt(init, model, j));
      var before := Matches(init, model);
      if MatchAt(table, model, n) {
        assert Matches(table, model)[..|before|] == before;
        if before == [] || |table[n].requestModel| >= |table[k].requestModel| { k := n; }
      } else {
        assert Matches(table, model) == before;
      }
    }
  }

  lemma {:induction false} FirstDefaultFound(table: seq<RouteEntry>) returns (k: int)
    ensures FirstDefault(table).Some? <==> HasDefault(table)
    ensures HasDefault(table) ==> FirstDefaultAt(table, k) && FirstDefault(table) == Some(table[k])
  {
    k := 0;
    if table != [] && table[0].requestModel != "default" {
      k := FirstDefaultFound(table[1..]);
      k := k + 1;
      assert forall j :: 0 < j < |table| ==> table[j] == table[1..][j - 1];
    }
  }

  /** A Ready entry of an index always resolves to exactly one entry of the table of the last group with
      its id: the longest contained pattern, the last of equals, or the first `default` when nothing is
      contained. The only way to fail is a provider that the config no longer has. */
  lemma ReadyEntryResolves(groups: seq<Group>, id: string, config: Config, model: string) returns (last: nat, k: int)
    requires id in BuildIndex(groups) && BuildIndex(groups)[id].Ready?
    ensures IsLastGroup(groups, id, last) &&
            var table := groups[last].routingTable;
            0 <= k < |table| &&
            (if exists j :: MatchAt(table, model, j) then LongestMatchAt(table, model, k) else FirstDefaultAt(table, k)) &&
            match ResolveRoute(config, BuildIndex(groups)[id].route, model) {
              case Resolved(r) => r.routingTable == [table[k]] && r.groupId == id && r.groupName == groups[last].name &&
                                  FirstWithId(config.providers, table[k].providerId, r.rule)
              case ProviderNotFound(p) => p == table[k].providerId &&
                                  forall i :: 0 <= i < |config.providers| ==> config.providers[i].id != p
              case NoDefault => false
            }
  {
    last := IndexAgreesWithScan(groups, id);
    var table := groups[last].routingTable;
    k := LongestMatchFound(table, model);
    if Matches(table, model) == [] {
      k := FirstDefaultFound(table);
    }
    FirstProviderFound(config.providers, table[k].providerId);
  }
}
