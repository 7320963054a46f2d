// Config entities as far as storage normalisation looks at them.
module ConfigModel {
  import opened Text
  import opened RouteIndex

  /** A price: every finite 64-bit float is a whole multiple of 2 to the power -1074, and this is how many. */
  type Price = int

  datatype Cost = Cost(
    enabled: bool, input: Price, output: Price, cacheInput: Price, cacheOutput: Price,
    currency: string, template: Option<string>)

  /** A provider. `rest` stands for the fields that normalisation copies without looking. */
  datatype Rule = Rule(
    id: string, models: seq<string>, defaultModel: Option<string>,
    modelMappings: Option<map<string, string>>, cost: Cost, modelCosts: map<string, Cost>,
    quotaHeaders: map<string, string>, rest: string)

  datatype ProviderGroup = ProviderGroup(
    id: string, name: string, routingTable: seq<RouteEntry>, models: Option<seq<string>>,
    providerIds: Option<seq<string>>, activeProviderId: Option<string>,
    providers: Option<seq<Rule>>, failover: Option<string>)

  datatype ProxyConfig = ProxyConfig(groups: seq<ProviderGroup>, providers: seq<Rule>, rest: string)

  /** The key a provider is filed under: its trimmed id. */
  function Key(p: Rule): (k: string)
    ensures Trimmed(k)
  {
    Trim(p.id)
  }

  // ----- model costs -----

  predicate MeaningfulLegacyCost(c: Cost) {
    c.enabled || c.input != 0 || c.output != 0 || c.cacheInput != 0 || c.cacheOutput != 0 ||
    c.currency != "USD" || c.template.Some?
  }

  function ValidModels(models: seq<string>): set<string> {
    set m | m in models && Trim(m) != "" :: Trim(m)
  }

  /** Nothing left to do: cost keys are trimmed names of models, and a legacy cost has been spread. */
  ghost predicate Normal(p: Rule) {
    (forall m :: m in p.modelCosts ==> Trimmed(m) && m in ValidModels(p.models)) &&
    (p.modelCosts == map[] && MeaningfulLegacyCost(p.cost) ==> ValidModels(p.models) == {})
  }

  function KeptKeys(p: Rule): set<string> {
    set m | m in p.modelCosts && Trim(m) in ValidModels(p.models) :: Trim(m)
  }

  /** `costs` is what normalisation may make of the model costs of `p`: keys are trimmed and those
      naming no model are dropped; when two keys collide either cost may win; with none left, a
      meaningful legacy cost is given to every model. */
  ghost predicate NormalCosts(p: Rule, costs: map<string, Cost>) {
    if KeptKeys(p) != {} then
      costs.Keys == KeptKeys(p) &&
      forall t :: t in costs ==> exists m :: m in p.modelCosts && Trim(m) == t && costs[t] == p.modelCosts[m]
    else if MeaningfulLegacyCost(p.cost) then
      costs.Keys == ValidModels(p.models) && forall t :: t in costs ==> costs[t] == p.cost
    else
      costs == map[]
  }

  /** The models that have a cost in normal form. */
  function NormalKeys(p: Rule): set<string> {
    if KeptKeys(p) != {} then KeptKeys(p) else if MeaningfulLegacyCost(p.cost) then ValidModels(p.models) else {}
  }

  lemma NormalCostKeys(p: Rule, costs: map<string, Cost>)
    requires NormalCosts(p, costs)
    ensures costs.Keys == NormalKeys(p) && |costs| == |NormalKeys(p)|
  {
    assert |costs| == |costs.Keys|;
  }

  ghost predicate Normalizes(p: Rule, q: Rule) { NormalCosts(p, q.modelCosts) && q == p.(modelCosts := q.modelCosts) }

  lemma NormalKeepsKeys(p: Rule)
    requires Normal(p)
    ensures KeptKeys(p) == p.modelCosts.Keys
  {
    forall m | m in p.modelCosts ensures m in KeptKeys(p) {
      assert Trim(m) == m && Trim(m) in ValidModels(p.models);
    }
    forall t | t in KeptKeys(p) ensures t in p.modelCosts {
      var m :| m in p.modelCosts && Trim(m) == t;
      assert Trim(m) == m;
    }
  }

  lemma NormalIsFixed(p: Rule, q: Rule)
    requires Normalizes(p, q) && Normal(p)
    ensures q == p
  {
    hide Trim;
    NormalKeepsKeys(p);
    if p.modelCosts == map[] {
      assert q.modelCosts.Keys == {};
      assert q.modelCosts == map[];
    } else {
      assert KeptKeys(p) != {} by { var m :| m in p.modelCosts; }
      forall t | t in q.modelCosts ensures q.modelCosts[t] == p.modelCosts[t] {
        var m :| m in p.modelCosts && Trim(m) == t && q.modelCosts[t] == p.modelCosts[m];
        assert Trimmed(m);
      }
      assert q.modelCosts == p.modelCosts;
    }
  }

  lemma NormalizedIsNormal(p: Rule, q: Rule)
    requires Normalizes(p, q)
    ensures Normal(q)
  {
    forall m | m in q.modelCosts ensures Trimmed(m) && m in ValidModels(q.models) {
      if KeptKeys(p) != {} { assert m in KeptKeys(p); }
    }
  }

  /** A legacy cost with nothing set. */
  const NO_COST: Cost := Cost(false, 0, 0, 0, 0, "USD", None)

  /** `t` is the trimmed, non-blank name of a model. */
  ghost predicate Names(models: seq<string>, t: string) { t != "" && exists m :: m in models && Trim(m) == t }

  /** `cost` is given for `t` under some spelling of it. */
  ghost predicate GivenFor(p: Rule, t: string, cost: Cost) {
    exists m :: m in p.modelCosts && Trim(m) == t && p.modelCosts[m] == cost
  }

  /** The model costs of `q` are those given in `p` for its models or, when none is, its legacy cost for all of
      them unless that is unset. */
  ghost predicate CostsCarried(p: Rule, q: Rule) {
    q == p.(modelCosts := q.modelCosts) &&
    if exists t, cost :: Names(p.models, t) && GivenFor(p, t, cost) then
      (forall t :: t in q.modelCosts <==> Names(p.models, t) && exists cost :: GivenFor(p, t, cost)) &&
      forall t :: t in q.modelCosts ==> GivenFor(p, t, q.modelCosts[t])
    else
      (forall t :: t in q.modelCosts <==> Names(p.models, t) && p.cost != NO_COST) &&
      forall t :: t in q.modelCosts ==> q.modelCosts[t] == p.cost
  }

  lemma KeptIsGiven(p: Rule, t: string)
    ensures t in KeptKeys(p) <==> Names(p.models, t) && exists cost :: GivenFor(p, t, cost)
  {
    hide Trim;
    if t in KeptKeys(p) {
      var m :| m in p.modelCosts && Trim(m) == t;
      assert GivenFor(p, t, p.modelCosts[m]);
    }
  }

  lemma MeaningfulExactly(c: Cost)
    ensures MeaningfulLegacyCost(c) <==> c != NO_COST
  {
  }

  lemma SomeKept(p: Rule)
    ensures KeptKeys(p) != {} <==> exists t, cost :: Names(p.models, t) && GivenFor(p, t, cost)
  {
    forall t ensures t in KeptKeys(p) <==> Names(p.models, t) && exists cost :: GivenFor(p, t, cost) { KeptIsGiven(p, t); }
    hide KeptKeys, Names, GivenFor;
  }

  /** Normal forms are exactly the providers with their costs carried over. */
  lemma NormalizesExactly(p: Rule, q: Rule)
    ensures Normalizes(p, q) <==> CostsCarried(p, q)
  {
    SomeKept(p);
    hide Trim, ValidModels, Names, MeaningfulLegacyCost, KeptKeys, GivenFor;
    if KeptKeys(p) != {} { KeptCostsCarried(p, q); } else { LegacyCostCarried(p, q); }
  }

  lemma KeptCostsCarried(p: Rule, q: Rule)
    requires KeptKeys(p) != {}
    ensures NormalCosts(p, q.modelCosts) <==>
              (forall t :: t in q.modelCosts <==> Names(p.models, t) && exists cost :: GivenFor(p, t, cost)) &&
              forall t :: t in q.modelCosts ==> GivenFor(p, t, q.modelCosts[t])
  {
    KeptNormal(p, q.modelCosts);
    forall t ensures t in KeptKeys(p) <==> Names(p.models, t) && exists cost :: GivenFor(p, t, cost) { KeptIsGiven(p, t); }
    hide KeptKeys, Names, NormalCosts, GivenFor;
  }

  lemma KeptNormal(p: Rule, costs: map<string, Cost>)
    requires KeptKeys(p) != {}
    ensures NormalCosts(p, costs) <==>
              (forall t :: t in costs <==> t in KeptKeys(p)) && forall t :: t in costs ==> GivenFor(p, t, costs[t])
  {
    hide Trim, KeptKeys;
    assert costs.Keys == KeptKeys(p) <==> forall t :: t in costs <==> t in KeptKeys(p);
    forall t | t in costs
      ensures GivenFor(p, t, costs[t]) <==> exists m :: m in p.modelCosts && Trim(m) == t && costs[t] == p.modelCosts[m]
    {
    }
    hide GivenFor;
  }

  lemma LegacyCostCarried(p: Rule, q: Rule)
    requires KeptKeys(p) == {}
    ensures NormalCosts(p, q.modelCosts) <==>
              (forall t :: t in q.modelCosts <==> Names(p.models, t) && p.cost != NO_COST) &&
              forall t :: t in q.modelCosts ==> q.modelCosts[t] == p.cost
  {
    forall t ensures t in ValidModels(p.models) <==> Names(p.models, t) {}
    MeaningfulExactly(p.cost);
    hide Trim, KeptKeys, Names, ValidModels, MeaningfulLegacyCost;
    if p.cost == NO_COST && forall t :: t !in q.modelCosts { assert q.modelCosts == map[]; }
  }

  method NormalizeProviderForStorage(provider: Rule) returns (r: Rule)
    ensures Normalizes(provider, r) && CostsCarried(provider, r)
    ensures Normal(r) && r.id == provider.id
    ensures Normal(provider) ==> r == provider
  {
    var valid := ValidModels(provider.models);
    var costs: map<string, Cost> := map[];
    var left := provider.modelCosts.Keys;
    while left != {}
      invariant left <= provider.modelCosts.Keys
      invariant forall m :: m in provider.modelCosts && m !in left && Trim(m) in valid ==> Trim(m) in costs
      invariant forall t :: t in costs ==> t in valid
      invariant forall t :: t in costs ==>
                  exists m :: m in provider.modelCosts && Trim(m) == t && costs[t] == provider.modelCosts[m]
      decreases left
    {
      var model :| model in left;
      left := left - {model};
      var trimmed := Trim(model);
      if trimmed == "" || trimmed !in valid { continue; }
      if trimmed !in costs {
        costs := costs[trimmed := provider.modelCosts[model]];
      }
    }
    assert costs.Keys == KeptKeys(provider);
    if costs == map[] && MeaningfulLegacyCost(provider.cost) {
      costs := SpreadLegacyCost(provider.models, provider.cost);
    }
    r := provider.(modelCosts := costs);
    NormalizedIsNormal(provider, r);
    NormalizesExactly(provider, r);
    if Normal(provider) { NormalIsFixed(provider, r); }
  }

  method SpreadLegacyCost(models: seq<string>, cost: Cost) returns (costs: map<string, Cost>)
    ensures costs.Keys == ValidModels(models) && forall t :: t in costs ==> costs[t] == cost
  {
    costs := map[];
    var i := 0;
    while i < |models|
      invariant 0 <= i <= |models|
      invariant costs.Keys == ValidModels(models[..i]) && forall t :: t in costs ==> costs[t] == cost
    {
      var trimmed := Trim(models[i]);
      assert ValidModels(models[..i + 1]) == ValidModels(models[..i]) + (if trimmed == "" then {} else {trimmed}) by {
        assert models[..i + 1] == models[..i] + [models[i]];
      }
      i := i + 1;
      if trimmed == "" { continue; }
      costs := costs[trimmed := cost];
    }
    assert models[..i] == models;
  }
}
