// The provider table of storage normalisation: global and embedded providers are filed by trimmed id.
module ConfigTable {
  import opened Text
  import opened Sequences
  import opened ConfigModel

  type Entries = map<string, Rule>

  /** The answer to the n-th comparison of two providers by their JSON text. Hash map order is not
      fixed, so equal providers may be told apart. */
  type Compare = (nat, Rule, Rule) -> bool

  /** `p` always compares equal to itself. */
  ghost predicate SelfSame(same: Compare, p: Rule) { forall n :: same(n, p, p) }

  /** Equal providers always compare equal. */
  ghost predicate Stable(same: Compare) { forall p :: SelfSame(same, p) }

  /** Only equal providers compare equal. */
  ghost predicate Faithful(same: Compare) { forall n, p, q :: same(n, p, q) ==> p == q }

  lemma EqualityComparesWell()
    ensures exists same: Compare :: Stable(same) && Faithful(same)
  {
    var same: Compare := (n, p, q) => p == q;
    assert forall p :: SelfSame(same, p);
    assert Stable(same) && Faithful(same);
  }

  /** A source of ids that are not in use, standing for the UUID loop. */
  ghost predicate GivesFresh(newId: set<string> -> string) {
    forall used: set<string> :: newId(used) !in used && newId(used) != "" && Trimmed(newId(used))
  }

  /** A string longer than any of `used`. */
  ghost function Longer(used: set<string>): (r: string)
    ensures r != "" && Trimmed(r) && forall s :: s in used ==> |s| < |r|
  {
    if used == {} then "x"
    else
      var s :| s in used;
      var r := Longer(used - {s});
      if |s| < |r| then r else seq(|s| + 1, _ => 'x')
  }

  // ----- the provider table -----

  ghost predicate EntryOk(m: Entries, k: string)
    requires k in m
  {
    k != "" && Key(m[k]) == k && Normal(m[k])
  }

  /** The map and the insertion order agree. */
  ghost predicate TableOk(m: Entries, order: seq<string>) {
    (forall k :: k in m ==> EntryOk(m, k)) && Distinct(order) && forall k :: k in order <==> k in m
  }

  ghost predicate SubTable(m: Entries, n: Entries) { forall k :: k in m ==> k in n && n[k] == m[k] }

  /** Tables only grow: entries stay, and new ids are appended. */
  ghost predicate Grows(m: Entries, order: seq<string>, m': Entries, order': seq<string>) {
    SubTable(m, m') && order <= order'
  }

  lemma InsertKeepsTable(m: Entries, order: seq<string>, k: string, p: Rule)
    requires TableOk(m, order) && k !in m && k != "" && Key(p) == k && Normal(p)
    ensures TableOk(m[k := p], order + [k]) && Grows(m, order, m[k := p], order + [k])
  {
    hide Trim;
    var m' := m[k := p];
    forall x | x in m' ensures EntryOk(m', x) {
      if x != k { assert EntryOk(m, x); }
    }
  }

  lemma RenamingKeepsNormal(p: Rule, id: string)
    requires Normal(p)
    ensures Normal(p.(id := id))
  {
  }

  // ----- fresh ids -----

  function Suffixed(base: string, n: nat): string { base + "-" + Numeral(n) }

  lemma SuffixedIsTrimmed(base: string, n: nat)
    requires base != "" && Trimmed(base)
    ensures Trimmed(Suffixed(base, n)) && Suffixed(base, n) != ""
  {
    var s := Suffixed(base, n);
    assert s[0] == base[0] && s[|s| - 1] == Numeral(n)[|Numeral(n)| - 1];
  }

  /** `id` is the first free of base-2 to base-1000, or a fresh one when there is none. */
  ghost predicate Allocated(base: string, m: Entries, newId: set<string> -> string, id: string) {
    (exists n :: 2 <= n <= 1000 && base != "" && id == Suffixed(base, n) && FreeFrom(base, m, n)) ||
    (id == newId(m.Keys) && (base == "" || forall n :: 2 <= n <= 1000 ==> Suffixed(base, n) in m))
  }

  ghost predicate FreeFrom(base: string, m: Entries, n: nat) {
    Suffixed(base, n) !in m && forall k :: 2 <= k < n ==> Suffixed(base, k) in m
  }

  method AllocUniqueProviderId(providerId: string, m: Entries, newId: set<string> -> string) returns (id: string)
    requires GivesFresh(newId)
    ensures id !in m && id != "" && Trimmed(id)
    ensures Allocated(Trim(providerId), m, newId, id)
  {
    hide Trim;
    hide Suffixed;
    var base := Trim(providerId);
    if base != "" {
      var idx := 1;
      while idx < 1000
        invariant 1 <= idx <= 1000
        invariant forall k :: 2 <= k <= idx ==> Suffixed(base, k) in m
      {
        var candidate := Suffixed(base, idx + 1);
        SuffixedIsTrimmed(base, idx + 1);
        if candidate !in m {
          assert FreeFrom(base, m, idx + 1);
          return candidate;
        }
        idx := idx + 1;
      }
    }
    return newId(m.Keys);
  }

  // ----- where entries come from -----

  /** A normal form of `p` is filed under `k`, up to its id. */
  ghost predicate FiledAs(p: Rule, k: string, m: Entries) { k in m && Normalizes(p, m[k].(id := p.id)) }

  /** The entry under `k` is a given provider in normal form, with its own id or renamed to `k`. */
  ghost predicate Sourced(m: Entries, k: string, given: set<Rule>) {
    exists p :: p in given && FiledAs(p, k, m) && (m[k].id == p.id || m[k].id == k)
  }

  ghost predicate NewSourced(m: Entries, m': Entries, given: set<Rule>) {
    forall k :: k in m' && k !in m ==> Sourced(m', k, given)
  }

  lemma SourcedGrows(m: Entries, m': Entries, k: string, given: set<Rule>, given': set<Rule>)
    requires Sourced(m, k, given) && SubTable(m, m') && given <= given'
    ensures Sourced(m', k, given')
  {
    hide Normalizes;
    var p :| p in given && FiledAs(p, k, m) && (m[k].id == p.id || m[k].id == k);
    assert FiledAs(p, k, m');
  }

  lemma NewSourcedJoins(m: Entries, n: Entries, m': Entries, first: set<Rule>, given: set<Rule>, all: set<Rule>)
    requires NewSourced(m, n, first) && NewSourced(n, m', given) && SubTable(n, m') && first <= all && given <= all
    ensures NewSourced(m, m', all)
  {
    hide Sourced;
    forall k | k in m' && k !in m ensures Sourced(m', k, all) {
      if k in n { SourcedGrows(n, m', k, first, all); } else { SourcedGrows(m', m', k, given, all); }
    }
  }

  lemma InsertIsSourced(m: Entries, k: string, p: Rule, q: Rule, given: set<Rule>)
    requires p in given && k !in m && Normalizes(p, q.(id := p.id)) && (q.id == p.id || q.id == k)
    ensures NewSourced(m, m[k := q], given) && FiledAs(p, k, m[k := q])
  {
    hide Normalizes;
    assert FiledAs(p, k, m[k := q]);
  }

  // ----- global providers -----

  /** Entries whose providers are already in final form, with distinct non-blank keys. */
  ghost predicate CanonicalList(providers: seq<Rule>, t: Entries) {
    (forall i :: 0 <= i < |providers| ==> CanonicalProvider(providers[i], t)) &&
    forall i, j :: 0 <= i < j < |providers| ==> Key(providers[i]) != Key(providers[j])
  }

  ghost predicate CanonicalProvider(p: Rule, t: Entries) {
    Normal(p) && Key(p) != "" && Key(p) in t && t[Key(p)] == p
  }

  /** The first provider with a given non-blank key. */
  ghost predicate FirstWithKey(providers: seq<Rule>, i: int) {
    0 <= i < |providers| && Key(providers[i]) != "" &&
    forall j :: 0 <= j < i ==> Key(providers[j]) != Key(providers[i])
  }

  ghost predicate FiledNormalized(p: Rule, m: Entries) { Key(p) in m && Normalizes(p, m[Key(p)]) }

  predicate HasGlobal(providers: seq<Rule>) { exists i :: 0 <= i < |providers| && Key(providers[i]) != "" }

  function NonBlank(ids: seq<string>): set<string> { (set x | x in ids) - {""} }

  function Rules(providers: seq<Rule>): set<Rule> { set p | p in providers }

  /** Of the first `i` providers, those that are the first with their key are filed under it. */
  ghost predicate FirstsFiled(providers: seq<Rule>, i: nat, m: Entries) {
    forall j :: 0 <= j < i && FirstWithKey(providers, j) ==> FiledNormalized(providers[j], m)
  }

  lemma NextFiled(providers: seq<Rule>, i: nat, m: Entries, k: string, p: Rule)
    requires i < |providers| && FirstsFiled(providers, i, m) && k == Key(providers[i]) && k !in m && Normalizes(providers[i], p)
    ensures FirstsFiled(providers, i + 1, m[k := p])
  {
    hide Key;
    hide Normalizes;
    forall j | 0 <= j < i + 1 && FirstWithKey(providers, j) ensures FiledNormalized(providers[j], m[k := p]) {
      if j < i { assert FiledNormalized(providers[j], m); }
    }
  }

  lemma NextCanonical(providers: seq<Rule>, i: nat, m: Entries, t: Entries, k: string, p: Rule)
    requires i < |providers| && CanonicalList(providers, t) && SubTable(m, t) && k == Key(providers[i])
    requires Normal(providers[i]) ==> p == providers[i]
    ensures SubTable(m[k := p], t)
  {
    hide Key;
    hide Normal;
    assert CanonicalProvider(providers[i], t);
  }

  /** What holds after the first `i` global providers. `t` is a candidate for the final table; it only
      matters when the input is already canonical. */
  ghost predicate GlobalInv(providers: seq<Rule>, i: nat, m: Entries, order: seq<string>, t: Entries) {
    i <= |providers| && TableOk(m, order) &&
    order == Firsts(Keys(providers), NonBlank(Keys(providers)), i) &&
    FirstsFiled(providers, i, m) && NewSourced(map[], m, Rules(providers)) &&
    (CanonicalList(providers, t) ==> SubTable(m, t))
  }

  lemma GlobalSkips(providers: seq<Rule>, i: nat, m: Entries, order: seq<string>, t: Entries)
    requires i < |providers| && GlobalInv(providers, i, m, order, t)
    requires Key(providers[i]) == "" || Key(providers[i]) in m
    ensures GlobalInv(providers, i + 1, m, order, t)
  {
    hide Key;
    hide Normalizes;
    hide TableOk;
    hide SubTable;
    hide CanonicalList;
    hide NewSourced;
    hide Firsts;
    TableMember(m, order, Key(providers[i]));
    NextKey(providers, i, order);
    hide Keys;
    hide NonBlank;
  }

  lemma TableMember(m: Entries, order: seq<string>, k: string)
    requires TableOk(m, order)
    ensures k in m <==> k in order
  {
  }

  lemma NextKey(providers: seq<Rule>, i: nat, order: seq<string>)
    requires i < |providers| && order == Firsts(Keys(providers), NonBlank(Keys(providers)), i)
    ensures var k := Key(providers[i]);
            Firsts(Keys(providers), NonBlank(Keys(providers)), i + 1) ==
            if k != "" && k !in order then order + [k] else order
    ensures FirstWithKey(providers, i) ==> Key(providers[i]) !in order
  {
    hide Key;
    hide Firsts;
    var ks := Keys(providers);
    FirstsStep(ks, NonBlank(ks), i);
    FirstsMembers(ks, NonBlank(ks), i);
  }

  lemma GlobalInserts(providers: seq<Rule>, i: nat, m: Entries, order: seq<string>, t: Entries, p: Rule)
    requires i < |providers| && GlobalInv(providers, i, m, order, t)
    requires Key(providers[i]) != "" && Key(providers[i]) !in m && Key(p) == Key(providers[i])
    requires Normalizes(providers[i], p) && Normal(p) && (Normal(providers[i]) ==> p == providers[i])
    ensures GlobalInv(providers, i + 1, m[Key(p) := p], order + [Key(p)], t)
  {
    assert TableOk(m, order) && FirstsFiled(providers, i, m) && NewSourced(map[], m, Rules(providers));
    SameRule(providers[i], p);
    hide TableOk, NewSourced, FirstsFiled, Normalizes, Normal, CanonicalList, SubTable, Key, Firsts, Keys, NonBlank, Rules;
    var k := Key(p);
    InsertKeepsTable(m, order, k, p);
    NextFiled(providers, i, m, k, p);
    GlobalSourced(providers, i, m, p);
    TableMember(m, order, k);
    NextKey(providers, i, order);
    if CanonicalList(providers, t) { NextCanonical(providers, i, m, t, k, p); }
  }

  lemma GlobalSourced(providers: seq<Rule>, i: nat, m: Entries, p: Rule)
    requires i < |providers| && NewSourced(map[], m, Rules(providers)) && Key(p) !in m
    requires Normalizes(providers[i], p) && p.(id := providers[i].id) == p
    ensures NewSourced(map[], m[Key(p) := p], Rules(providers))
  {
    hide Key;
    hide Normalizes;
    InsertIsSourced(m, Key(p), providers[i], p, Rules(providers));
    NewSourcedJoins(map[], m, m[Key(p) := p], Rules(providers), Rules(providers), Rules(providers));
  }

  lemma SameRule(p: Rule, q: Rule)
    requires Normalizes(p, q)
    ensures q.id == p.id && q.(id := p.id) == q
  {
  }

  /** Files the first provider of each non-blank key, in the order in which the keys first occur. */
  method MergeGlobal(providers: seq<Rule>, ghost t: Entries) returns (m: Entries, order: seq<string>)
    ensures TableOk(m, order)
    ensures m.Keys == NonBlank(Keys(providers)) && order == Firsts(Keys(providers), m.Keys, |providers|)
    ensures FirstsFiled(providers, |providers|, m)
    ensures NewSourced(map[], m, Rules(providers))
    ensures order != [] <==> HasGlobal(providers)
    ensures CanonicalList(providers, t) ==> SubTable(m, t) && order == Keys(providers)
  {
    hide *;
    m, order := map[], [];
    var i := 0;
    GlobalStarts(providers, t);
    while i < |providers|
      invariant 0 <= i <= |providers|
      invariant GlobalInv(providers, i, m, order, t)
    {
      var provider := NormalizeProviderForStorage(providers[i]);
      SameIdSameKey(provider, providers[i]);
      var id := Key(provider);
      if id == "" || id in m {
        GlobalSkips(providers, i, m, order, t);
      } else {
        GlobalInserts(providers, i, m, order, t, provider);
        m, order := m[id := provider], order + [id];
      }
      i := i + 1;
    }
    GlobalEnds(providers, m, order, t);
  }

  lemma SameIdSameKey(p: Rule, q: Rule)
    requires p.id == q.id
    ensures Key(p) == Key(q)
  {
  }

  lemma GlobalStarts(providers: seq<Rule>, t: Entries)
    ensures GlobalInv(providers, 0, map[], [], t)
  {
    hide Key;
  }

  lemma GlobalEnds(providers: seq<Rule>, m: Entries, order: seq<string>, t: Entries)
    requires GlobalInv(providers, |providers|, m, order, t)
    ensures TableOk(m, order)
    ensures m.Keys == NonBlank(Keys(providers)) && order == Firsts(Keys(providers), m.Keys, |providers|)
    ensures FirstsFiled(providers, |providers|, m)
    ensures NewSourced(map[], m, Rules(providers))
    ensures order != [] <==> HasGlobal(providers)
    ensures CanonicalList(providers, t) ==> SubTable(m, t) && order == Keys(providers)
  {
    hide *;
    GlobalHolds(providers, m, order, t);
    GlobalKeys(Keys(providers), m, order);
    GlobalMeansKeys(providers);
    if CanonicalList(providers, t) { CanonicalKeysFresh(providers, t); }
  }

  lemma GlobalHolds(providers: seq<Rule>, m: Entries, order: seq<string>, t: Entries)
    requires GlobalInv(providers, |providers|, m, order, t)
    ensures TableOk(m, order) && NewSourced(map[], m, Rules(providers))
    ensures order == Firsts(Keys(providers), NonBlank(Keys(providers)), |providers|)
    ensures FirstsFiled(providers, |providers|, m)
    ensures CanonicalList(providers, t) ==> SubTable(m, t)
  {
    hide TableOk;
    hide NewSourced;
    hide Firsts;
    hide FiledNormalized;
    hide Key;
  }

  lemma GlobalKeys(ids: seq<string>, m: Entries, order: seq<string>)
    requires TableOk(m, order) && order == Firsts(ids, NonBlank(ids), |ids|)
    ensures m.Keys == NonBlank(ids)
    ensures order != [] <==> NonBlank(ids) != {}
  {
    hide *;
    FirstsOfNonBlank(ids);
    forall k ensures k in m.Keys <==> k in NonBlank(ids) { TableMember(m, order, k); }
    assert order == [] ==> NonBlank(ids) == {};
    assert order != [] ==> order[0] in NonBlank(ids);
  }

  lemma GlobalMeansKeys(providers: seq<Rule>)
    ensures HasGlobal(providers) <==> NonBlank(Keys(providers)) != {}
  {
    hide Key;
    var ks := Keys(providers);
    if HasGlobal(providers) {
      var i :| 0 <= i < |providers| && Key(providers[i]) != "";
      assert ks[i] in NonBlank(ks);
    }
    if x :| x in NonBlank(ks) {
      var i :| 0 <= i < |ks| && ks[i] == x;
      assert Key(providers[i]) != "";
    }
  }

  lemma FirstsOfNonBlank(ids: seq<string>)
    ensures forall x :: x in Firsts(ids, NonBlank(ids), |ids|) <==> x in NonBlank(ids)
  {
    FirstsMembers(ids, NonBlank(ids), |ids|);
    assert ids[..|ids|] == ids;
  }

  lemma CanonicalKeysFresh(providers: seq<Rule>, t: Entries)
    requires CanonicalList(providers, t)
    ensures Firsts(Keys(providers), NonBlank(Keys(providers)), |providers|) == Keys(providers)
  {
    hide Key;
    hide Normal;
    var ks := Keys(providers);
    forall i | 0 <= i < |ks| ensures ks[i] in NonBlank(ks) { assert CanonicalProvider(providers[i], t); }
    FirstsAll(ks, NonBlank(ks), |providers|);
  }

  function Keys(providers: seq<Rule>): (ks: seq<string>)
    ensures |ks| == |providers| && forall i :: 0 <= i < |ks| ==> ks[i] == Key(providers[i])
  {
    seq(|providers|, i requires 0 <= i < |providers| => Key(providers[i]))
  }

  // ----- embedded providers of one group -----

  ghost predicate Survives(p: Rule, m: Entries) { exists k :: FiledAs(p, k, m) }

  ghost predicate Scoped(p: Rule, scoped: set<string>) { Key(p) != "" && Key(p) in scoped }

  function ScopedRules(embedded: seq<Rule>, scoped: set<string>): set<Rule> {
    set p | p in embedded && Key(p) != "" && Key(p) in scoped
  }

  /** A provider of the group is filed: under its own key, unless that key was renamed in the group. */
  ghost predicate Reached(p: Rule, remap: map<string, string>, m: Entries) {
    Survives(p, m) && (Key(p) !in remap ==> FiledAs(p, Key(p), m))
  }

  lemma FiledAsGrows(p: Rule, k: string, m: Entries, m': Entries)
    requires FiledAs(p, k, m) && SubTable(m, m')
    ensures FiledAs(p, k, m')
  {
    hide Normalizes;
  }

  lemma ReachedGrows(p: Rule, remap: map<string, string>, m: Entries, m': Entries)
    requires Reached(p, remap, m) && SubTable(m, m')
    ensures Reached(p, remap, m')
  {
    hide Key;
    hide Normalizes;
    var k :| FiledAs(p, k, m);
    assert FiledAs(p, k, m');
  }

  /** A renamed id leads to an entry, a copy of an embedded provider that carried the old id. */
  ghost predicate RemapOk(remap: map<string, string>, m: Entries, embedded: seq<Rule>) {
    forall k :: k in remap ==> k != "" && remap[k] in m && RenamedFrom(k, remap[k], m, embedded)
  }

  ghost predicate RenamedFrom(k: string, k': string, m: Entries, embedded: seq<Rule>) {
    exists j :: 0 <= j < |embedded| && Key(embedded[j]) == k && FiledAs(embedded[j], k', m)
  }

  lemma RemapGrows(remap: map<string, string>, m: Entries, m': Entries, embedded: seq<Rule>)
    requires RemapOk(remap, m, embedded) && SubTable(m, m')
    ensures RemapOk(remap, m', embedded)
  {
    hide Key;
    hide Normalizes;
    forall k | k in remap ensures RenamedFrom(k, remap[k], m', embedded) {
      assert RenamedFrom(k, remap[k], m, embedded);
      var j :| 0 <= j < |embedded| && Key(embedded[j]) == k && FiledAs(embedded[j], remap[k], m);
      assert FiledAs(embedded[j], remap[k], m');
    }
  }

  /** Every embedded provider is already filed, unchanged, in `t` and linked by its group. */
  ghost predicate CanonicalEmbedded(embedded: seq<Rule>, scoped: set<string>, t: Entries) {
    forall j :: 0 <= j < |embedded| ==> CanonicalProvider(embedded[j], t) && Key(embedded[j]) in scoped
  }

  /** Filing one embedded provider: under its own key when that is free, not at all when it compares
      equal to the entry there, and else as a copy under an allocated id. */
  method FileEmbedded(
    provider: Rule, m: Entries, order: seq<string>, same: Compare, call: nat,
    newId: set<string> -> string, ghost original: Rule, ghost t: Entries)
    returns (m': Entries, order': seq<string>, id: string, call': nat)
    requires TableOk(m, order) && GivesFresh(newId) && Normalizes(original, provider)
    requires Normal(provider) && Key(provider) != ""
    ensures TableOk(m', order') && Grows(m, order, m', order') && id in m' && call <= call'
    ensures Key(provider) in m'
    ensures Key(provider) !in m ==>
              id == Key(provider) && m' == m[id := provider] && order' == order + [id]
    ensures Key(provider) in m && same(call, m[Key(provider)], provider) ==>
              id == Key(provider) && m' == m && order' == order
    ensures Key(provider) in m && !same(call, m[Key(provider)], provider) ==>
              id !in m && Allocated(Key(provider), m, newId, id) &&
              m' == m[id := provider.(id := id)] && order' == order + [id]
    ensures Key(provider) !in m || id != Key(provider) || Faithful(same) ==> FiledAs(original, id, m')
    ensures NewSourced(m, m', {original})
    ensures SelfSame(same, provider) && SubTable(m, t) && CanonicalProvider(provider, t) ==>
              id == Key(provider) && SubTable(m', t)
  {
    hide Trim;
    hide Normal;
    hide Allocated;
    SameRule(original, provider);
    hide Normalizes;
    m', order', call' := m, order, call;
    id := Trim(provider.id);
    if id in m {
      call' := call + 1;
      if !same(call, m[id], provider) {
        var next := AllocUniqueProviderId(id, m, newId);
        var copy := provider.(id := next);
        RenamingKeepsNormal(provider, next);
        InsertKeepsTable(m, order, next, copy);
        assert copy.(id := original.id) == provider;
        InsertIsSourced(m, next, original, copy, {original});
        m', order', id := m[next := copy], order + [next], next;
      }
      return;
    }
    InsertKeepsTable(m, order, id, provider);
    InsertIsSourced(m, id, original, provider, {original});
    m', order' := m[id := provider], order + [id];
  }

  /** A provider that is filed already, unchanged, is copied under a new id when the comparison tells
      the two renderings apart. */
  method EqualProviderCopied(provider: Rule, newId: set<string> -> string)
    returns (m': Entries, order': seq<string>, id: string)
    requires GivesFresh(newId) && Normal(provider) && Key(provider) != ""
    ensures id == Key(provider) + "-2" && |order'| == 2
    ensures m' == map[Key(provider) := provider][id := provider.(id := id)]
  {
    hide Key, Normal, Normalizes, TableOk, GivesFresh;
    var k := Key(provider);
    var same: Compare := (n, p, q) => false;
    var m := map[k := provider];
    NormalFormOfItself(provider);
    SingletonTable(provider);
    assert k in m && m.Keys == {k} && !same(0, m[k], provider);
    hide *;
    var call;
    m', order', id, call := FileEmbedded(provider, m, [k], same, 0, newId, provider, map[]);
    FirstSuffixAllocated(k, m, newId, id);
  }

  lemma SingletonTable(p: Rule)
    requires Normal(p) && Key(p) != ""
    ensures TableOk(map[Key(p) := p], [Key(p)])
  {
    hide Key;
    hide Normal;
  }

  lemma FirstSuffixAllocated(k: string, m: Entries, newId: set<string> -> string, id: string)
    requires m.Keys == {k} && k != "" && Allocated(k, m, newId, id)
    ensures id == k + "-2"
  {
    assert forall n :: |Suffixed(k, n)| > |k|;
    assert Suffixed(k, 2) !in m;
    assert Numeral(2) == "2";
  }

  lemma NormalFormOfItself(p: Rule)
    requires Normal(p)
    ensures Normalizes(p, p)
  {
    NormalKeepsKeys(p);
    assert forall m :: m in p.modelCosts ==> Trim(m) == m;
    if p.modelCosts != map[] { assert exists m :: m in p.modelCosts; }
  }

  /** What filing the first `i` embedded providers of a group makes of table `m`: new entries are theirs,
      every one in scope has its key filed and, if comparisons are faithful, can be reached. */
  ghost predicate EmbeddedFiled(
    embedded: seq<Rule>, i: nat, scoped: set<string>, m: Entries, m': Entries,
    remap: map<string, string>, same: Compare)
  {
    i <= |embedded| && RemapOk(remap, m', embedded) && NewSourced(m, m', ScopedRules(embedded, scoped)) &&
    (forall k :: k in remap ==> remap[k] !in m) &&
    (forall j :: 0 <= j < i && Scoped(embedded[j], scoped) ==> Key(embedded[j]) in m') &&
    (Faithful(same) ==> forall j :: 0 <= j < i && Scoped(embedded[j], scoped) ==> Reached(embedded[j], remap, m'))
  }

  lemma EmbeddedSkips(
    embedded: seq<Rule>, i: nat, scoped: set<string>, m: Entries, m': Entries,
    remap: map<string, string>, same: Compare)
    requires i < |embedded| && EmbeddedFiled(embedded, i, scoped, m, m', remap, same) && !Scoped(embedded[i], scoped)
    ensures EmbeddedFiled(embedded, i + 1, scoped, m, m', remap, same)
  {
    hide Key;
    hide Reached;
    hide RemapOk;
    hide NewSourced;
  }

  lemma EmbeddedFiles(
    embedded: seq<Rule>, i: nat, scoped: set<string>, m: Entries, n: Entries, m': Entries,
    remap: map<string, string>, filed: string, same: Compare)
    requires i < |embedded| && EmbeddedFiled(embedded, i, scoped, m, n, remap, same) && Scoped(embedded[i], scoped)
    requires SubTable(m, n) && SubTable(n, m') && NewSourced(n, m', {embedded[i]}) && Key(embedded[i]) in m'
    requires filed != Key(embedded[i]) ==> filed !in n && FiledAs(embedded[i], filed, m')
    requires Faithful(same) ==> FiledAs(embedded[i], filed, m')
    ensures var remap' := if filed == Key(embedded[i]) then remap else remap[Key(embedded[i]) := filed];
            EmbeddedFiled(embedded, i + 1, scoped, m, m', remap', same)
  {
    hide Key;
    hide FiledAs;
    hide Sourced;
    hide Faithful;
    var k := Key(embedded[i]);
    var remap' := if filed == k then remap else remap[k := filed];
    RemapGrows(remap, n, m', embedded);
    assert filed != k ==> RenamedFrom(k, filed, m', embedded);
    assert RemapOk(remap', m', embedded) by {
      forall x | x in remap' ensures x != "" && remap'[x] in m' && RenamedFrom(x, remap'[x], m', embedded) {
        if x != k || filed == k { assert x in remap; } else { FiledIsThere(embedded[i], filed, m'); }
      }
    }
    hide RemapOk;
    assert embedded[i] in ScopedRules(embedded, scoped);
    NewSourcedJoins(m, n, m', ScopedRules(embedded, scoped), {embedded[i]}, ScopedRules(embedded, scoped));
    hide NewSourced;
    if Faithful(same) {
      forall j | 0 <= j < i && Scoped(embedded[j], scoped) ensures Reached(embedded[j], remap', m') {
        ReachedGrows(embedded[j], remap, n, m');
      }
    }
  }

  lemma FiledIsThere(p: Rule, k: string, m: Entries)
    requires FiledAs(p, k, m)
    ensures k in m
  {
  }

  // ----- which provider a key stands for -----

  /** The first of the first `n` providers with key `k`. */
  function FirstKeyed(providers: seq<Rule>, k: string, n: nat): Option<Rule>
    requires n <= |providers|
  {
    if n == 0 then None
    else
      var first := FirstKeyed(providers, k, n - 1);
      if first.Some? then first else if Key(providers[n - 1]) == k then Some(providers[n - 1]) else None
  }

  /** The last of the first `n` providers with key `k` that is not `first`. */
  function LastOther(providers: seq<Rule>, k: string, first: Rule, n: nat): Option<Rule>
    requires n <= |providers|
  {
    if n == 0 then None
    else if Key(providers[n - 1]) == k && providers[n - 1] != first then Some(providers[n - 1])
    else LastOther(providers, k, first, n - 1)
  }

  /** What key `k` stands for once the first `n` embedded providers are filed into `m`. */
  function Holder(embedded: seq<Rule>, scoped: set<string>, m: Entries, k: string, n: nat): Option<Rule>
    requires n <= |embedded|
  {
    if k in m then Some(m[k]) else if k in scoped then FirstKeyed(embedded, k, n) else None
  }

  /** The embedded provider that is copied because another one holds its key. */
  function Displaced(embedded: seq<Rule>, scoped: set<string>, m: Entries, k: string, n: nat): Option<Rule>
    requires n <= |embedded|
  {
    var holder := Holder(embedded, scoped, m, k, n);
    if k in scoped && holder.Some? then LastOther(embedded, k, holder.value, n) else None
  }

  /** The table files the holder of `k`, and `k` is renamed exactly when some provider is displaced, to
      the copy of the last one. */
  ghost predicate TracksKey(
    embedded: seq<Rule>, n: nat, scoped: set<string>, m: Entries, m': Entries, remap: map<string, string>, k: string)
    requires n <= |embedded|
  {
    var holder, other := Holder(embedded, scoped, m, k, n), Displaced(embedded, scoped, m, k, n);
    (k in m' <==> holder.Some?) && (k in m' ==> m'[k] == holder.value) &&
    (k in remap <==> other.Some?) && (k in remap ==> CopiedTo(m', remap[k], k, other.value))
  }

  ghost predicate CopiedTo(m: Entries, id: string, k: string, p: Rule) {
    id != k && id in m && m[id] == p.(id := id)
  }

  ghost predicate Tracks(
    embedded: seq<Rule>, n: nat, scoped: set<string>, m: Entries, m': Entries, remap: map<string, string>,
    reserved: set<string>)
    requires n <= |embedded|
  {
    forall k :: k in reserved && k != "" ==> TracksKey(embedded, n, scoped, m, m', remap, k)
  }

  /** No allocated id is reserved. */
  ghost predicate Avoids(newId: set<string> -> string, reserved: set<string>) {
    (forall used: set<string> :: newId(used) !in reserved) &&
    (forall base, n :: base in reserved ==> Suffixed(base, n) !in reserved)
  }

  /** The comparisons are decided by the providers: those in scope are normal and compare equal exactly
      to themselves. */
  ghost predicate Decided(
    embedded: seq<Rule>, scoped: set<string>, same: Compare, newId: set<string> -> string, reserved: set<string>)
  {
    embedded == [] ||
    (Faithful(same) && Avoids(newId, reserved) &&
     forall j :: 0 <= j < |embedded| && Scoped(embedded[j], scoped) ==>
       Normal(embedded[j]) && SelfSame(same, embedded[j]) && Key(embedded[j]) in reserved)
  }

  /** Some source of ids is fresh and hands out nothing reserved. */
  lemma FreshIdsExist(reserved: set<string>)
    ensures exists newId: set<string> -> string :: GivesFresh(newId) && forall used: set<string> :: newId(used) !in reserved
  {
    var newId: set<string> -> string := (used: set<string>) => Longer(used + reserved);
    forall used: set<string>
      ensures newId(used) !in used && newId(used) !in reserved && newId(used) != "" && Trimmed(newId(used))
    {
      assert newId(used) == Longer(used + reserved);
      assert newId(used) !in used + reserved;
    }
    assert GivesFresh(newId);
  }

  lemma TrackingStarts(embedded: seq<Rule>, scoped: set<string>, m: Entries, reserved: set<string>)
    ensures Tracks(embedded, 0, scoped, m, m, map[], reserved)
  {
  }

  lemma TrackingSkips(
    embedded: seq<Rule>, n: nat, scoped: set<string>, m: Entries, m': Entries, remap: map<string, string>,
    reserved: set<string>)
    requires n < |embedded| && !Scoped(embedded[n], scoped) && Tracks(embedded, n, scoped, m, m', remap, reserved)
    ensures Tracks(embedded, n + 1, scoped, m, m', remap, reserved)
  {
    hide Key;
    forall k | k in reserved && k != "" ensures TracksKey(embedded, n + 1, scoped, m, m', remap, k) {
      assert TracksKey(embedded, n, scoped, m, m', remap, k);
      assert k in scoped ==> Key(embedded[n]) != k;
    }
  }

  lemma {:induction false} NoneKeyedNoOther(providers: seq<Rule>, k: string, first: Rule, n: nat)
    requires n <= |providers| && FirstKeyed(providers, k, n).None?
    ensures LastOther(providers, k, first, n).None?
  {
    hide Key;
    if n > 0 { NoneKeyedNoOther(providers, k, first, n - 1); }
  }

  /** What filing provider `p` does to the table when comparisons are decided. */
  ghost predicate FilesDecided(p: Rule, m: Entries, m': Entries, id: string, reserved: set<string>) {
    var k := Key(p);
    if k !in m then id == k && m' == m[k := p]
    else if m[k] == p then id == k && m' == m
    else id !in m && id !in reserved && m' == m[id := p.(id := id)]
  }

  lemma KeyFiles(
    embedded: seq<Rule>, n: nat, scoped: set<string>, m: Entries, u: Entries, m': Entries,
    remap: map<string, string>, filed: string, reserved: set<string>, k: string)
    requires n < |embedded| && Scoped(embedded[n], scoped) && SubTable(m, u)
    requires TracksKey(embedded, n, scoped, m, u, remap, k) && k in reserved
    requires FilesDecided(embedded[n], u, m', filed, reserved)
    ensures var remap' := if filed == Key(embedded[n]) then remap else remap[Key(embedded[n]) := filed];
            TracksKey(embedded, n + 1, scoped, m, m', remap', k)
  {
    hide Key;
    var holder := Holder(embedded, scoped, m, k, n + 1);
    if Key(embedded[n]) == k && k !in u { NoneKeyedNoOther(embedded, k, embedded[n], n); }
  }

  lemma TrackingFiles(
    embedded: seq<Rule>, n: nat, scoped: set<string>, m: Entries, u: Entries, m': Entries,
    remap: map<string, string>, filed: string, reserved: set<string>)
    requires n < |embedded| && Scoped(embedded[n], scoped) && SubTable(m, u)
    requires Tracks(embedded, n, scoped, m, u, remap, reserved)
    requires FilesDecided(embedded[n], u, m', filed, reserved)
    ensures var remap' := if filed == Key(embedded[n]) then remap else remap[Key(embedded[n]) := filed];
            Tracks(embedded, n + 1, scoped, m, m', remap', reserved)
  {
    hide Key, TracksKey, FilesDecided;
    var remap' := if filed == Key(embedded[n]) then remap else remap[Key(embedded[n]) := filed];
    forall k | k in reserved && k != "" ensures TracksKey(embedded, n + 1, scoped, m, m', remap', k) {
      KeyFiles(embedded, n, scoped, m, u, m', remap, filed, reserved, k);
    }
  }

  lemma AllocatedAvoids(base: string, m: Entries, newId: set<string> -> string, id: string, reserved: set<string>)
    requires Allocated(base, m, newId, id) && Avoids(newId, reserved) && base in reserved
    ensures id !in reserved
  {
    hide Suffixed;
  }

  lemma FiledIsDecided(
    embedded: seq<Rule>, n: nat, scoped: set<string>, same: Compare, newId: set<string> -> string,
    reserved: set<string>, call: nat, p: Rule, u: Entries, m': Entries, filed: string)
    requires Decided(embedded, scoped, same, newId, reserved) && n < |embedded| && Scoped(embedded[n], scoped)
    requires Normal(embedded[n]) ==> p == embedded[n]
    requires Key(p) !in u ==> filed == Key(p) && m' == u[filed := p]
    requires Key(p) in u && same(call, u[Key(p)], p) ==> filed == Key(p) && m' == u
    requires Key(p) in u && !same(call, u[Key(p)], p) ==>
               filed !in u && Allocated(Key(p), u, newId, filed) && m' == u[filed := p.(id := filed)]
    ensures FilesDecided(embedded[n], u, m', filed, reserved)
  {
    hide Key, Normal, Allocated, Avoids;
    var k := Key(p);
    assert p == embedded[n] && SelfSame(same, p);
    if k in u {
      assert same(call, u[k], p) <==> u[k] == p;
      if u[k] != p { AllocatedAvoids(k, u, newId, filed, reserved); }
    }
  }

  /** All embedded providers of a group. `reserved` are ids that matter to the config. */
  method MergeEmbedded(
    embedded: seq<Rule>, scoped: set<string>, m: Entries, order: seq<string>, same: Compare, call: nat,
    newId: set<string> -> string, ghost t: Entries, ghost reserved: set<string>)
    returns (m': Entries, order': seq<string>, remap: map<string, string>, call': nat)
    requires TableOk(m, order) && GivesFresh(newId)
    ensures TableOk(m', order') && Grows(m, order, m', order') && call <= call'
    ensures EmbeddedFiled(embedded, |embedded|, scoped, m, m', remap, same)
    ensures Decided(embedded, scoped, same, newId, reserved) ==>
              Tracks(embedded, |embedded|, scoped, m, m', remap, reserved)
    ensures AllSelfSame(same, embedded) && SubTable(m, t) && CanonicalEmbedded(embedded, scoped, t) ==>
              remap == map[] && SubTable(m', t)
  {
    hide Trim, Normal, Normalizes, TableOk, Faithful, GivesFresh, EmbeddedFiled, FiledAs, NewSourced, Allocated;
    hide Decided, Tracks, SelfSame;
    m', order', call', remap := m, order, call, map[];
    ghost var canonical := AllSelfSame(same, embedded) && SubTable(m, t) && CanonicalEmbedded(embedded, scoped, t);
    ghost var decided := Decided(embedded, scoped, same, newId, reserved);
    EmbeddedStarts(embedded, scoped, m, same);
    TrackingStarts(embedded, scoped, m, reserved);
    var i := 0;
    while i < |embedded|
      invariant 0 <= i <= |embedded| && call <= call'
      invariant TableOk(m', order') && Grows(m, order, m', order')
      invariant EmbeddedFiled(embedded, i, scoped, m, m', remap, same)
      invariant decided ==> Tracks(embedded, i, scoped, m, m', remap, reserved)
      invariant canonical ==> remap == map[] && SubTable(m', t)
    {
      if canonical { assert CanonicalProvider(embedded[i], t); }
      var provider := NormalizeProviderForStorage(embedded[i]);
      var id := Trim(provider.id);
      assert id == Key(provider) == Key(embedded[i]);
      if id == "" || id !in scoped {
        EmbeddedSkips(embedded, i, scoped, m, m', remap, same);
        if decided { TrackingSkips(embedded, i, scoped, m, m', remap, reserved); }
        i := i + 1;
        continue;
      }
      ghost var before, asked := m', call';
      var filed;
      m', order', filed, call' := FileEmbedded(provider, m', order', same, call', newId, embedded[i], t);
      EmbeddedFiles(embedded, i, scoped, m, before, m', remap, filed, same);
      if decided {
        FiledIsDecided(embedded, i, scoped, same, newId, reserved, asked, provider, before, m', filed);
        TrackingFiles(embedded, i, scoped, m, before, m', remap, filed, reserved);
      }
      if filed != id {
        remap := remap[id := filed];
      }
      i := i + 1;
    }
  }

  ghost predicate AllSelfSame(same: Compare, providers: seq<Rule>) {
    forall j :: 0 <= j < |providers| ==> SelfSame(same, providers[j])
  }

  lemma EmbeddedStarts(embedded: seq<Rule>, scoped: set<string>, m: Entries, same: Compare)
    ensures EmbeddedFiled(embedded, 0, scoped, m, m, map[], same)
  {
  }
}
