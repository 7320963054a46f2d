// Where the links of a normalised config lead, told from the config it was made from.
module ConfigOrigin {
  import opened Text
  import opened Sequences
  import opened ConfigModel
  import opened ConfigTable
  import opened ConfigNormalize

  /** Every provider a group links to satisfies `good`. */
  ghost predicate LinkedAll(c: ProxyConfig, good: Rule -> bool) {
    forall g :: g in c.groups ==> forall i :: 0 <= i < |Embedded(g)| ==> good(Embedded(g)[i])
  }

  // ----- holders and copies -----

  /** The provider that holds key `k` once the first `n` groups are done: the first global one, or else the
      first embedded one in scope of its group. */
  function HolderAfter(c: ProxyConfig, k: string, n: nat): Option<Rule>
    requires n <= |c.groups|
  {
    if n == 0 then FirstKeyed(c.providers, k, |c.providers|)
    else
      var before, g := HolderAfter(c, k, n - 1), c.groups[n - 1];
      if before.Some? then before
      else if k in ScopedIds(RawIds(g, HasGlobal(c.providers))) then FirstKeyed(Embedded(g), k, |Embedded(g)|)
      else None
  }

  /** Group `n` has a link to key `k`. */
  ghost predicate Linked(c: ProxyConfig, n: int, k: string) {
    0 <= n < |c.groups| && k != "" && k in ScopedIds(RawIds(c.groups[n], HasGlobal(c.providers)))
  }

  /** The last embedded provider of group `n` with key `k` that is not the holder of `k`. It is copied. */
  function CopyFor(c: ProxyConfig, n: nat, k: string): Option<Rule>
    requires n < |c.groups|
  {
    var holder, embedded := HolderAfter(c, k, n + 1), Embedded(c.groups[n]);
    if holder.Some? then LastOther(embedded, k, holder.value, |embedded|) else None
  }

  /** The provider a link of group `n` to `k` stands for. */
  function Origin(c: ProxyConfig, n: nat, k: string): Option<Rule>
    requires n < |c.groups|
  {
    var copy := CopyFor(c, n, k);
    if copy.Some? then copy else HolderAfter(c, k, n + 1)
  }

  /** Groups only link, or the given providers are in normal form. */
  ghost predicate Plain(c: ProxyConfig) {
    OnlyLinks(c) || forall p :: p in Given(c.groups, c.providers) ==> Normal(p)
  }

  lemma SettledIsPlain(c: ProxyConfig, same: Compare, newId: set<string> -> string)
    requires Settled(c, same, newId)
    ensures Plain(c)
  {
  }

  lemma {:induction false} FirstKeyedIs(providers: seq<Rule>, k: string, n: nat) returns (i: int)
    requires n <= |providers|
    ensures FirstKeyed(providers, k, n).Some? ==>
              0 <= i < n && FirstKeyed(providers, k, n) == Some(providers[i]) && Key(providers[i]) == k
    ensures FirstKeyed(providers, k, n).Some? ==> forall j :: 0 <= j < i ==> Key(providers[j]) != k
    ensures FirstKeyed(providers, k, n).None? ==> forall j :: 0 <= j < n ==> Key(providers[j]) != k
  {
    hide Key;
    i := 0;
    if n > 0 {
      i := FirstKeyedIs(providers, k, n - 1);
      if FirstKeyed(providers, k, n - 1).None? { i := n - 1; }
    }
  }

  lemma {:induction false} LastOtherIs(providers: seq<Rule>, k: string, first: Rule, n: nat)
    requires n <= |providers|
    ensures var p := LastOther(providers, k, first, n); p.Some? ==> p.value in providers && Key(p.value) == k
  {
    hide Key;
    if n > 0 { LastOtherIs(providers, k, first, n - 1); }
  }

  // ----- the table -----

  /** `q` is how `p` is filed: a normal form, and `p` itself unless groups only link. */
  ghost predicate HeldAs(c: ProxyConfig, p: Rule, q: Rule) { Normalizes(p, q) && (!OnlyLinks(c) ==> q == p) }

  lemma GivenIsHeld(c: ProxyConfig, p: Rule)
    requires Plain(c) && !OnlyLinks(c) && p in Given(c.groups, c.providers)
    ensures HeldAs(c, p, p) && Normal(p)
  {
    NormalFormOfItself(p);
  }

  lemma GlobalIsHeld(c: ProxyConfig, p: Rule, q: Rule)
    requires Plain(c) && p in c.providers && Normalizes(p, q)
    ensures HeldAs(c, p, q)
  {
    hide Normalizes, Normal, InScope;
    if !OnlyLinks(c) {
      assert p in Given(c.groups, c.providers);
      NormalIsFixed(p, q);
    }
  }

  lemma ScopedIsGiven(c: ProxyConfig, n: int, p: Rule)
    requires 0 <= n < |c.groups| && p in Embedded(c.groups[n]) && Linked(c, n, Key(p))
    ensures p in Given(c.groups, c.providers)
  {
    hide Key, RawIds, HasGlobal;
    var g := c.groups[n];
    assert g in c.groups && p in ScopedRules(Embedded(g), ScopedIds(RawIds(g, HasGlobal(c.providers))));
  }

  /** After the first `n` groups, table `m` files the holder of `k`. */
  ghost predicate HolderIn(c: ProxyConfig, k: string, n: nat, m: Entries)
    requires n <= |c.groups|
  {
    var holder := HolderAfter(c, k, n);
    (k in m <==> holder.Some?) && (holder.Some? ==> HeldAs(c, holder.value, m[k]))
  }

  lemma GlobalHolder(c: ProxyConfig, global: Entries, k: string)
    requires global.Keys == NonBlank(Keys(c.providers)) && FirstsFiled(c.providers, |c.providers|, global)
    requires Plain(c) && k != ""
    ensures HolderIn(c, k, 0, global)
  {
    hide Key, HeldAs, Plain, Normalizes, FirstKeyed;
    var ps := c.providers;
    var i := FirstKeyedIs(ps, k, |ps|);
    if FirstKeyed(ps, k, |ps|).Some? {
      assert Keys(ps)[i] == k;
      assert FirstWithKey(ps, i) && FiledNormalized(ps[i], global);
      GlobalIsHeld(c, ps[i], global[k]);
    }
  }

  /** The turns of a settled normalisation. */
  ghost predicate Tracked(c: ProxyConfig, trail: Trail) {
    |trail.turns| == |c.groups| && Plain(c) &&
    trail.global.Keys == NonBlank(Keys(c.providers)) && FirstsFiled(c.providers, |c.providers|, trail.global) &&
    TurnsTrack(c.groups, HasGlobal(c.providers), trail.turns, trail.global, Reserved(c.groups, c.providers))
  }

  lemma SettledIsTracked(
    c: ProxyConfig, r: ProxyConfig, t: Entries, trail: Trail, same: Compare, newId: set<string> -> string)
    requires NormalForm(c, r, t, trail, same, newId) && Settled(c, same, newId)
    ensures Tracked(c, trail)
  {
    hide Plain, NewSourced, TableOk, CanonicalConfig, TurnsTrack, GroupsSurvive, FirstsFiled, Settled, GroupResult;
    SettledIsPlain(c, same, newId);
  }

  lemma TurnOf(c: ProxyConfig, trail: Trail, n: int, k: string)
    requires Tracked(c, trail) && 0 <= n < |c.groups| && k in Reserved(c.groups, c.providers) && k != ""
    ensures var g, turn := c.groups[n], trail.turns[n];
            TracksKey(Embedded(g), |Embedded(g)|, ScopedIds(RawIds(g, HasGlobal(c.providers))),
                      TableBefore(trail.global, trail.turns, n), turn.table, turn.remap, k)
  {
    hide TracksKey, Reserved, Plain, FirstsFiled, ScopedIds, RawIds, HasGlobal;
    var g, turn := c.groups[n], trail.turns[n];
    assert GroupTracks(g, HasGlobal(c.providers), TableBefore(trail.global, trail.turns, n), turn.table, turn.remap,
                       Reserved(c.groups, c.providers));
  }

  lemma HolderMoves(c: ProxyConfig, k: string, n: nat, m: Entries, m': Entries, remap: map<string, string>)
    requires Plain(c) && n < |c.groups| && k != "" && HolderIn(c, k, n, m)
    requires var g := c.groups[n];
             TracksKey(Embedded(g), |Embedded(g)|, ScopedIds(RawIds(g, HasGlobal(c.providers))), m, m', remap, k)
    ensures HolderIn(c, k, n + 1, m')
  {
    hide HeldAs, FirstKeyed, Key, Plain, Displaced, CopiedTo, ScopedIds, RawIds, HasGlobal;
    if HolderAfter(c, k, n).None? && HolderAfter(c, k, n + 1).Some? { FirstEmbeddedHeld(c, n, k); }
  }

  /** After every turn the table files the holder of a key. */
  lemma {:induction false} HolderFiled(c: ProxyConfig, trail: Trail, k: string, n: nat)
    requires Tracked(c, trail) && n <= |c.groups| && k in Reserved(c.groups, c.providers) && k != ""
    ensures HolderIn(c, k, n, TableBefore(trail.global, trail.turns, n))
    decreases n
  {
    hide HolderIn, Reserved, TurnsTrack, FirstsFiled, Plain, TracksKey, Keys, NonBlank, ScopedIds, RawIds, HasGlobal;
    if n == 0 {
      GlobalHolder(c, trail.global, k);
    } else {
      HolderFiled(c, trail, k, n - 1);
      TurnOf(c, trail, n - 1, k);
      var turn := trail.turns[n - 1];
      HolderMoves(c, k, n - 1, TableBefore(trail.global, trail.turns, n - 1), turn.table, turn.remap);
    }
  }

  lemma FirstEmbeddedHeld(c: ProxyConfig, n: int, k: string)
    requires Plain(c) && Linked(c, n, k) && FirstKeyed(Embedded(c.groups[n]), k, |Embedded(c.groups[n])|).Some?
    ensures var p := FirstKeyed(Embedded(c.groups[n]), k, |Embedded(c.groups[n])|).value; HeldAs(c, p, p)
  {
    hide Key, FirstKeyed, Normal, Normalizes, ScopedIds, RawIds, HasGlobal, HeldAs, Given;
    var g := c.groups[n];
    var i := FirstKeyedIs(Embedded(g), k, |Embedded(g)|);
    assert g in c.groups && Embedded(g)[i] in Embedded(g);
    ScopedIsGiven(c, n, Embedded(g)[i]);
    assert !OnlyLinks(c);
    GivenIsHeld(c, Embedded(g)[i]);
  }

  // ----- links -----

  lemma LinkedIsReserved(c: ProxyConfig, n: int, k: string)
    requires Linked(c, n, k)
    ensures k in Reserved(c.groups, c.providers)
  {
    hide Key, RawIds, HasGlobal, ScopedIds;
    assert c.groups[n] in c.groups;
  }

  /** How a link to `k` is resolved within one turn. */
  ghost predicate LeadsTo(c: ProxyConfig, n: nat, k: string, m: Entries, x: string)
    requires n < |c.groups|
  {
    var origin, copy := Origin(c, n, k), CopyFor(c, n, k);
    origin.Some? ==>
      FiledAs(origin.value, x, m) && m[x].id == if copy.Some? then x else origin.value.id
  }

  lemma LinkResolved(c: ProxyConfig, trail: Trail, n: int, k: string)
    requires Tracked(c, trail) && Linked(c, n, k)
    ensures var turn := trail.turns[n]; var x := Renamed(turn.remap, k);
            (x in turn.table <==> Origin(c, n, k).Some?) && LeadsTo(c, n, k, turn.table, x)
  {
    hide HeldAs, Reserved, TurnsTrack, FirstsFiled, Key, Plain, ScopedIds, RawIds, HasGlobal, Normalizes;
    var g, turn := c.groups[n], trail.turns[n];
    LinkedIsReserved(c, n, k);
    TurnOf(c, trail, n, k);
    HolderFiled(c, trail, k, n + 1);
    var holder := HolderAfter(c, k, n + 1);
    if holder.Some? {
      HeldFacts(c, holder.value, turn.table[k]);
      DisplacedIsCopied(c, n, k, turn.table[k]);
    }
  }

  lemma HeldFacts(c: ProxyConfig, p: Rule, q: Rule)
    requires HeldAs(c, p, q)
    ensures Normalizes(p, q.(id := p.id)) && q.id == p.id && (!OnlyLinks(c) ==> q == p)
  {
    SameRule(p, q);
  }

  /** Whether compared with the holder or with how it is filed, the same provider is displaced. */
  lemma DisplacedIsCopied(c: ProxyConfig, n: int, k: string, q: Rule)
    requires Plain(c) && Linked(c, n, k) && HolderAfter(c, k, n + 1).Some?
    requires !OnlyLinks(c) ==> q == HolderAfter(c, k, n + 1).value
    ensures var embedded := Embedded(c.groups[n]); LastOther(embedded, k, q, |embedded|) == CopyFor(c, n, k)
    ensures CopyFor(c, n, k).Some? ==> Normalizes(CopyFor(c, n, k).value, CopyFor(c, n, k).value)
  {
    hide Key, HolderAfter, Normal, Normalizes, ScopedIds, RawIds, HasGlobal, Given;
    var g := c.groups[n];
    assert g in c.groups;
    if !OnlyLinks(c) {
      LastOtherIs(Embedded(g), k, q, |Embedded(g)|);
      var copy := CopyFor(c, n, k);
      if copy.Some? {
        ScopedIsGiven(c, n, copy.value);
        NormalFormOfItself(copy.value);
      }
    }
  }

  /** A link of a settled config leads to its origin: the holder of the key as it is filed, or a copy of
      the group's own provider under a new id. A link without origin is dropped. */
  lemma LinkLeadsToOrigin(c: ProxyConfig, r: ProxyConfig, t: Entries, trail: Trail, n: int, k: string)
    requires Follows(c, r, t, trail) && EntriesOk(t) && Tracked(c, trail) && Linked(c, n, k)
    ensures var x := Renamed(trail.turns[n].remap, k);
            (x in trail.groups[n].providerIds.value <==> Origin(c, n, k).Some?) &&
            (x in trail.groups[n].providerIds.value ==> x in t) && LeadsTo(c, n, k, t, x)
  {
    hide Normalizes, Tracked, Normal, TableOk, Firsts, FirstsFiled, NewSourced, HasGlobal, Origin, CopyFor, RemapOk, Links;
    hide Trim;
    var turn, raw := trail.turns[n], RawIds(c.groups[n], HasGlobal(c.providers));
    var x := Renamed(turn.remap, k);
    LinkResolved(c, trail, n, k);
    assert GroupResult(c.groups[n], HasGlobal(c.providers), trail.groups[n], turn.remap, turn.table);
    LinksAre(raw, turn.remap, turn.table);
    var i :| 0 <= i < |raw| && Trim(raw[i]) == k;
    assert Targets(raw, turn.remap)[i] == x;
    if x in turn.table { assert EntryOk(t, x) && t[x] == turn.table[x]; }
  }

  lemma LinkHasKey(c: ProxyConfig, r: ProxyConfig, t: Entries, trail: Trail, n: int, x: string) returns (k: string)
    requires Follows(c, r, t, trail) && 0 <= n < |c.groups| && x in trail.groups[n].providerIds.value
    ensures Linked(c, n, k) && Renamed(trail.turns[n].remap, k) == x
  {
    hide Trim, Normalizes, Normal, TableOk, Firsts, FirstsFiled, NewSourced, HasGlobal, Links, FiledAs;
    var turn, raw := trail.turns[n], RawIds(c.groups[n], HasGlobal(c.providers));
    assert GroupResult(c.groups[n], HasGlobal(c.providers), trail.groups[n], turn.remap, turn.table);
    LinksAre(raw, turn.remap, turn.table);
    var i :| 0 <= i < |raw| && Targets(raw, turn.remap)[i] == x;
    k := Trim(raw[i]);
    assert raw[i] in raw;
  }

  lemma ResultOf(c: ProxyConfig, r: ProxyConfig, t: Entries, trail: Trail, g: ProviderGroup) returns (n: int)
    requires Follows(c, r, t, trail) && g in r.groups
    ensures 0 <= n < |c.groups| == |trail.groups| && trail.groups[n] == g
  {
    KeepMembers(trail.groups, KeepGroup, g);
    n :| 0 <= n < |trail.groups| && trail.groups[n] == g;
  }

  lemma LinkedGroupKept(c: ProxyConfig, r: ProxyConfig, t: Entries, trail: Trail, n: int, x: string) returns (j: int)
    requires Follows(c, r, t, trail) && 0 <= n < |c.groups| && x in trail.groups[n].providerIds.value
    ensures var g := trail.groups[n]; g in r.groups && 0 <= j < |Embedded(g)| && x in t && Embedded(g)[j] == t[x]
  {
    hide Trim, Normalizes, Normal, TableOk, Firsts, FirstsFiled, NewSourced, Links, RemapOk, KeysFiled;
    var g, turn := trail.groups[n], trail.turns[n];
    assert GroupResult(c.groups[n], HasGlobal(c.providers), g, turn.remap, turn.table);
    KeepMembers(trail.groups, KeepGroup, g);
    j :| 0 <= j < |g.providerIds.value| && g.providerIds.value[j] == x;
  }

  /** The linked providers are good exactly when what each link leads to is. */
  lemma LinkedAllExactly(c: ProxyConfig, r: ProxyConfig, t: Entries, trail: Trail, good: Rule -> bool)
    requires CanonicalConfig(r, t) && Follows(c, r, t, trail) && Tracked(c, trail)
    ensures LinkedAll(r, good) <==>
              forall n, k :: Linked(c, n, k) && Origin(c, n, k).Some? ==>
                var x := Renamed(trail.turns[n].remap, k); x in t && good(t[x])
  {
    hide Follows, Tracked, ScopedIds, RawIds, HasGlobal, Origin, LeadsTo, CanonicalList, EntriesOk, GroupOk;
    assert |trail.turns| == |c.groups| by { TrackedLength(c, trail); }
    if LinkedAll(r, good) {
      forall n, k | Linked(c, n, k) && Origin(c, n, k).Some?
        ensures var x := Renamed(trail.turns[n].remap, k); x in t && good(t[x])
      {
        LinkLeadsToOrigin(c, r, t, trail, n, k);
        var j := LinkedGroupKept(c, r, t, trail, n, Renamed(trail.turns[n].remap, k));
      }
    } else {
      var g, i :| g in r.groups && 0 <= i < |Embedded(g)| && !good(Embedded(g)[i]);
      var n := ResultOf(c, r, t, trail, g);
      var x := LinkAt(r, t, g, i);
      var k := LinkHasKey(c, r, t, trail, n, x);
      LinkLeadsToOrigin(c, r, t, trail, n, k);
    }
  }

  lemma TrackedLength(c: ProxyConfig, trail: Trail)
    requires Tracked(c, trail)
    ensures |trail.turns| == |c.groups|
  {
  }

  lemma LinkAt(r: ProxyConfig, t: Entries, g: ProviderGroup, i: int) returns (x: string)
    requires CanonicalConfig(r, t) && g in r.groups && 0 <= i < |Embedded(g)|
    ensures g.providerIds.Some? && x in g.providerIds.value && x in t && t[x] == Embedded(g)[i]
  {
    hide EntriesOk, CanonicalList;
    assert GroupOk(g, t);
    x := g.providerIds.value[i];
  }

  // ----- what holds whatever the comparisons answer -----

  /** `good` passes from a given provider to its entry, renamed or not. */
  ghost predicate Lasting(good: Rule -> bool) {
    forall p: Rule, q: Rule :: good(p) && Normalizes(p, q.(id := p.id)) && (q.id == p.id || Trimmed(q.id)) ==> good(q)
  }

  /** An entry that keeps the id is good only if the given provider was. */
  ghost predicate Firm(good: Rule -> bool) { forall p, q :: Normalizes(p, q) && good(q) ==> good(p) }

  ghost predicate AllGiven(c: ProxyConfig, good: Rule -> bool) {
    forall p :: p in Given(c.groups, c.providers) ==> good(p)
  }

  lemma GoodEntry(given: set<Rule>, t: Entries, k: string, good: Rule -> bool)
    requires NewSourced(map[], t, given) && k in t && EntryOk(t, k) && Lasting(good) && forall p :: p in given ==> good(p)
    ensures good(t[k])
  {
    hide Normalizes, Normal;
    assert Sourced(t, k, given);
    var p :| p in given && FiledAs(p, k, t) && (t[k].id == p.id || t[k].id == k);
  }

  lemma GoodGivenGoodLinks(c: ProxyConfig, r: ProxyConfig, t: Entries, trail: Trail, good: Rule -> bool)
    requires CanonicalConfig(r, t) && Follows(c, r, t, trail) && AllGiven(c, good) && Lasting(good)
    ensures LinkedAll(r, good)
  {
    EveryEntryGiven(c, r, t, trail);
    hide Follows, Given, NewSourced, Lasting, EntryOk;
    forall g, i | g in r.groups && 0 <= i < |Embedded(g)| ensures good(Embedded(g)[i]) {
      var x := LinkAt(r, t, g, i);
      GoodEntry(Given(c.groups, c.providers), t, x, good);
    }
  }

  /** Group `n` links to the global provider `i`, which is the first with its key, is not good and shares
      its key with no embedded provider of the group. */
  ghost predicate LinksBad(c: ProxyConfig, i: int, n: int, good: Rule -> bool) {
    FirstWithKey(c.providers, i) && !good(c.providers[i]) && 0 <= n < |c.groups| &&
    c.groups[n].providerIds.Some? && LinkTo(c.groups[n].providerIds.value, Key(c.providers[i])) &&
    forall j :: 0 <= j < |Embedded(c.groups[n])| ==> Key(Embedded(c.groups[n])[j]) != Key(c.providers[i])
  }

  ghost predicate LinkTo(raw: seq<string>, k: string) { exists j :: 0 <= j < |raw| && Trim(raw[j]) == k }

  lemma LinkIsKept(
    g: ProviderGroup, g': ProviderGroup, remap: map<string, string>, m: Entries, k: string)
    requires GroupResult(g, true, g', remap, m) && g.providerIds.Some? && LinkTo(g.providerIds.value, k)
    requires k != "" && k in m && forall j :: 0 <= j < |Embedded(g)| ==> Key(Embedded(g)[j]) != k
    ensures k in g'.providerIds.value
  {
    hide Trim;
    hide Normalizes;
    hide Links;
    var raw := g.providerIds.value;
    LinksAre(raw, remap, m);
    assert k !in remap;
    var j :| 0 <= j < |raw| && Trim(raw[j]) == k;
    assert Targets(raw, remap)[j] == k;
  }

  lemma BadLinkStays(c: ProxyConfig, r: ProxyConfig, t: Entries, trail: Trail, i: int, n: int, good: Rule -> bool)
    requires Follows(c, r, t, trail) && LinksBad(c, i, n, good) && Firm(good)
    ensures !LinkedAll(r, good)
  {
    hide Trim, NormalCosts, Normal, TableOk, Links, RemapOk, Keys, NonBlank, Firsts, LinkTo, NewSourced, KeysFiled;
    var p := c.providers[i];
    var k, turn := Key(p), trail.turns[n];
    assert HasGlobal(c.providers);
    assert FiledNormalized(p, trail.global);
    LinkIsKept(c.groups[n], trail.groups[n], turn.remap, turn.table, k);
    var j := LinkedGroupKept(c, r, t, trail, n, k);
    assert Embedded(trail.groups[n])[j] == trail.global[k];
  }
}
