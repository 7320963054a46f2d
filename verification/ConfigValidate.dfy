// Semantic validation of providers and groups, and what normalisation guarantees to it.
module ConfigValidate {
  import opened Text
  import opened ConfigModel
  import opened ConfigTable
  import opened ConfigNormalize
  import opened ConfigOrigin

  datatype Verdict =
    | Valid
    | ProviderIdMissing
    | DefaultModelMissing(id: string)
    | DuplicateProviderId(id: string)
    | GroupIdMissing
    | GroupIdInvalid(id: string)
    | GroupNameMissing(id: string)
    | LinkBlank(group: string)
    | LinkUnknown(group: string, id: string)
    | ActiveUnknown(group: string)
  {
    /** The failures that normalisation is responsible for. */
    predicate AboutIds(): (r: bool)
      ensures r <==> !Valid? && !DefaultModelMissing? && !GroupIdMissing? && !GroupIdInvalid? && !GroupNameMissing?
    {
      ProviderIdMissing? || DuplicateProviderId? || LinkBlank? || LinkUnknown? || ActiveUnknown?
    }
  }

  predicate IsGroupIdChar(c: char) {
    'a' <= c <= 'z' || 'A' <= c <= 'Z' || IsDigit(c) || c == '_' || c == '-'
  }

  function LinksOf(g: ProviderGroup): seq<string> {
    if g.providerIds.Some? && g.providerIds.value != [] then g.providerIds.value
    else seq(|Embedded(g)|, i requires 0 <= i < |Embedded(g)| => Embedded(g)[i].id)
  }

  predicate HasId(ps: seq<Rule>, id: string) { exists i :: 0 <= i < |ps| && ps[i].id == id }

  /** A link resolves when some global or embedded provider carries exactly that id. */
  predicate Resolves(c: ProxyConfig, g: ProviderGroup, id: string) {
    HasId(c.providers, id) || HasId(Embedded(g), id)
  }

  ghost predicate ProviderValid(c: ProxyConfig, i: int)
    requires 0 <= i < |c.providers|
  {
    var p := c.providers[i];
    Trim(p.id) != "" && p.defaultModel.Some? && Trim(p.defaultModel.value) != "" &&
    forall j :: 0 <= j < i ==> c.providers[j].id != p.id
  }

  ghost predicate LinkValid(c: ProxyConfig, g: ProviderGroup, id: string) { Trim(id) != "" && Resolves(c, g, id) }

  ghost predicate GroupValid(c: ProxyConfig, g: ProviderGroup) {
    Trim(g.id) != "" && (forall i :: 0 <= i < |g.id| ==> IsGroupIdChar(g.id[i])) && Trim(g.name) != "" &&
    (forall i :: 0 <= i < |LinksOf(g)| ==> LinkValid(c, g, LinksOf(g)[i])) &&
    (g.activeProviderId.Some? ==> g.activeProviderId.value in LinksOf(g))
  }

  ghost predicate ConfigValid(c: ProxyConfig) {
    (forall i :: 0 <= i < |c.providers| ==> ProviderValid(c, i)) &&
    (forall i :: 0 <= i < |c.groups| ==> GroupValid(c, c.groups[i]))
  }

  /** The group stands by the id: it lists it, or lists nothing and embeds a provider with it. */
  ghost predicate GroupLinks(g: ProviderGroup, id: string) {
    if g.providerIds.Some? && |g.providerIds.value| > 0 then id in g.providerIds.value
    else g.providers.Some? && exists p :: p in g.providers.value && p.id == id
  }

  /** Some provider, global or of the group, has exactly that id. */
  ghost predicate Provided(c: ProxyConfig, g: ProviderGroup, id: string) {
    (exists p :: p in c.providers && p.id == id) || (g.providers.Some? && exists p :: p in g.providers.value && p.id == id)
  }

  /** What validation asks of a config. */
  ghost predicate Sound(c: ProxyConfig) {
    (forall p :: p in c.providers ==> Trim(p.id) != "" && p.defaultModel.Some? && Trim(p.defaultModel.value) != "") &&
    (forall i, j :: 0 <= i < j < |c.providers| ==> c.providers[i].id != c.providers[j].id) &&
    forall g :: g in c.groups ==> SoundGroup(c, g)
  }

  /** A group has an id of ASCII letters, digits, `_` and `-`, a name, and links that are provided, its active one
      among them. */
  ghost predicate SoundGroup(c: ProxyConfig, g: ProviderGroup) {
    Trim(g.id) != "" && Trim(g.name) != "" && (forall x :: x in g.id ==> AsciiWord(x as int)) &&
    (forall id :: GroupLinks(g, id) ==> Trim(id) != "" && Provided(c, g, id)) &&
    (g.activeProviderId.Some? ==> GroupLinks(g, g.activeProviderId.value))
  }

  ghost predicate AsciiWord(code: int) {
    0x61 <= code <= 0x7A || 0x41 <= code <= 0x5A || 0x30 <= code <= 0x39 || code == 0x5F || code == 0x2D
  }

  lemma IdFound(ps: seq<Rule>, id: string)
    ensures HasId(ps, id) <==> exists p :: p in ps && p.id == id
  {
    if p :| p in ps && p.id == id {
      var i :| 0 <= i < |ps| && ps[i] == p;
    }
  }

  lemma LinksStand(g: ProviderGroup, id: string)
    ensures id in LinksOf(g) <==> GroupLinks(g, id)
  {
    var links, embedded := LinksOf(g), Embedded(g);
    if !(g.providerIds.Some? && |g.providerIds.value| > 0) {
      if id in links {
        var i :| 0 <= i < |links| && links[i] == id;
        assert embedded[i] in embedded;
      }
      if p :| p in embedded && p.id == id {
        var i :| 0 <= i < |embedded| && embedded[i] == p;
        assert links[i] == id;
      }
    }
  }

  lemma LinksSound(c: ProxyConfig, g: ProviderGroup)
    ensures (forall i :: 0 <= i < |LinksOf(g)| ==> LinkValid(c, g, LinksOf(g)[i])) <==>
            forall id :: GroupLinks(g, id) ==> Trim(id) != "" && Provided(c, g, id)
    ensures forall id :: id in LinksOf(g) <==> GroupLinks(g, id)
  {
    forall id ensures id in LinksOf(g) <==> GroupLinks(g, id) { LinksStand(g, id); }
    forall id ensures Resolves(c, g, id) <==> Provided(c, g, id) { IdFound(c.providers, id); IdFound(Embedded(g), id); }
    hide Trim, LinksOf, GroupLinks, Resolves, Provided;
    var links := LinksOf(g);
    assert (forall i :: 0 <= i < |links| ==> LinkValid(c, g, links[i])) <==> forall id :: id in links ==> LinkValid(c, g, id);
  }

  lemma GroupSound(c: ProxyConfig, g: ProviderGroup)
    ensures GroupValid(c, g) <==> SoundGroup(c, g)
  {
    LinksSound(c, g);
    hide Trim, LinksOf, GroupLinks, Provided, LinkValid;
    assert (forall i :: 0 <= i < |g.id| ==> IsGroupIdChar(g.id[i])) <==> forall x :: x in g.id ==> IsGroupIdChar(x);
  }

  lemma ProvidersSound(c: ProxyConfig)
    ensures (forall i :: 0 <= i < |c.providers| ==> ProviderValid(c, i)) <==>
            (forall p :: p in c.providers ==> Trim(p.id) != "" && p.defaultModel.Some? && Trim(p.defaultModel.value) != "") &&
            forall i, j :: 0 <= i < j < |c.providers| ==> c.providers[i].id != c.providers[j].id
  {
    hide Trim;
    if forall i :: 0 <= i < |c.providers| ==> ProviderValid(c, i) {
      forall p | p in c.providers ensures Trim(p.id) != "" && p.defaultModel.Some? && Trim(p.defaultModel.value) != "" {
        var i :| 0 <= i < |c.providers| && c.providers[i] == p;
        assert ProviderValid(c, i);
      }
      forall i, j | 0 <= i < j < |c.providers| ensures c.providers[i].id != c.providers[j].id { assert ProviderValid(c, j); }
    }
  }

  lemma ValidMeansSound(c: ProxyConfig)
    ensures ConfigValid(c) <==> Sound(c)
  {
    ProvidersSound(c);
    forall g ensures GroupValid(c, g) <==> SoundGroup(c, g) { GroupSound(c, g); }
    hide Trim, GroupValid, SoundGroup, ProviderValid;
    assert (forall i :: 0 <= i < |c.groups| ==> GroupValid(c, c.groups[i])) <==> forall g :: g in c.groups ==> GroupValid(c, g);
  }

  /** Each failure names something that is really wrong. */
  ghost predicate Explains(c: ProxyConfig, v: Verdict) {
    match v
    case Valid => ConfigValid(c)
    case ProviderIdMissing => exists i :: 0 <= i < |c.providers| && Trim(c.providers[i].id) == ""
    case DuplicateProviderId(id) =>
      exists i, j :: 0 <= i < j < |c.providers| && c.providers[i].id == id == c.providers[j].id
    case LinkBlank(_) => exists g, i :: g in c.groups && 0 <= i < |LinksOf(g)| && Trim(LinksOf(g)[i]) == ""
    case LinkUnknown(_, id) => exists g :: g in c.groups && id in LinksOf(g) && !Resolves(c, g, id)
    case ActiveUnknown(_) => exists g :: g in c.groups && ActiveDangles(g)
    case _ => !ConfigValid(c)
  }

  ghost predicate ActiveDangles(g: ProviderGroup) {
    g.activeProviderId.Some? && g.activeProviderId.value !in LinksOf(g)
  }

  method ValidateProviders(c: ProxyConfig) returns (v: Verdict)
    ensures v.Valid? ==> forall i :: 0 <= i < |c.providers| ==> ProviderValid(c, i)
    ensures !v.Valid? ==> !ConfigValid(c) && Explains(c, v)
  {
    hide Trim;
    var seen: set<string> := {};
    var i := 0;
    while i < |c.providers|
      invariant 0 <= i <= |c.providers|
      invariant forall id :: id in seen ==> exists j :: 0 <= j < i && c.providers[j].id == id
      invariant forall j :: 0 <= j < i ==> c.providers[j].id in seen
      invariant forall j :: 0 <= j < i ==> ProviderValid(c, j)
    {
      var p := c.providers[i];
      if Trim(p.id) == "" {
        assert !ProviderValid(c, i);
        return ProviderIdMissing;
      }
      if p.defaultModel.None? || Trim(p.defaultModel.value) == "" {
        assert !ProviderValid(c, i);
        return DefaultModelMissing(p.id);
      }
      if p.id in seen {
        assert !ProviderValid(c, i);
        return DuplicateProviderId(p.id);
      }
      seen := seen + {p.id};
      i := i + 1;
    }
    return Valid;
  }

  method ValidateLinks(c: ProxyConfig, g: ProviderGroup) returns (v: Verdict)
    requires g in c.groups
    ensures v.Valid? ==> (forall i :: 0 <= i < |LinksOf(g)| ==> LinkValid(c, g, LinksOf(g)[i]))
    ensures v.Valid? ==> (g.activeProviderId.Some? ==> g.activeProviderId.value in LinksOf(g))
    ensures !v.Valid? ==> !GroupValid(c, g) && Explains(c, v)
    ensures v.Valid? || v.LinkBlank? || v.LinkUnknown? || v.ActiveUnknown?
  {
    hide Trim;
    hide Resolves;
    hide ConfigValid;
    var links := LinksOf(g);
    hide LinksOf;
    var i := 0;
    while i < |links|
      invariant 0 <= i <= |links|
      invariant forall j :: 0 <= j < i ==> LinkValid(c, g, links[j])
    {
      if Trim(links[i]) == "" {
        assert !LinkValid(c, g, links[i]);
        return LinkBlank(g.id);
      }
      if !Resolves(c, g, links[i]) {
        assert !LinkValid(c, g, links[i]);
        return LinkUnknown(g.id, links[i]);
      }
      i := i + 1;
    }
    if g.activeProviderId.Some? && g.activeProviderId.value !in links {
      assert ActiveDangles(g);
      return ActiveUnknown(g.id);
    }
    return Valid;
  }

  /** The provider and group loops. The verdict is Valid exactly for valid configs, and every other
      verdict is justified. */
  method ValidateConfig(c: ProxyConfig) returns (v: Verdict)
    ensures v.Valid? <==> ConfigValid(c)
    ensures v.Valid? <==> Sound(c)
    ensures Explains(c, v)
  {
    ValidMeansSound(c);
    hide Sound;
    hide Trim;
    hide ProviderValid;
    hide LinkValid;
    hide LinksOf;
    v := ValidateProviders(c);
    if !v.Valid? { return; }
    var i := 0;
    while i < |c.groups|
      invariant 0 <= i <= |c.groups|
      invariant v.Valid? && forall j :: 0 <= j < i ==> GroupValid(c, c.groups[j])
    {
      var g := c.groups[i];
      if Trim(g.id) == "" {
        assert !GroupValid(c, g);
        return GroupIdMissing;
      }
      if exists k :: 0 <= k < |g.id| && !IsGroupIdChar(g.id[k]) {
        assert !GroupValid(c, g);
        return GroupIdInvalid(g.id);
      }
      if Trim(g.name) == "" {
        assert !GroupValid(c, g);
        return GroupNameMissing(g.id);
      }
      v := ValidateLinks(c, g);
      if !v.Valid? {
        assert !GroupValid(c, c.groups[i]);
        return;
      }
      i := i + 1;
    }
  }

  // ----- normalised configs -----

  predicate IdTrimmed(p: Rule) { Trimmed(p.id) }

  /** Every linked provider carries its id without surrounding whitespace. */
  ghost predicate LinkedIdsTrimmed(c: ProxyConfig) { LinkedAll(c, IdTrimmed) }

  lemma LinksAreIds(g: ProviderGroup, t: Entries)
    requires GroupOk(g, t)
    ensures LinksOf(g) == g.providerIds.value
  {
  }

  /** In a normalised config a link resolves exactly when the provider behind it has a trimmed id. */
  lemma LinkResolvesIffTrimmed(c: ProxyConfig, t: Entries, g: ProviderGroup, i: int)
    requires CanonicalConfig(c, t) && g in c.groups && 0 <= i < |g.providerIds.value|
    ensures LinksOf(g) == g.providerIds.value && Trim(LinksOf(g)[i]) != ""
    ensures Resolves(c, g, g.providerIds.value[i]) <==> Trimmed(g.providers.value[i].id)
  {
    hide Trim;
    hide Normal;
    assert GroupOk(g, t);
    var ids, ps := g.providerIds.value, g.providers.value;
    assert EntryOk(t, ids[i]);
    forall j | 0 <= j < |ps| && ps[j].id == ids[i] ensures ps[j] == ps[i] {
      assert EntryOk(t, ids[j]);
    }
    forall j | 0 <= j < |c.providers| && c.providers[j].id == ids[i] ensures c.providers[j] == ps[i] {
      assert CanonicalProvider(c.providers[j], t);
    }
    if Trimmed(ps[i].id) { assert ps[i].id == ids[i]; }
  }

  /** So validation of a normalised config never fails over an id when linked ids are trimmed, and
      cannot succeed when one is not. */
  lemma NormalizedConfigValidates(c: ProxyConfig, t: Entries, v: Verdict)
    requires CanonicalConfig(c, t) && Explains(c, v)
    ensures LinkedIdsTrimmed(c) ==> !v.AboutIds()
    ensures v.Valid? ==> LinkedIdsTrimmed(c)
  {
    hide Trim;
    hide Normal;
    hide Resolves;
    hide LinksOf;
    forall i | 0 <= i < |c.providers| ensures Key(c.providers[i]) != "" {
      assert CanonicalProvider(c.providers[i], t);
    }
    forall i, j | 0 <= i < j < |c.providers| ensures c.providers[i].id != c.providers[j].id {
      assert Key(c.providers[i]) != Key(c.providers[j]);
    }
    forall g | g in c.groups ensures LinksOf(g) == g.providerIds.value && GroupOk(g, t) {
      assert GroupOk(g, t);
      LinksAreIds(g, t);
    }
    forall g, i | g in c.groups && 0 <= i < |g.providerIds.value|
      ensures Trim(LinksOf(g)[i]) != ""
      ensures Resolves(c, g, g.providerIds.value[i]) <==> Trimmed(g.providers.value[i].id)
    {
      LinkResolvesIffTrimmed(c, t, g, i);
    }
    if LinkedIdsTrimmed(c) {
      forall g, id | g in c.groups && id in LinksOf(g) ensures Resolves(c, g, id) {
        var i :| 0 <= i < |LinksOf(g)| && LinksOf(g)[i] == id;
        assert Trimmed(Embedded(g)[i].id);
      }
    }
    if v.Valid? {
      forall g, i | g in c.groups && 0 <= i < |Embedded(g)| ensures Trimmed(Embedded(g)[i].id) {
        assert GroupValid(c, g) && LinkValid(c, g, LinksOf(g)[i]);
      }
    }
  }

  // ----- the config before normalisation -----

  lemma TrimmingLasts()
    ensures Lasting(IdTrimmed) && Firm(IdTrimmed)
  {
    hide NormalCosts;
  }

  /** No provider that can end up in the table has whitespace around its id. */
  ghost predicate GivenIdsTrimmed(c: ProxyConfig) { AllGiven(c, IdTrimmed) }

  lemma TrimmedInputTrimsLinks(c: ProxyConfig, r: ProxyConfig, t: Entries, trail: Trail)
    requires CanonicalConfig(r, t) && Follows(c, r, t, trail) && GivenIdsTrimmed(c)
    ensures LinkedIdsTrimmed(r)
  {
    hide CanonicalConfig, Follows, AllGiven, Lasting, Firm;
    TrimmingLasts();
    GoodGivenGoodLinks(c, r, t, trail, IdTrimmed);
  }

  /** Group `n` links to a key whose holder has whitespace around its id, and embeds no other provider
      with that key. */
  ghost predicate LinksUntrimmed(c: ProxyConfig, n: int, k: string) {
    Linked(c, n, k) && CopyFor(c, n, k).None? &&
    HolderAfter(c, k, n + 1).Some? && !Trimmed(HolderAfter(c, k, n + 1).value.id)
  }

  lemma LinkTrimmed(c: ProxyConfig, r: ProxyConfig, t: Entries, trail: Trail, n: int, k: string)
    requires EntriesOk(t) && Follows(c, r, t, trail) && Tracked(c, trail)
    requires Linked(c, n, k) && Origin(c, n, k).Some?
    ensures |trail.turns| == |c.groups| && var x := Renamed(trail.turns[n].remap, k);
            x in t && (IdTrimmed(t[x]) <==> !LinksUntrimmed(c, n, k))
  {
    TrackedLength(c, trail);
    LinkLeadsToOrigin(c, r, t, trail, n, k);
    hide Follows, Tracked, ScopedIds, RawIds, HasGlobal, HolderAfter, CopyFor, Trimmed, FiledAs, EntriesOk;
    KeyTrimmed(t, Renamed(trail.turns[n].remap, k));
  }

  lemma UntrimmedHasOrigin(c: ProxyConfig, n: int, k: string)
    ensures LinksUntrimmed(c, n, k) ==> Linked(c, n, k) && Origin(c, n, k).Some?
  {
    hide ScopedIds, RawIds, HasGlobal, HolderAfter, CopyFor, Trimmed;
  }

  /** When the config settles what becomes of it, an untrimmed link is left exactly when a group links to an
      untrimmed holder. */
  lemma UntrimmedLinksExactly(c: ProxyConfig, r: ProxyConfig, t: Entries, trail: Trail)
    requires CanonicalConfig(r, t) && Follows(c, r, t, trail) && Tracked(c, trail)
    ensures LinkedIdsTrimmed(r) <==> forall n, k :: !LinksUntrimmed(c, n, k)
  {
    TrackedLength(c, trail);
    hide Follows, Tracked, ScopedIds, RawIds, HasGlobal, Origin, CanonicalList, GroupsOk, EntriesOk, IdTrimmed;
    hide LinksUntrimmed, LinkedAll;
    LinkedAllExactly(c, r, t, trail, IdTrimmed);
    forall n, k | Linked(c, n, k) && Origin(c, n, k).Some?
      ensures var x := Renamed(trail.turns[n].remap, k);
              x in t && (IdTrimmed(t[x]) <==> !LinksUntrimmed(c, n, k))
    {
      LinkTrimmed(c, r, t, trail, n, k);
    }
    forall n, k ensures LinksUntrimmed(c, n, k) ==> Linked(c, n, k) && Origin(c, n, k).Some? { UntrimmedHasOrigin(c, n, k); }
  }

  lemma KeyTrimmed(t: Entries, x: string)
    requires EntriesOk(t) && x in t
    ensures Trimmed(x)
  {
    hide Normal;
    assert EntryOk(t, x);
  }

  /** Validation after normalisation, in terms of the config before. With no whitespace around the ids of
      its providers it never fails over an id; when a group links to a global provider with such
      whitespace, and embeds none with its key, it does not pass. When the config settles what becomes of
      it, one of the two is the case by the exact condition; so too when the config is canonical. */
  method NormalizeThenValidate(c: ProxyConfig, same: Compare, newId: set<string> -> string)
    returns (r: ProxyConfig, v: Verdict, ghost t: Entries, ghost trail: Trail)
    requires GivesFresh(newId)
    ensures NormalForm(c, r, t, trail, same, newId) && Explains(r, v) && (v.Valid? <==> ConfigValid(r))
    ensures GivenIdsTrimmed(c) ==> !v.AboutIds()
    ensures (exists i, n :: LinksBad(c, i, n, IdTrimmed)) ==> !v.Valid?
    ensures Settled(c, same, newId) ==>
              if exists n, k :: LinksUntrimmed(c, n, k) then !v.Valid? else !v.AboutIds()
    ensures StableFor(same, c.groups) && Canonical(c) ==>
              r == c && if LinkedIdsTrimmed(c) then !v.AboutIds() else !v.Valid?
  {
    r, t, trail := NormalizeConfigForStorage(c, same, newId);
    assert CanonicalConfig(r, t) && Follows(c, r, t, trail);
    hide *;
    v := ValidateConfig(r);
    NormalizedConfigValidates(r, t, v);
    if GivenIdsTrimmed(c) { TrimmedInputTrimsLinks(c, r, t, trail); }
    if i, n :| LinksBad(c, i, n, IdTrimmed) { BadLinkFails(c, r, t, trail, i, n); }
    if Settled(c, same, newId) {
      SettledIsTracked(c, r, t, trail, same, newId);
      UntrimmedLinksExactly(c, r, t, trail);
    }
    if StableFor(same, c.groups) && Canonical(c) { CanonicalStays(c, r, t, trail, same, newId); }
  }

  lemma BadLinkFails(c: ProxyConfig, r: ProxyConfig, t: Entries, trail: Trail, i: int, n: int)
    requires Follows(c, r, t, trail) && LinksBad(c, i, n, IdTrimmed)
    ensures !LinkedIdsTrimmed(r)
  {
    hide Follows, LinksBad, Lasting, Firm, LinkedAll;
    TrimmingLasts();
    BadLinkStays(c, r, t, trail, i, n, IdTrimmed);
  }

  lemma CanonicalStays(
    c: ProxyConfig, r: ProxyConfig, t: Entries, trail: Trail, same: Compare, newId: set<string> -> string)
    requires NormalForm(c, r, t, trail, same, newId) && StableFor(same, c.groups) && Canonical(c)
    ensures r == c
  {
  }

  /** A canonical config that fails over nothing but whitespace around a linked id. */
  lemma UntrimmedIdFails() returns (c: ProxyConfig, t: Entries)
    ensures CanonicalConfig(c, t) && |c.providers| == 1 && c.providers[0].id == " a"
    ensures ProviderValid(c, 0) && |c.groups| == 1 && c.groups[0].providerIds == Some(["a"])
    ensures Explains(c, LinkUnknown("g", "a")) && !ConfigValid(c)
  {
    var p := Rule(" a", ["m"], Some("m"), None, Cost(false, 0, 0, 0, 0, "USD", None), map[], map[], "");
    var g := ProviderGroup("g", "g", [], None, Some(["a"]), None, Some([p]), None);
    c := ProxyConfig([g], [p], "");
    t := map["a" := p];
    TrimDropsBlank();
    hide Trim;
    assert EntryOk(t, "a") && CanonicalProvider(p, t) && GroupOk(g, t);
    assert "a" in LinksOf(g) && !Resolves(c, g, "a") && !LinkValid(c, g, LinksOf(g)[0]);
    assert g in c.groups;
    assert c.groups[0] == g && !GroupValid(c, g);
  }

  lemma TrimDropsBlank()
    ensures Trim(" a") == "a" && Trim("m") == "m" && Trimmed("a")
  {
    assert SkipWhitespace(" a", 1) == 1 && SkipWhitespace(" a", 0) == 1;
    assert DropWhitespace(" a", 1, 2) == 2;
  }
}
