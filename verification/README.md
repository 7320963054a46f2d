# A verified model of the AI Open Router backend

The Rust backend of AI Open Router proxies LLM traffic: it picks a provider for a request, streams the
provider's answer through a protocol transformer, counts tokens, keeps configuration, quota mappings,
admin sessions and usage statistics. This project models the parts of it that carry the hardest
guarantees and proves them in Dafny. `dafny verify dfyconfig.toml` checks everything.

| files | what they model |
|---|---|
| `SseFraming`, `StreamPipeline`, `StreamTheorems` | the streaming task: chunks are buffered, cut into server-sent events, transformed and sent on |
| `TokenUsage`, `Json` | usage objects in payloads and the running token counters of a stream |
| `RouteIndex`, `RouteProtocol` | the per-group route index, the choice of a route, and the index cache as a concurrent protocol |
| `ConfigModel`, `ConfigTable`, `ConfigNormalize`, `ConfigOrigin` | storage normalisation: the provider table, the groups, and where their links lead |
| `ConfigValidate`, `ConfigPersist` | validation, the groups database, saving and starting up |
| `QuotaGrammar`, `QuotaExpr`, `QuotaLayout`, `QuotaPrint`, `QuotaInline`, `QuotaValue`, `QuotaPath`, `QuotaPayload` | the quota expression language: parser, evaluator, all the ways to write an expression, and the JSONPath walker |
| `Sessions` | the remote admin session store under concurrent use |
| `StatsWindow`, `StatsPeaks`, `StatsSummary` | aggregation of request events and token rates |
| `Text`, `Sequences` | trimming, substrings, numerals and sequence helpers |

How to read the model:

- Code the repository calls but whose behaviour is not at issue is a parameter: transformers and stream
  finalizers, the JSON parser and codec, the clock, password hashing, fresh ids and tokens.
- Loops and in-place updates are methods and classes; each is proved against a function or predicate, and
  the results that span operations or whole runs are lemmas about those.
- JSON text comparison of providers is a function that may answer differently on each call, because hash
  map order is not fixed. `Faithful` says that only equal providers compare equal, `SelfSame` that one
  provider compares equal to itself; equality is both (`EqualityComparesWell`), and rendering is the second
  where each hash map of the provider has at most one entry (`OneOrder`). Results name what they need; the
  structural ones need neither. Prices are whole multiples of the smallest positive 64-bit float, which all
  of them are.
- `Settled` configs decide alone what becomes of them: groups only link, or the given providers are in normal
  form and compare equal exactly to themselves, and no allocated id is one the config uses. Fresh ids of
  this kind exist (`FreshIdsExist`).
- The JSON codec of the tables has to invert what is written and nothing else; for any rows there is one
  that does (`SomeCodecInverts`).
- Lock sections are atomic steps, and atomic loads and stores are sequentially consistent.
- Positions in text count characters; strings in `RouteIndex` stand for their UTF-8 code units.

Where code and documentation disagree the model follows the code. Route patterns are literal substrings,
although README.md:60 of the repository shows `claude*`. The comment on `first_u64` promises to fall back
to the first value seen; `FirstU64` shows that this value can only be zero. The message for a short admin
password speaks of characters; the code counts UTF-8 bytes, and so does `SetPassword`.

Properties that turned out false of the code are kept as results, each with an input and with the exact
condition under which the code meets it:

| false property | shown by | exact condition |
|---|---|---|
| the route index only moves forward | `SlowRefresherGoesBack` | `NeverBackExactly`: no write, no store is overtaken |
| a skipped refresh runs over an index as new as the revision it saw | `SkipDuringWriteIsStale` | `SkippedRefreshStaleExactly`: the last write was not made from a read before a save that the request saw |
| equal revisions after construction mean a current index | `SaveDuringConstruction` | `ConstructionSafeExactly`: no save is overlooked |
| a normalised config never fails validation over an id | `UntrimmedIdFails` | `NormalizeThenValidate`: no group links to an untrimmed holder, or the config is canonical and has no untrimmed link |
| a provider equal to the filed one is not copied | `EqualProviderCopied` | `FileEmbedded`: the comparison answers equal |
| a saved config is there again after a restart | `SavedButLost` | `SaveThenRestart`: no link of the config stands for a provider without models |
| an inline path is read back as written | `TokenRecoveredIffNoBackslash` | the same lemma: it has no backslash |
| an explicit call is read as it is written | `SpacedCallIsRewritten` | `LeftAloneExactly`: the text contains `path(` or no `$` |
| rule counts add up to the requests | `RenamedGroupCollides` | `ByRule`: every event names a rule and no two rows share a key |
| the overall token rate stays within the peak | `MixedSpeedExceedsPeak` | `PeakBoundsOverallIffUnmixed`: all hours have durations, or none |

## Model

| member | source | states |
|---|---|---|
| `SseFraming.FindSseDelimiter` | src-tauri/src/proxy/pipeline.rs:2028-2045 | finds the delimiter (LF LF or CRLF CRLF) with the smallest start, or there is none anywhere |
| `SseFraming.DelimiterIsPrefixStable` | src-tauri/src/proxy/pipeline.rs:2028-2045 | appending input never moves the first complete delimiter, although CRLF CRLF can straddle the boundary |
| `SseFraming.SplitResumes` | src-tauri/src/proxy/pipeline.rs:2021-2045 | cutting what has arrived and later cutting the rest behind the pending tail equals cutting the whole |
| `SseFraming.SplitIsFraming` | src-tauri/src/proxy/pipeline.rs:2021-2026 | events plus tail are exactly the bytes, every event ends at its first delimiter, the tail has none |
| `SseFraming.FramingIsUnique` | src-tauri/src/proxy/pipeline.rs:2021-2045 | there is no other way to read the bytes as events and an unterminated rest |
| `StreamPipeline.StreamTask.PopSseEvent` | src-tauri/src/proxy/pipeline.rs:2021-2026 | cuts the first event off the buffer: event and remaining buffer concatenate to the old buffer |
| `StreamPipeline.StreamTask.DrainEvents` | src-tauri/src/proxy/pipeline.rs:891-1041 | the pop-and-transform loop, with its early exit on a transform error |
| `StreamPipeline.StreamTask.SendOutgoing` | src-tauri/src/proxy/pipeline.rs:1043-1068 | sends in order and stops at the first send the client no longer accepts |
| `StreamPipeline.StreamTask.FailWith` | src-tauri/src/proxy/pipeline.rs:862-889 | a failure runs the finalizer and sends its bytes, or an error item when there are none; what that means for a whole run is `FailedRunTells` |
| `StreamPipeline.StreamTask.ConsumeChunk` | src-tauri/src/proxy/pipeline.rs:804-1069 | one upstream chunk: probe, overflow, drain and send |
| `StreamPipeline.StreamTask.FinishAtEof` | src-tauri/src/proxy/pipeline.rs:1070-1178 | end of stream: the non-empty tail is transformed, then the finalizer runs |
| `StreamPipeline.StreamTask.Stream` | src-tauri/src/proxy/pipeline.rs:802-1229 | the whole loop, with every way it can stop, equals the step function whose runs the theorems quantify over |
| `StreamTheorems.DrainIsFold` | src-tauri/src/proxy/pipeline.rs:891-1041 | popping one event at a time does what folding over the batch split does |
| `StreamTheorems.ChunkStep` | src-tauri/src/proxy/pipeline.rs:804-1069 | a chunk keeps the between-chunks invariant, or the stream has stopped having sent no more than it owed |
| `StreamTheorems.CleanRunDeliversWholeTransform` | src-tauri/src/proxy/pipeline.rs:802-1178 | a run without failure or client close delivers the one-pass transform of the whole stream, then the closing bytes of the two OpenAI-to-Claude converters; the three passthrough transformers, by name, deliver the stream unchanged |
| `StreamTheorems.CleanRunItems` | src-tauri/src/proxy/pipeline.rs:802-1178 | item by item, a clean run sends every chunk of a passthrough stream, or else every output that is not empty, and then the closing bytes, if any |
| `StreamTheorems.ChunkingIndependence` | src-tauri/src/proxy/pipeline.rs:802-1178 | two clean runs over the same bytes deliver the same bytes and end in the same context, wherever chunks fall |
| `StreamTheorems.EveryRunIsSafe` | src-tauri/src/proxy/pipeline.rs:858-1229 | in every run, data precedes finalizers and errors and is a prefix of the whole-stream transform up to its first failing event |
| `StreamTheorems.FailedRunDeliversOwed` | src-tauri/src/proxy/pipeline.rs:862-1178 | whatever its client does, a failed run has delivered exactly the data that the chunks before the refused one owe: overflow, probe, transform and read failures alike |
| `StreamTheorems.FailedRunTells` | src-tauri/src/proxy/pipeline.rs:823-1229 | when a failed run has room left, what it sent is the data owed and then closing bytes or, without any, an error; the kind and the context are told from the run: probe, overflow, failing event, failing tail (followed by the ordinary end) or read error |
| `StreamTheorems.ClientLeavingCutsOff` | src-tauri/src/proxy/pipeline.rs:802-1229 | whenever the client goes away, it has received the first items of what it would have received by staying |
| `StreamTheorems.PendingBufferInvariant` | src-tauri/src/proxy/pipeline.rs:858-1069 | between chunks the buffer holds no complete delimiter, at most the bound, and events handed on plus buffer equal the bytes received |
| `StreamTheorems.CleanExactlyWhenAdmissible` | src-tauri/src/proxy/pipeline.rs:802-1178 | with a client that keeps reading, a run is clean exactly when the probe passes, no chunk overflows the buffer and no event fails |
| `TokenUsage.FirstU64` | src-tauri/src/proxy/observability.rs:283-320 | the result is the first positive candidate in lookup order, or 0 |
| `TokenUsage.NormalizeInputTokens` | src-tauri/src/proxy/observability.rs:252-278 | for OpenAI-style usage input and cached tokens add up to the raw input; in every other case the raw input is returned |
| `TokenUsage.ExtractedCounters` | src-tauri/src/proxy/observability.rs:193-249 | each counter is the first positive value of its fields, the input less cached tokens in OpenAI style; nothing is reported exactly when there is no usage object or all values are zero |
| `TokenUsage.SplitLinesResumes` | src-tauri/src/proxy/observability.rs:138-148 | line splitting can be resumed behind the unterminated rest |
| `TokenUsage.StreamTokenAccumulator.ConsumeLine` | src-tauri/src/proxy/observability.rs:151-169 | a `data:` line, blanks and a carriage return aside, raises the counters to the maximum with what its payload reports; every other line leaves them alone |
| `TokenUsage.StreamTokenAccumulator.ConsumeChunk` | src-tauri/src/proxy/observability.rs:138-148 | the drain loop consumes exactly the complete lines and keeps the rest |
| `TokenUsage.StreamTokenAccumulator.ConsumeAll` | src-tauri/src/proxy/observability.rs:138-169 | after any chunking the counters are the least that cover what the newline-terminated data lines of the whole text report |
| `TokenUsage.CountersAreLeastUpperBound` | src-tauri/src/proxy/observability.rs:159-167 | joining the split lines is the least upper bound of what the data lines of a text report, stated on the text |
| `RouteIndex.BuildRouteIndex` | src-tauri/src/proxy/routing.rs:368-417 | the loop builds the index that `IndexAgreesWithScan` describes |
| `RouteIndex.IndexAgreesWithScan` | src-tauri/src/proxy/routing.rs:368-417 | the entry of an id tells of the last group with it: no table exactly when its table is empty, no default exactly when it has routes but none named default, else ready with its id, name and whole table |
| `RouteIndex.LongestMatchFound` | src-tauri/src/proxy/routing.rs:323-345 | filter and max pick a contained pattern than which none contained is longer, the last of equals |
| `RouteIndex.ReadyEntryResolves` | src-tauri/src/proxy/routing.rs:318-360 | a Ready entry resolves over the table of the last group with its id: to the longest match or the first default, with the first provider of that id; a missing provider is the only failure |
| `RouteProtocol.StepKeepsInv` | src-tauri/src/proxy/routing.rs:289-312 | every step of every thread keeps the cache invariant, and a weaker one that survives a save during construction |
| `RouteProtocol.OnlyLocksBlock` | src-tauri/src/proxy/routing.rs:289-312 | a thread can always go on, except that a refresh waits for the config lock of a save and for the index lock of another refresh |
| `RouteProtocol.IndexIsFromPublishedRevision` | src-tauri/src/proxy/routing.rs:289-312 | in every interleaving, with the index lock free, the index was built from a published revision between the cached and the current one |
| `RouteProtocol.EqualRevisionsMeanCurrentIndex` | src-tauri/src/proxy/routing.rs:290-294 | equal revisions mean the index of the live config |
| `RouteProtocol.SkippedRefreshIsFreshEnough` | src-tauri/src/proxy/routing.rs:290-294 | a request that skips the refresh does so over an index at least as new as the revision it observed, unless a refresher is between its two writes |
| `RouteProtocol.SkippedRefreshStaleExactly` | src-tauri/src/proxy/routing.rs:289-312 | such a request runs over an older index exactly when the last write came from a config read before a save that the request saw |
| `RouteProtocol.QuietRefreshCatchesUp` | src-tauri/src/proxy/routing.rs:289-312 | with both locks free, one undisturbed refresh leaves the index of the live config under the current revision, wherever other threads are |
| `RouteProtocol.SlowRefresherGoesBack` | src-tauri/src/proxy/routing.rs:302-310 | for all configs, a schedule in which an overtaken refresher restores an older index after another request was checked |
| `RouteProtocol.SkipDuringWriteIsStale` | src-tauri/src/proxy/routing.rs:290-310 | for all configs, a schedule in which a request skips the refresh over an index older than the revision it observed |
| `RouteProtocol.IndexGoesBackExactly` | src-tauri/src/proxy/routing.rs:289-312 | a step puts an older index back exactly when it is a write and the previous write came from a read that a save separates from this one's earlier read |
| `RouteProtocol.CachedGoesBackExactly` | src-tauri/src/proxy/routing.rs:289-312 | likewise the cached revision, for stores and the loads before them |
| `RouteProtocol.NeverBackExactly` | src-tauri/src/proxy/routing.rs:289-312 | a run never goes back exactly when its schedule has no overtaken write, or no overtaken store |
| `RouteProtocol.ConstructedQuietly` | src-tauri/src/proxy.rs:78-96 | without a save in between, construction leaves a current index that a first request does not refresh |
| `RouteProtocol.SaveDuringConstruction` | src-tauri/src/proxy.rs:78-96 | a save between building the first index and loading the revision is overlooked whenever it changes the index |
| `RouteProtocol.ConstructionSafeExactly` | src-tauri/src/proxy.rs:78-96 | equal revisions mean a current index in every run after construction exactly when no save was overlooked |
| `RouteProtocol.StaleIndexUnderEqualRevisionsStays` | src-tauri/src/proxy.rs:78-96 | after an overlooked save no schedule without a further bump replaces the index, and no request ever finds the revisions different |
| `RouteProtocol.NextSaveRepairs` | src-tauri/src/proxy/routing.rs:289-312 | the next save and a refresh after it install the index of the saved config |
| `RouteProtocol.RouteIndexCache.RefreshRouteIndexIfNeeded` | src-tauri/src/proxy/routing.rs:289-312 | run alone, a refresh makes index and cached revision current |
| `RouteProtocol.RouteIndexCache.SetInMemory` | src-tauri/src/config_store.rs:244-249 | publishes a config under the next revision and keeps the cache valid |
| `ConfigModel.NormalizeProviderForStorage` | src-tauri/src/config_store.rs:401-429 | model costs become a permitted normal form, which carries exactly the costs given for models of the provider or else its legacy cost; a normal provider is unchanged |
| `ConfigModel.NormalizesExactly` | src-tauri/src/config_store.rs:401-439 | the normal forms of a provider are exactly those that carry over, under trimmed model names, the costs given for its models or, when there are none, its legacy cost unless that is unset |
| `ConfigTable.AllocUniqueProviderId` | src-tauri/src/config_store.rs:442-458 | the id is the first free of base-2 to base-1000, else a fresh one; it is unused, non-blank and trimmed |
| `ConfigTable.MergeGlobal` | src-tauri/src/config_store.rs:272-285 | exactly the non-blank keys are filed, in order of first occurrence, each with a normal form of the first provider that has it; every entry is a given provider; a canonical list is kept in order |
| `ConfigTable.FileEmbedded` | src-tauri/src/config_store.rs:323-345 | filed as given when its id is free, not filed when it compares equal, else copied under an allocated id; entries are never replaced |
| `ConfigTable.EqualProviderCopied` | src-tauri/src/config_store.rs:324-338 | a provider that is filed already is copied under base-2 when the two renderings are told apart |
| `ConfigTable.MergeEmbedded` | src-tauri/src/config_store.rs:311-346 | all scoped embedded providers have their key filed, new entries are copies of scoped ones, renamed ids are new and lead to a copy of their provider; if comparisons are faithful every scoped provider can be reached |
| `ConfigNormalize.LinkIds` | src-tauri/src/config_store.rs:362-375 | links are exactly the non-blank known targets, each once, in order of first occurrence |
| `ConfigNormalize.NormalizeGroup` | src-tauri/src/config_store.rs:288-395 | one group: which links it gets and in what order, the entries behind them, the active id kept exactly when linked; scoped providers stay linked; a finished group is unchanged when its providers compare equal to themselves |
| `ConfigNormalize.NormalizeGroupsAndProviders` | src-tauri/src/config_store.rs:268-399 | the whole merge: every group has its result from the table of its own turn, the table only grows, begins with the global keys and holds only given providers |
| `ConfigNormalize.NormalizeConfigForStorage` | src-tauri/src/config_store.rs:461-494 | the result is canonical whatever comparisons answer; in order, it keeps exactly the groups with a route or a link and the table entries with a model, default model or mapping; every entry was given; a config is unchanged only if canonical, and if so when its embedded providers compare equal to themselves; with faithful comparison scoped providers survive and stay linked |
| `ConfigNormalize.FollowsKeeps` | src-tauri/src/config_store.rs:461-494 | for every group of the config: what its result is, and that it is kept exactly when the group has a route or its result a link; likewise for every table entry, conditions written out |
| `ConfigNormalize.ResultIsOutcome` | src-tauri/src/config_store.rs:288-395 | a group keeps its id, name, routing table, models and failover; its links are the filed ids it stands by, explicit ones only if there are global providers, with the entries behind them; its active id stays exactly when linked |
| `ConfigNormalize.OwnProvidersLinked` | src-tauri/src/config_store.rs:293-381 | without global providers a group links exactly its own providers that have an id, whatever explicit ids it has |
| `ConfigNormalize.NormalizeTwice` | src-tauri/src/config_store.rs:461-494 | normalisation is idempotent when its result compares equal to itself, in particular when the hash maps of the given providers have at most one entry in normal form |
| `ConfigOrigin.HolderFiled` | src-tauri/src/config_store.rs:272-346 | after every group the table files under a key the first provider with it, global ones before embedded ones in scope |
| `ConfigOrigin.LinkLeadsToOrigin` | src-tauri/src/config_store.rs:268-399 | in a settled config a link leads to the holder of its key, or to a copy of the group's own last other provider with that key; a link without either is dropped |
| `ConfigOrigin.LinkedAllExactly` | src-tauri/src/config_store.rs:268-494 | linked providers satisfy a predicate exactly when what every link of the config leads to does |
| `ConfigOrigin.GoodGivenGoodLinks` | src-tauri/src/config_store.rs:268-494 | whatever comparisons answer, what all given providers satisfy all linked ones do, for predicates that normal forms and renaming keep |
| `ConfigOrigin.BadLinkStays` | src-tauri/src/config_store.rs:268-494 | whatever comparisons answer, a link to a bad global provider stays when the group embeds none with its key |
| `ConfigValidate.ValidateProviders` | src-tauri/src/config/validator.rs:39-58 | the provider loop accepts exactly valid providers and every failure is justified |
| `ConfigValidate.ValidateLinks` | src-tauri/src/config/validator.rs:73-118 | the link loop accepts exactly resolving links and an active id among them |
| `ConfigValidate.ValidateConfig` | src-tauri/src/config/validator.rs:39-121 | the verdict is Valid exactly for valid configs and any other verdict names something really wrong |
| `ConfigValidate.ValidMeansSound` | src-tauri/src/config/validator.rs:39-121 | what is accepted, written out: named providers with default models and distinct ids; groups with an ASCII word as id, a name, and links that name a provider of the config or the group, the active one among them |
| `ConfigValidate.LinkResolvesIffTrimmed` | src-tauri/src/config/validator.rs:91-107 | in a normalised config a link resolves exactly when its provider's id is trimmed |
| `ConfigValidate.NormalizedConfigValidates` | src-tauri/src/config/validator.rs:39-118 | a canonical config never fails over an id when linked ids are trimmed, and cannot pass when one is not |
| `ConfigValidate.UntrimmedIdFails` | src-tauri/src/config/validator.rs:91-107 | a canonical config that fails over nothing but a blank in front of a linked id |
| `ConfigValidate.TrimmedInputTrimsLinks` | src-tauri/src/config_store.rs:268-399 | when no given provider has whitespace around its id, no linked id has after normalisation |
| `ConfigValidate.UntrimmedLinksExactly` | src-tauri/src/config_store.rs:268-399 | in a settled config, embedded providers included, an untrimmed link is left exactly when a group links to an untrimmed holder of a key and embeds no other provider with it |
| `ConfigValidate.NormalizeThenValidate` | src-tauri/src/config_store.rs:116-117 | validation after normalisation in terms of the input: trimmed ids never fail, a linked untrimmed global provider never passes, exact conditions for settled and for canonical configs; the result is a normal form of the input |
| `ConfigPersist.GroupsDb.Persist` | src-tauri/src/config_store.rs:497-547 | succeeds exactly when group ids and provider ids are distinct, and then each table holds one row per group or provider, in order and under its id; else both stay |
| `ConfigPersist.GroupsDb.Load` | src-tauri/src/config_store.rs:550-615 | succeeds exactly when every row decodes; groups are refilled from the provider rows by row id |
| `ConfigPersist.RefilledFromRows` | src-tauri/src/config_store.rs:590-612 | a loaded group is what its row decodes to, with the providers that have a row under one of its links, link by link, each from the last such row |
| `ConfigPersist.WrittenLoadsBack` | src-tauri/src/config_store.rs:497-615 | tables that were written decode to what was written, for any codec that inverts those rows |
| `ConfigPersist.GroupReadsBack` | src-tauri/src/config_store.rs:590-612 | a group reads back with its ids intact and exactly its kept links; unchanged exactly when all were kept |
| `ConfigPersist.ConfigReadsBack` | src-tauri/src/config_store.rs:550-615 | with trimmed ids all groups read back unchanged exactly when every linked provider was kept |
| `ConfigPersist.PersistThenLoad` | src-tauri/src/config_store.rs:497-615 | writing and loading returns the same providers, and the same groups exactly when every linked provider was kept |
| `ConfigPersist.ReloadedValidates` | src-tauri/src/config_store.rs:75-91 | what a valid normalised config reads back as is valid exactly when every linked provider was kept |
| `ConfigPersist.SavedButLost` | src-tauri/src/config_store.rs:479-488 | a config that is valid in memory and invalid once it has been read back |
| `ConfigPersist.KeptFromInput` | src-tauri/src/config_store.rs:479-488 | whether normalisation keeps every linked provider, told from the input: always when all given have models, never when a linked global one has none; exact for settled configs |
| `ConfigPersist.ConfigStore.SaveConfig` | src-tauri/src/config_store.rs:115-133 | what is stored is a normal form of the given config; the tables are replaced exactly when it is valid with distinct group ids; file, published config and revision change only when the save succeeds, except that a failed write may leave any file |
| `ConfigPersist.ConfigStore.Initialize` | src-tauri/src/config_store.rs:68-96 | start-up publishes what tables hold, or a normal form of the file when they are empty, exactly when it is valid, and overwrites the tables with a normal form of the defaults when it is not |
| `ConfigPersist.ConfigStore.SaveThenRestart` | src-tauri/src/config_store.rs:68-122 | a normal form of the given config is saved and comes back after a restart exactly when no linked provider was dropped, with the condition on the given config; else the tables hold the defaults |
| `QuotaExpr.ExprParser.ParseAddSub` | src-tauri/src/quota/parser.rs:252-265 | sums: a value exactly when the sum parses and its tree evaluates, ending where the parse ends |
| `QuotaExpr.ExprParser.ParseMulDiv` | src-tauri/src/quota/parser.rs:268-285 | products likewise, with the epsilon guard on divisors |
| `QuotaExpr.ExprParser.ParseUnary` | src-tauri/src/quota/parser.rs:288-297 | signs likewise |
| `QuotaExpr.ExprParser.ParsePrimary` | src-tauri/src/quota/parser.rs:300-330 | parentheses, path calls and numbers likewise |
| `QuotaExpr.ExprParser.ParseStringLiteral` | src-tauri/src/quota/parser.rs:352-377 | reads a quoted string with escapes, or fails |
| `QuotaExpr.NormalizeExpression` | src-tauri/src/quota/parser.rs:199-228 | text with an explicit `path(` is left alone; else each `$` token becomes a path call with its quotes escaped and every other character stays |
| `QuotaExpr.EvaluateExpression` | src-tauri/src/quota/parser.rs:181-196 | the one-pass evaluator returns a value exactly when the whole input parses and its tree evaluates to it |
| `QuotaGrammar.ParseAdd` | src-tauri/src/quota/parser.rs:247-265 | every successful parse strictly advances, so the mutual recursion ends |
| `QuotaLayout.LayoutParses` | src-tauri/src/quota/parser.rs:247-388 | every way to write an expression, with blanks, brackets, signs, both quotes and escapes, parses to the tree it writes |
| `QuotaLayout.ParsesExactly` | src-tauri/src/quota/parser.rs:247-388 | and nothing else parses: the parser accepts exactly the texts that write a tree, each with that tree |
| `QuotaPrint.EscapedScans` | src-tauri/src/quota/parser.rs:352-377 | string escapes are inverted exactly |
| `QuotaPrint.PrintThenParse` | src-tauri/src/quota/parser.rs:252-377 | every tree has a text without blanks and with the fewest brackets, and parsing it gives the tree back |
| `QuotaInline.TokenRecoveredIffNoBackslash` | src-tauri/src/quota/parser.rs:217-222 | rewriting a token and reading the literal back gives the token exactly when it has no backslash |
| `QuotaInline.RewriteIsExplicitExactly` | src-tauri/src/quota/parser.rs:199-228 | rewriting any text without `path(` gives its explicit form exactly when no token has a backslash |
| `QuotaInline.LeftAloneExactly` | src-tauri/src/quota/parser.rs:199-228 | rewriting leaves a text alone exactly when it contains `path(` or no `$` |
| `QuotaInline.SpacedCallIsRewritten` | src-tauri/src/quota/parser.rs:199-228 | a call with a blank before its bracket, which the parser reads but the rewriting breaks |
| `QuotaInline.InlineMeansExplicit` | src-tauri/src/quota/parser.rs:181-228 | any text without `path(` and without a backslash in its tokens means what its explicit form means |
| `QuotaInline.MeaningExactly` | src-tauri/src/quota/parser.rs:181-228 | a text has a value exactly when it, or its explicit form if it has no explicit call, writes a tree that evaluates to it |
| `QuotaInline.InlinedMeansTree` | src-tauri/src/quota/parser.rs:181-228 | any text with bare references, blanks, brackets, signs and calls without `$`, but no `path(`, means the tree it writes |
| `QuotaInline.InlineMeansTree` | src-tauri/src/quota/parser.rs:181-228 | rewriting the printed inline form gives the explicit form, character for character, and the inline form means what its tree evaluates to |
| `QuotaInline.ExplicitMeansTree` | src-tauri/src/quota/parser.rs:181-228 | any text with explicit calls alone, the bracket right behind the name, means its tree, whatever its paths contain |
| `QuotaInline.PrintedMeansTree` | src-tauri/src/quota/parser.rs:181-228 | both printed forms of a tree mean what it evaluates to |
| `QuotaValue.NumberIsDecimal` | src-tauri/src/quota/parser.rs:332-349 | what is accepted as a number: digits with at most one dot and at least one digit |
| `QuotaValue.DecimalValue` | src-tauri/src/quota/parser.rs:332-349 | the value of a number, its dot shifted behind the last digit, is its digits |
| `QuotaValue.EvalIs` | src-tauri/src/quota/parser.rs:252-297 | evaluation follows arithmetic: sums, differences, products and negatives, a quotient times its divisor is the dividend, and no division by less than epsilon |
| `QuotaValue.MeaningIs` | src-tauri/src/quota/parser.rs:181-297 | the same of what printed texts mean, from what the texts of their operands mean |
| `QuotaPath.ReadStep` | src-tauri/src/quota/parser.rs:423-473 | the index loops read one step of a path, or reject it |
| `QuotaPath.ExtractJsonPath` | src-tauri/src/quota/parser.rs:415-478 | the walk loop computes the value a path string denotes |
| `QuotaPath.PrintedPathExtracts` | src-tauri/src/quota/parser.rs:415-478 | extracting along any written path, with blanks, raw keys and leading zeros, is following its steps one by one, also where that leads nowhere |
| `QuotaPath.OnlyPathsExtract` | src-tauri/src/quota/parser.rs:415-478 | a value is found only along such a path |
| `QuotaPayload.EvaluateAgainst` | src-tauri/src/quota/parser.rs:181-196 | evaluation against a payload, with paths looked up in it |
| `QuotaPayload.ReferenceReadsItsSteps` | src-tauri/src/quota/parser.rs:311-327 | an explicit reference reads exactly the number its steps lead to |
| `Sessions.StepKeepsInv` | src-tauri/src/auth.rs:81-184 | every lock section of every thread keeps the store invariant |
| `Sessions.VerifyAcceptsExactlyOwnRevision` | src-tauri/src/auth.rs:148-170 | in every interleaving, verification accepts exactly a present, unexpired token issued under the revision in its own snapshot |
| `Sessions.LateInsertIsRejected` | src-tauri/src/auth.rs:127-170 | a session inserted after a racing rotation is rejected and removed once verification has seen the new password |
| `Sessions.RemovedTokenStaysRejected` | src-tauri/src/auth.rs:148-184 | a token that left the map is never accepted again |
| `Sessions.RevokedTokenStaysRejected` | src-tauri/src/auth.rs:97-184 | a token revoked alone, with all others or after a password change while its session is present is gone at once and never accepted in any later run |
| `Sessions.SessionLeavesExactly` | src-tauri/src/auth.rs:81-184 | a session leaves the store exactly when it is revoked or a check rejects it |
| `Sessions.SessionsExpire` | src-tauri/src/auth.rs:127-170 | in every interleaving, twelve hours after any moment no token issued before it is accepted any more |
| `Sessions.RevocationRemoves` | src-tauri/src/auth.rs:173-184 | revocations remove their token, or all, and nothing else |
| `Sessions.RotationRevokesPresentSessions` | src-tauri/src/auth.rs:97-103 | the revocation after a rotation removes every session then present |
| `Sessions.UndisturbedRotation` | src-tauri/src/auth.rs:81-103 | the two sections of a rotation, undisturbed, do what the store method does |
| `Sessions.UndisturbedClear` | src-tauri/src/auth.rs:106-110 | the two sections of clearing the password, undisturbed, leave no password and no session |
| `Sessions.UndisturbedIssue` | src-tauri/src/auth.rs:127-145 | the sections of issuing, undisturbed, do what the store method does |
| `Sessions.UndisturbedVerify` | src-tauri/src/auth.rs:148-170 | the sections of verifying, undisturbed, do what the store method does |
| `Sessions.RemoteAdminAuthStore.SetPassword` | src-tauri/src/auth.rs:81-103 | passwords of too few UTF-8 bytes change nothing; others replace the record and revoke all sessions |
| `Text.Utf8LengthIs` | src-tauri/src/auth.rs:83-83 | the length of a password: a byte for each character and one more from each of the UTF-8 bounds on |
| `Sessions.RemoteAdminAuthStore.Clear` | src-tauri/src/auth.rs:106-110 | clears the record and all sessions |
| `Sessions.RemoteAdminAuthStore.IssueSession` | src-tauri/src/auth.rs:127-145 | fails without a password; else the token is accepted for exactly twelve hours |
| `Sessions.RemoteAdminAuthStore.VerifySession` | src-tauri/src/auth.rs:148-170 | accepts by the rule above and removes a rejected token |
| `Sessions.RemoteAdminAuthStore.RevokeOne` | src-tauri/src/auth.rs:173-177 | removes one token and nothing else |
| `StatsWindow.GroupsAddUp` | src-tauri/src/stats_store.rs:593-670 | totals of the groups of any grouping add up to the direct fold over the events |
| `StatsWindow.SumIsTotals` | src-tauri/src/stats_store.rs:610-625 | requests are counted and every other total is the sum of its own field, field by field |
| `StatsWindow.GroupTotalIs` | src-tauri/src/stats_store.rs:610-625 | the totals of a group are those of the events with its key |
| `StatsWindow.SelectPicks` | src-tauri/src/stats_store.rs:786-820 | exactly the events in the window, for the asked model and with a selected rule are selected, in order |
| `StatsWindow.CountsExactly` | src-tauri/src/stats_store.rs:746-820 | a rule is selected by the key its row has |
| `StatsWindow.SameRowExactly` | src-tauri/src/stats_store.rs:746-756 | two requests are in one rule row exactly when group, group name and rule agree |
| `StatsWindow.SumHours` | src-tauri/src/stats_store.rs:649-663 | totals accumulated from hour rows equal the direct fold |
| `StatsWindow.ByProtocol` | src-tauri/src/stats_store.rs:688-713 | protocol request and token counts sum to the totals |
| `StatsWindow.KeysOfEvent` | src-tauri/src/stats_store.rs:688-744 | the protocol and status an event is grouped under, or that they are unknown, and the label made of them |
| `StatsWindow.NonBlankIs` | src-tauri/src/stats_store.rs:688-720 | what trimming in queries leaves: the text without the spaces at both ends, if anything is left |
| `StatsWindow.LabelsAddUp` | src-tauri/src/stats_store.rs:715-744 | status rows with one label add up to the errors of the events with that label |
| `StatsWindow.ByStatus` | src-tauri/src/stats_store.rs:715-744 | the labels are those of failing events, each with the errors of its events, and sum to the total errors under every dimension, even when labels collide |
| `StatsWindow.ByRule` | src-tauri/src/stats_store.rs:746-777 | the last row of each key remains; request and token counts sum to at most the totals, requests exactly when every event names a rule and no two rows share a key |
| `StatsWindow.RenamedGroupCollides` | src-tauri/src/stats_store.rs:746-777 | two requests of a group that was renamed give two rows with one key |
| `StatsWindow.AggregateWindow` | src-tauri/src/stats_store.rs:593-780 | all of the above for one selection and window, exact conditions and field sums included |
| `StatsPeaks.ComputePeak` | src-tauri/src/stats_store.rs:960-971 | the running maximum is attained and bounds every hourly speed |
| `StatsPeaks.SpeedIs` | src-tauri/src/stats_store.rs:927-945 | a speed is tokens over the recorded seconds, over a millisecond per request when none are recorded, over a second without requests |
| `StatsPeaks.UnmixedSpeedBounded` | src-tauri/src/stats_store.rs:927-971 | with all durations recorded, or none, the overall speed is at most the peak |
| `StatsPeaks.MixedSpeedExceedsPeak` | src-tauri/src/stats_store.rs:927-971 | every mixed pattern of hours has token counts whose overall speed exceeds the peak |
| `StatsPeaks.PeakBoundsOverallIffUnmixed` | src-tauri/src/stats_store.rs:927-971 | so the peak bounds the overall speed for all token counts exactly for unmixed patterns |
| `StatsSummary.WindowRateWithinPeak` | src-tauri/src/stats_store.rs:229-233 | the reported overall rates of an unmixed window stay within its reported peaks |

## Left out

- Transformers and stream finalizers are arbitrary stateful functions; what they produce is not modelled.
- The streaming task's logging, debug counters and captured bodies, which nothing delivered depends on.
- HTTP, timeouts, headers and the non-streaming request path.
- Lossy UTF-8 decoding before token counting: a chunking that cuts a character is outside `ConsumeAll`.
- Weak memory orderings: acquire and release operations are taken as sequentially consistent, and a lock
  that is poisoned by a panic is not modelled.
- Building an index happens in one step of `RouteProtocol`, since the config read lock keeps saves out.
- Rewriting `active_provider_id` and `routing_table` when a provider id is remapped: the code does not do it.
- The JSON codec is any pair for which reading undoes writing on the rows written; the relational columns
  beside the JSON and the schema migrations are not modelled.
- Start-up without a config file, and what migration makes of an older one: `Initialize` is given the
  migrated content.
- The labels kept beside the counts of a rule.
- NormalizeThenValidate: outside settled and canonical configs trimmed ids never fail and a linked untrimmed
  global provider never passes; what lies between depends on how comparisons answer along the way, not on
  the config alone. The same holds of `KeptFromInput` and models.
- Settings checked by `validate_config` before its provider loop (version, host, port, theme, branch).
- Floating point: numbers are reals, so rounding, infinities and the finiteness check are not modelled.
- Reading a number from a JSON value (`value_to_f64`) is a parameter of `EvaluateAgainst`; mapping kinds and
  quota status are not modelled.
- Error messages, where the code distinguishes them only in text; the evaluator and path walker report failure.
- Argon2 hashing, salts and the password file; a stored hash is taken as already trimmed.
- 64-bit wrap-around of counters and revisions.
- Currencies, comparison windows, ranked breakdowns and price snapshots of the statistics.
- The Tauri shell, remote sync, backups, the log store, integrations and the user interface.
