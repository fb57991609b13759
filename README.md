# Plugin request collector

A Dafny model of `PluginRequestCollector`, the delegate behind the `plugins {}` block of a Gradle build script, with proofs about it.

A script declares plugins with calls such as `id("a")`, `id("b").version("2.0")` and `id("c").apply(false)`. Each `id(...)` call creates a mutable request builder and appends it to the collector's insertion-ordered list. It hands the script a handle, which is either the builder itself or a decorator that forbids `apply(false)` (restricted mode, `FORBIDDEN`).

- `version` and `apply` validate as soon as they are called.
- An empty id and an empty version are rejected.
- `apply` defaults to true.

Finalisation turns the builders, in declaration order, into immutable plugin requests. It rejects the whole collection when some plugin id is declared twice. The error carries the line of the earlier declaration and is located at the later one.

The model has six modules:

- `Wrappers`: `Option` (Java's `null`) and `Result` (the thrown exceptions).
- `PluginRequests`: the values. These are a request, a builder's state, the errors, and the rule each builder call follows.
- `Finalisation`: the pure finalisation, `getPluginRequests` and `listPluginRequests`, with the duplicate check and its lemmas.
- `RequestCollector`: the mutable side.
  - `Builder` is a class with `const` id and line and `var` version and apply.
  - `RestrictedBuilder` is the decorator.
  - `SpecHandle` is what `id` returns.
  - `DependenciesSpec` is the entry point made by `createSpec`.
  - `Collector` owns a `seq<Builder>`. The builder every handle acts on (`SpecHandle.Target()`) is the very object stored in that list.
- `Chains`: a declaration's fluent chain of calls as a pure function, with the restricted-mode lemmas.
- `Scripts`: the script side. `RunChain` and `Declare` are proved to follow the chain semantics, and four blocks are written out as examples: two plugins, a duplicate, invalid input, and a restricted block.

Design choices:

- A Java exception becomes a `Result.Failure`, and a failing call changes nothing.
- `null` strings are treated as the empty string. The code tests both with `Strings.isNullOrEmpty`, so they take the same branch.
- The builder's unset version is `None`.
- The grouping map's key order comes from code that is not part of this model. The model visits keys in the order of their first declaration. When several ids are duplicated, the one reported is the duplicated id that was declared first.

## Model

| member | source | states |
|---|---|---|
| `RequestCollector.Collector.constructor` | subprojects/core/src/main/java/org/gradle/plugin/use/internal/PluginRequestCollector.java:62-67 | a new collector keeps its script source and apply-false policy and starts with no builders |
| `RequestCollector.Collector.CreateSpec` | subprojects/core/src/main/java/org/gradle/plugin/use/internal/PluginRequestCollector.java:69-71 | returns a fresh entry point bound to this collector and to the block's line number |
| `RequestCollector.DependenciesSpec.Id` | subprojects/core/src/main/java/org/gradle/plugin/use/internal/PluginRequestCollector.java:119-121 | the one-argument `id` behaves like `IdAt` with the block's own line number as the request line |
| `RequestCollector.DependenciesSpec.IdAt` | subprojects/core/src/main/java/org/gradle/plugin/use/internal/PluginRequestCollector.java:123-134 | an empty id fails with the invalid-id error and leaves the builder list unchanged; otherwise exactly one fresh builder (given id, no version, apply true, given line) is appended after the untouched earlier ones, and the handle returned wraps it in the decorator exactly when the collector forbids apply(false); builders stay valid |
| `RequestCollector.DependenciesSpec.constructor` | subprojects/core/src/main/java/org/gradle/plugin/use/internal/PluginRequestCollector.java:114-116 | a new entry point is bound to its collector and keeps the block's line number |
| `PluginRequests.NewBuilder` | subprojects/core/src/main/java/org/gradle/plugin/use/internal/PluginRequestCollector.java:169-176 | construction fails exactly when the id is empty, with the invalid-id error and reason "cannot be null or empty"; otherwise the state is valid, has that id and line, no version and apply true |
| `RequestCollector.Builder.constructor` | subprojects/core/src/main/java/org/gradle/plugin/use/internal/PluginRequestCollector.java:173-175 | only reachable with a non-empty id; the new builder has that id and line, no version, apply true, and is valid |
| `RequestCollector.Builder.Create` | subprojects/core/src/main/java/org/gradle/plugin/use/internal/PluginRequestCollector.java:169-176 | an empty id fails with the invalid-id error and reason "cannot be null or empty"; otherwise a fresh valid builder with that id and line, no version, apply true |
| `PluginRequests.WithVersion` | subprojects/core/src/main/java/org/gradle/plugin/use/internal/PluginRequestCollector.java:179-184 | `version(v)` fails exactly when v is empty, with the invalid-version error; otherwise the version becomes v, id, apply and line are kept, and a valid state stays valid |
| `RequestCollector.Builder.Version` | subprojects/core/src/main/java/org/gradle/plugin/use/internal/PluginRequestCollector.java:179-185 | an empty version fails with the invalid-version error and changes nothing; otherwise the version is overwritten (last write wins), id, apply and line are unchanged, and the same builder is returned |
| `PluginRequests.WithApply` | subprojects/core/src/main/java/org/gradle/plugin/use/internal/PluginRequestCollector.java:188-190 | `apply(flag)` fails exactly when the handle is restricted and the flag is false, with the apply-false error (the decorator's check at lines 154-157); otherwise the flag is stored, id, version and line are kept, and a valid state stays valid |
| `RequestCollector.Builder.Apply` | subprojects/core/src/main/java/org/gradle/plugin/use/internal/PluginRequestCollector.java:188-191 | never fails; sets the apply flag to the argument, changes nothing else, returns the same builder |
| `RequestCollector.RestrictedBuilder.constructor` | subprojects/core/src/main/java/org/gradle/plugin/use/internal/PluginRequestCollector.java:144-146 | a new decorator wraps exactly the builder it is given |
| `RequestCollector.RestrictedBuilder.Version` | subprojects/core/src/main/java/org/gradle/plugin/use/internal/PluginRequestCollector.java:149-151 | acts on the wrapped builder exactly as the unrestricted `version` does, and on success returns a fresh decorator around the same builder |
| `RequestCollector.RestrictedBuilder.Apply` | subprojects/core/src/main/java/org/gradle/plugin/use/internal/PluginRequestCollector.java:154-160 | apply(false) fails with the apply-false error and leaves the builder unchanged; apply(true) sets the flag on the wrapped builder and returns a fresh decorator around it |
| `RequestCollector.SpecHandle.Version` | subprojects/core/src/main/java/org/gradle/plugin/use/internal/PluginRequestCollector.java:149-184 | a `version` call through either kind of handle: fails and changes nothing on an empty version, otherwise overwrites the version of the same builder and hands back a handle of the same kind to it |
| `RequestCollector.SpecHandle.Apply` | subprojects/core/src/main/java/org/gradle/plugin/use/internal/PluginRequestCollector.java:154-190 | an `apply` call through either kind of handle: only a restricted handle given false fails, changing nothing; otherwise the flag of the same builder is set and a handle of the same kind comes back |
| `RequestCollector.Collector.GetPluginRequests` | subprojects/core/src/main/java/org/gradle/plugin/use/internal/PluginRequestCollector.java:73-78 | changes nothing; with no builders it returns the empty result (so on every call), otherwise exactly what finalisation of the current builder states gives |
| `RequestCollector.Collector.ListPluginRequests` | subprojects/core/src/main/java/org/gradle/plugin/use/internal/PluginRequestCollector.java:81-109 | changes nothing and returns the finalisation of the current builder states in declaration order, with the collector's script source |
| `PluginRequests.ToRequest` | subprojects/core/src/main/java/org/gradle/plugin/use/internal/PluginRequestCollector.java:85 | the request carries the builder state's id, version, apply flag and line unchanged (the state can be read back from it) and the script source |
| `Finalisation.Requests` | subprojects/core/src/main/java/org/gradle/plugin/use/internal/PluginRequestCollector.java:82-87 | one request per builder, in list order, each copying that builder's id, version, apply and line and carrying the script source |
| `Finalisation.Group` | subprojects/core/src/main/java/org/gradle/plugin/use/internal/PluginRequestCollector.java:89-94 | the group for an id holds only requests with that id and is no longer than the request list |
| `Finalisation.FirstDuplicate` | subprojects/core/src/main/java/org/gradle/plugin/use/internal/PluginRequestCollector.java:96-107 | the scan can only raise the duplicate-request error (what that error holds is stated by `ScanReport`) |
| `Finalisation.ListPluginRequests` | subprojects/core/src/main/java/org/gradle/plugin/use/internal/PluginRequestCollector.java:81-109 | on success, exactly one request per builder in list order, copying id, version, apply and line and carrying the script source; the only failure is a duplicate |
| `Finalisation.GetPluginRequests` | subprojects/core/src/main/java/org/gradle/plugin/use/internal/PluginRequestCollector.java:73-78 | no builders give the empty success; the empty shortcut agrees with the full finalisation on every input |
| `Finalisation.GroupFirstTwo` | subprojects/core/src/main/java/org/gradle/plugin/use/internal/PluginRequestCollector.java:100-102 | the first two members of an id's group are its earliest declaration and the next one, in declaration order |
| `Finalisation.ScanReport` | subprojects/core/src/main/java/org/gradle/plugin/use/internal/PluginRequestCollector.java:97-105 | a report from the scan names a key that has a later declaration, carries its first line and the next declaration, and no earlier key has a group larger than one |
| `Finalisation.ListSucceedsIffDistinct` | subprojects/core/src/main/java/org/gradle/plugin/use/internal/PluginRequestCollector.java:89-108 | finalisation succeeds if and only if no plugin id is declared twice |
| `Finalisation.ListReportsDuplicate` | subprojects/core/src/main/java/org/gradle/plugin/use/internal/PluginRequestCollector.java:97-105 | a failed finalisation reports a duplicated id i, the line of its earliest declaration, and the request of its second declaration (the error location); no declaration before i has a later duplicate |
| `Chains.ChainStopsAtFirstRejected` | subprojects/core/src/main/java/org/gradle/plugin/use/internal/PluginRequestCollector.java:149-191 | a chain of version/apply calls throws exactly at its first rejected call, with that call's error, leaving the state the earlier calls produced |
| `Chains.ChainFailsIff` | subprojects/core/src/main/java/org/gradle/plugin/use/internal/PluginRequestCollector.java:149-191 | a chain fails if and only if it contains an empty version, or apply(false) under a restricted handle |
| `Chains.ChainFinalState` | subprojects/core/src/main/java/org/gradle/plugin/use/internal/PluginRequestCollector.java:179-191 | a chain that does not throw leaves the last version and the last apply flag it named, or the initial ones, with id and line unchanged |
| `Chains.ChainKeepsIdentity` | subprojects/core/src/main/java/org/gradle/plugin/use/internal/PluginRequestCollector.java:163-191 | whatever a chain does, the builder's id and line never change and its id and version never become empty |
| `Chains.ForbiddenRejectsApplyFalse` | subprojects/core/src/main/java/org/gradle/plugin/use/internal/PluginRequestCollector.java:154-157 | under a restricted handle, apply(false) after any chain of calls fails and leaves the state the chain produced |
| `Chains.ForbiddenAgreesWithAllowed` | subprojects/core/src/main/java/org/gradle/plugin/use/internal/PluginRequestCollector.java:148-160 | without apply(false), a restricted handle gives the same state and the same error as an unrestricted one |
| `Chains.ForbiddenKeepsApply` | subprojects/core/src/main/java/org/gradle/plugin/use/internal/PluginRequestCollector.java:154-160 | under a restricted handle, a builder that starts applied stays applied |
| `Scripts.RunChain` | subprojects/core/src/main/java/org/gradle/plugin/use/internal/PluginRequestCollector.java:148-191 | a fluent chain on one handle changes its builder exactly as the pure chain semantics says, fails with the chain's error, or hands back a handle of the same kind to the same builder |
| `Scripts.Declare` | subprojects/core/src/main/java/org/gradle/plugin/use/internal/PluginRequestCollector.java:119-191 | `id(name)` followed by a chain: an empty name fails and registers nothing; otherwise one builder is appended holding the chain's final state, and it stays registered when a later call in the chain throws; when no call throws, the handle returned acts on that newly appended builder and has the collector's apply-false mode; in a block that forbids apply(false), builders that were all applied stay all applied |

## Left out

- Script source: the descriptor is an opaque value copied into each request. Its display name, and the rendering of exception messages, are not modelled.
- Duplicate error: `InvalidPluginRequestException` wrapped in `LocationAwareException` becomes `DuplicateRequest(id, firstLineNumber, request)`. The location is the script source and line of `request`.
- `IllegalPluginApplyFalseException` has no modelled message. Its text comes from a class that is not part of this model.
- `DefaultPluginId.of` is not part of this model. A plugin id is the string itself, compared by string equality.
- `DefaultPluginRequests` and the shared `EMPTY` instance are a plain sequence of requests. Object identity of the empty result is not modelled.
- `CollectionUtils.groupBy` is not part of this model, so its key order is unknown. The model fixes scanning in order of first declaration. With several duplicated ids, the source may report a different one than the model.
- Java `null` is the empty string for `id` and `version` arguments, which the code treats alike.
- `RestrictedBuilder.decorated` has the concrete builder type, not the `PluginDependencySpec` interface, because the builder is the only thing this code ever wraps.
- The interface `PluginDependencySpec` is the datatype `SpecHandle`, dispatched by a match instead of virtual calls.
- `PluginUseScriptBlockMetadataCompiler` and the Groovy machinery that invokes the delegate are not modelled. `Scripts.Declare` stands in for a script's calls.
- Encapsulation: the Java fields are private, but here `Collector.specs` is a public field and a restricted handle's builder is reachable through `SpecHandle.Target()`. A client of the model can therefore call `Apply(false)` on that builder directly, bypassing the decorator. A builder's `version` and `apply` fields can also be assigned directly, for instance to an empty version, which breaks `Collector.Valid()`; after that, `DependenciesSpec.IdAt` can no longer be called on that collector, since it requires `Collector.Valid()`. The restricted-mode invariant that every builder stays applied is proved for declarations made through `Scripts.Declare`, not for arbitrary clients.
- Concurrency: none. The code is single-threaded and unsynchronised.
- Finalisation does not seal the collector. As in the code, it re-derives its result from the builders' current state on every call.
