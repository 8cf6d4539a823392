# config-lib, modelled in Dafny

This project models the in-memory core of `config-lib`. That is the configuration
library of a microservice framework. A service is described by its handlers (called
controllers in the older code), the proxies in front of it, the extensions it uses and
the pipelines that route requests through chains of proxies to a handler or to the
service as a whole. The model covers:

- **Pipelines** (`PipeEnds`, `Pipelines`): pipe ends, pipelines, selecting the pipelines
  that end at a handler, and finding the one that ends at the service.
- **Preparing and linting pipelines** (`Prepare`, `ChainLint`): validating a new pipeline,
  generating a proxy's source and destination handlers, copying ports from the handlers
  a proxy forwards to onto its destination handlers, and walking whole proxy chains
  through the orchestra's configuration store, writing back every proxy that changed.
- **Service configurations**: the older generation keyed by URL (`LegacyConfig`) and the
  current one keyed by id (`ServiceConfig`), including the sources a service accepts
  requests from.
- **Converter** (`Converter`): presenting a proxy or extension service as the entry its
  users list.
- **Applications**: the engine's registry that replaces by id (`EngineApp`) and the older
  one that only appends (`LegacyApp`).
- **Names and endpoints** (`Internal`, `Server`): file names from URLs, manager and
  context names, the internal handler, and a server's bind URL, extensions, routes and
  replies.
- **Destination rules** (`Rules`): rules, proxies and proxy chains, and their validity.
  These implementations are not part of this model's source files. Their behaviour is
  taken from the assertions of `service/proxy_test.go` and `service/service_test.go`.

Modelling choices:

- Objects that the Go code updates in place are classes with `seq`/`map` fields and
  `modifies` clauses: both `Service` classes, the two `App` classes, `Rule`,
  `ProxyChain`, the server `Controller`, the configuration store (`Collaborators.Orchestra`)
  and the free-port finder (`Collaborators.FreePorts`).
- Configurations handed out by the store are values (`LegacyConfig.Config`). Each lint
  operation returns the edited copy.
- Go's nil results are `Option.None`, a nil object is `null`, and Go errors are `Err`
  or `Some(error)`.
- Lengths of strings count characters. Ports are unbounded naturals.
- A pipeline's head queries are taken to be plain sequence operations:
  - `HasLength` means a non-empty head;
  - `Beginning` is the first element, `HeadLast` the last, `HeadFront` all but the last;
  - `IsMultiHead` means more than one proxy.
  - on an empty head, `Beginning` and `HeadLast` are the empty string and `HeadFront` is empty.

  The head validation is a function parameter.
- The older code's `IsController` and `FindControllerEnds` are the same operations as
  `IsHandler` and `FindHandlerEnds`.
- `Patterns.IsEmptyCommands` is false when the rule has no categories or no excluded
  commands. That is what the tests imply.
- A pipe end is a handler end exactly when its id is non-empty (`PipeEnds.IsHandler`).
- `HasProxy` in both service generations holds exactly when the proxy list is non-empty.
- The shape predicates of a rule are false on a nil rule (`Rules.IsService`,
  `Rules.IsHandler`, `Rules.IsRoute`). So are `Rules.IsValidRule`, `Rules.IsEqualRule`
  (even for two nil rules), `Rules.ProxyIsValid` and `Rules.IsValidChain`.
- Each lint step is specified by a function of the store before it. These are
  `Prepare.DestinationLint` and `StoreStep`, `FrontWalk`, `LastOutcome`, `LastProxies`,
  `ControllersWalk` and `ControllerStep` in `ChainLint`. Every lint method's contract
  says its store, error and port requests are exactly that function's result. Lemmas
  then prove what those functions promise: which URLs a walk can write, and that a walk
  ending without error leaves every chain forwarding link by link.
- A list argument to a rule constructor keeps its first occurrences in order
  (`Rules.Values`), and `NewDestination` takes two or three arguments
  (`Rules.ParseDestination`). The tests do not decide either point; both follow the
  library's documented design, which compacts duplicates in every list field and
  describes `NewDestination` as taking two or three arguments.
- `Rules.IsProxiesValid` holds for a non-empty list of valid proxies with pairwise
  different ids.

## Model

| member | source | states |
|---|---|---|
| PipeEnds.NewHandlerEnd | service/pipeline/pipe_end.go:9-14 | the end has the given id and an empty URL; it is a handler end iff the id is non-empty |
| PipeEnds.NewThisServicePipeEnd | service/pipeline/pipe_end.go:16-18 | the end for the whole service is never a handler end, and is the handler end with no name |
| PipeEnds.MakePipeline | service/pipeline/pipe_end.go:24-29 | the pipeline has the receiver as its end and the head unchanged |
| PipeEnds.HeadSplits | service/pipeline/prepare.go:349-362 | a non-empty head is its front followed by its last proxy, and its beginning is its first proxy |
| Pipelines.HandlerEnds | service/pipeline/pipelines.go:3-15 | the kept pipelines are exactly those of the input that end at a handler, and there are no more of them than inputs |
| Pipelines.FindHandlerEnds | service/pipeline/pipelines.go:3-15 | collecting by index into a buffer as long as the input gives exactly the handler-ended pipelines, in order |
| Pipelines.FindHandlerEndsAsWritten | service/pipeline/pipelines.go:4-9 | as written, the zero-length buffer makes the function succeed only when no pipeline ends at a handler, returning the empty slice |
| Pipelines.FindHandlerEndsAsWrittenPanics | service/pipeline/pipelines.go:4-9 | a single handler-ended pipeline makes the code as written panic, where the intended result is that pipeline |
| Pipelines.ServiceEndIndex | service/pipeline/pipelines.go:17-25 | the first index whose pipeline does not end at a handler, every earlier pipeline ending at a handler |
| Pipelines.FindServiceEnd | service/pipeline/pipelines.go:17-25 | nil iff every pipeline ends at a handler, which includes the empty list; otherwise the first pipeline ending at the service |
| Pipelines.HandlerEndsKeepsAll | service/pipeline/pipelines.go:3-15 | the handler filter keeps every pipeline iff every pipeline ends at a handler |
| Pipelines.ServiceEndIffHandlerEndsDrop | service/pipeline/pipelines.go:3-25 | a service-ended pipeline is found iff the handler filter drops some pipeline |
| Entities.ByCategory | service/service.go:158-173 | the handlers kept are exactly those of the category, never more than the input |
| Entities.ByCategoryAppend | service/service.go:230-232 | filtering a concatenation is concatenating the filters, so appending a handler only extends its category's list |
| Entities.CategoryIndex | service/service.go:146-154 | the first index holding a handler of the category, every earlier one of another category |
| Entities.CategoryIndexIsFilterHead | service/service.go:146-173 | the first-match search finds a handler iff the category filter is non-empty, and it finds the filter's first element |
| Entities.FirstOfCategory | service/service.go:146-154 | an error naming the category iff there is no handler of it; otherwise the first handler of the category |
| Entities.WriteIntoEmptySlice | service/service.go:159-165 | writing into a slice made with length 0 panics at the first write; with no write the empty slice comes back |
| Entities.AllOfCategory | service/service.go:158-173 | an error iff no handler has the category; otherwise every handler of the category, in order |
| Entities.AllOfCategoryAsWritten | service.go:191-206 | as written, a matching handler makes the lookup panic, and without one it reports that nothing was found, so it never succeeds |
| Entities.AllOfCategoryAsWrittenPanics | service.go:191-206 | one handler of the category makes the code as written panic, where the intended result is that handler |
| Entities.ValidateServicePath | service.go:284-294 | a path is accepted iff it and its base name have at least 5 characters and it ends in ".yml"; too short is reported before the suffix |
| Entities.AcceptedPathHasStem | service/service.go:251-261 | an accepted path is a non-empty name followed by ".yml" |
| LegacyConfig.ProxyIndex | service.go:232-240 | the first index holding a proxy with the URL, every earlier one with another URL |
| LegacyConfig.ProxyByUrl | service.go:232-240 | nil iff no proxy has the URL; otherwise a proxy of the list with that URL |
| LegacyConfig.UpsertProxyThenLookup | service.go:243-250 | after setting a proxy, looking up its URL finds exactly it |
| LegacyConfig.UpsertProxyKeepsOthers | service.go:243-250 | setting a proxy leaves every other URL's lookup as it was; the list grows by one only for a new URL |
| LegacyConfig.ExtensionIndex | service.go:221-229 | the first index holding an extension with the URL, every earlier one with another URL |
| LegacyConfig.ExtensionByUrl | service.go:221-229 | nil iff no extension has the URL; otherwise an extension of the list with that URL |
| LegacyConfig.UpsertExtensionThenLookup | service.go:253-260 | after setting an extension its URL finds exactly it, and no other URL's lookup changes |
| LegacyConfig.Service.Empty | service.go:33-43 | the service has the given type, id and URL and no controllers, proxies or extensions |
| LegacyConfig.Service.GetController | service.go:179-187 | an error iff no controller has the category; otherwise the first controller of it |
| LegacyConfig.Service.GetControllers | service.go:191-206 | the intended lookup: every controller of the category in order, or an error when there is none |
| LegacyConfig.Service.GetFirstController | service.go:210-217 | an error iff there are no controllers; otherwise controller 0 |
| LegacyConfig.Service.GetExtension | service.go:221-229 | the first extension with the URL, nil when there is none |
| LegacyConfig.Service.GetProxy | service.go:232-240 | the first proxy with the URL, nil when there is none |
| LegacyConfig.Service.SetProxy | service.go:243-250 | a proxy with a new URL is appended, otherwise it overwrites the first proxy with that URL in place; its URL then finds it and nothing else changes |
| LegacyConfig.Service.SetExtension | service.go:253-260 | an extension with a new URL is appended, otherwise it overwrites the first one with that URL in place; its URL then finds it and nothing else changes |
| LegacyConfig.Service.SetController | service.go:263-265 | the controller is appended even when its category exists, so its category's list gains it at the end |
| Collaborators.Orchestra.constructor | service/pipeline/prepare.go:217-222 | the store starts with the given configurations and read-only URLs |
| Collaborators.Orchestra.GetConfig | service/pipeline/prepare.go:219-222 | reading succeeds iff the URL is stored, and returns the stored configuration |
| Collaborators.Orchestra.SetConfig | service/pipeline/prepare.go:261-265 | writing fails iff the URL is read-only, reporting it as rejected; a successful write stores the configuration under the URL, a failed one changes nothing |
| Collaborators.FreePorts.constructor | service/pipeline/prepare.go:63-63 | the finder starts with no request answered |
| Collaborators.FreePorts.GetFreePort | service/pipeline/prepare.go:63-63 | the n-th request is answered with the finder's n-th port |
| Converter.FindPipelineBeginning | service/converter/converter.go:52-76 | no pipelines is an error; only the first pipeline is examined; success iff its head is non-empty and its first proxy is among the service's proxies, which is returned |
| Converter.BeginningIgnoresLaterPipelines | service/converter/converter.go:53-73 | pipelines after the first never change the beginning found |
| Converter.ServiceToProxy | service/converter/converter.go:14-48 | errors unless the service is a proxy with a source handler that has instances, and with proxies of its own a beginning proxy with instances; otherwise the service's URL with one client "source instance 01", on the port of the first source instance, or of the beginning proxy's first instance when the service has proxies |
| Converter.ServiceToExtension | service/converter/converter.go:80-110 | errors unless the service is an extension with a first handler that has instances, and with proxies a beginning proxy with instances; otherwise the service's URL, the id after the handler's category, and the port chosen as for a proxy |
| Converter.ConvertedProxyIsFound | service/pipeline/prepare.go:267-272 | a converted proxy, set on a service, is what that service finds under the proxy service's URL |
| Prepare.FirstUnlisted | service/pipeline/prepare.go:36-40 | the first head URL not among the required proxies, every earlier one among them |
| Prepare.PrepareAddingPipeline | service/pipeline/prepare.go:28-53 | accepted iff the head is non-empty and valid, every head URL is a required proxy, a handler end names an existing handler, and a service end is added when no service pipeline exists; each rejection names its cause |
| Prepare.HandlerEndsOfAllHandlers | service/pipeline/prepare.go:47-49 | the handler filter keeps as many pipelines as there are iff it keeps the list unchanged |
| Prepare.AcceptedKeepsOneServicePipeline | service/pipeline/prepare.go:19-53 | adding only accepted pipelines keeps at most one pipeline ending at the service, and adding a service end makes it exactly one |
| Prepare.NewSourceInstances | service/pipeline/prepare.go:55-68 | one source instance per instance, in order, with the id suffixed "-source" and the next free port each, asking the finder once per instance |
| Prepare.NewDestinationInstances | service/pipeline/prepare.go:70-83 | one destination instance per instance, in order, with the id suffixed "-destination" and the instance's own port |
| Prepare.NewInstancesAsWritten | service/pipeline/prepare.go:55-83 | as written, the zero-length buffer lets the function succeed only for a handler without instances |
| Prepare.NewInstancesAsWrittenPanics | service/pipeline/prepare.go:55-83 | one instance makes the code as written panic, where one instance is expected back |
| Prepare.NewProxyControllers | service/pipeline/prepare.go:87-102 | a source handler and then a destination handler, both with the handler's type, built from its instances |
| Prepare.FillProxyControllers | service/pipeline/prepare.go:110-120 | the buffer, filled pair by pair, holds the source and destination handler of each handler in order, with ports taken in order from the finder |
| Prepare.RewriteControllers | service/pipeline/prepare.go:105-123 | no handlers is an error that changes nothing; otherwise the proxy's handlers become a source and a destination handler for each handler, in order |
| Prepare.RewrittenAt | service/pipeline/prepare.go:105-123 | the rewritten list is twice as long; entry 2k is the source and entry 2k+1 the destination made from handler k, with handler k's type |
| Prepare.RewrittenLength | service/pipeline/prepare.go:110-110 | the rewritten list has two handlers per handler |
| Prepare.DestinationHandlersInSync | service/pipeline/prepare.go:70-83 | destinations made from handlers have their kinds, instance counts and ports |
| Prepare.RewrittenDestinations | service/pipeline/prepare.go:105-123 | the destination handlers of a rewritten list are those made from the handlers, in order |
| Prepare.ProxyControllersDestination | service/pipeline/prepare.go:87-102 | of the two handlers made for one handler, only the second is a destination |
| Prepare.FirstMismatch | service/pipeline/prepare.go:132-150 | the first handler whose destination is missing or differs in instance count or type, every earlier one compatible |
| Prepare.SyncInstancePorts | service/pipeline/prepare.go:140-145 | every instance port of the destination becomes the handler's port at the same position, nothing else changes; changed iff some port differed |
| Prepare.LintControllers | service/pipeline/prepare.go:127-153 | the destinations after linting and the error are those of the specification; updated iff linting succeeds and some port differed before; on success every destination carries its handler's ports |
| Prepare.LintWithoutChangeIsIdentity | service/pipeline/prepare.go:140-145 | linting that succeeds with no port differing leaves the destinations as they were |
| Prepare.LintedPortsSynced | service/pipeline/prepare.go:127-153 | linting that succeeds leaves each destination with its handler's kind, instance count and ports |
| Prepare.LintKeepsShape | service/pipeline/prepare.go:140-145 | linting changes only ports: types, categories, ids, instance counts and instance ids stay |
| Prepare.ReplaceCategory | service/pipeline/prepare.go:188-211 | writing the linted handlers of a category back keeps the list's length |
| Prepare.ReplaceWithOwn | service/pipeline/prepare.go:188-211 | writing back the handlers that were there changes nothing |
| Prepare.ReplaceThenFilter | service/pipeline/prepare.go:188-211 | after writing back handlers of a category, that category's filter yields exactly them |
| Prepare.ReplaceKeepsOtherCategories | service/pipeline/prepare.go:188-211 | writing back one category leaves every other category's filter unchanged |
| Prepare.LintDestinationsToControllers | service/pipeline/prepare.go:188-211 | the linted proxy, flag, error and port requests are exactly those of the destination lint. No destinations is an error. A different count rewrites the handlers and reports updated; with no handlers this is an error instead. An equal count gives the port lint's result, updated iff some port differed. An error never reports updated. Only handlers change. On success the destinations are in sync with the handlers, and an unchanged success returns the proxy as it was |
| Prepare.LintProxyToService | service/pipeline/prepare.go:159-168 | the outcome is exactly the destination lint against the service's handlers, unless the proxy is not a proxy or the destination is one, which are errors that change nothing; on success the proxy has one destination per service handler, in sync with it |
| Prepare.LintProxyToProxy | service/pipeline/prepare.go:172-186 | the outcome is exactly the destination lint against the second proxy's source handlers, unless either is not a proxy or the second has no source handlers, which are errors that change nothing; on success the first proxy's destinations are in sync with the second's sources |
| Prepare.LintedDestinationsStored | service/pipeline/prepare.go:199-210 | a configuration with its destinations replaced by their linted copies has them in sync, and is unchanged when no port differed |
| Prepare.DestinationLintSynced | service/pipeline/prepare.go:188-211 | every destination lint changes only handlers, never reports updated with an error, never takes back a port request, leaves the destinations in sync on success, and returns the proxy as it was when it succeeds without change |
| ChainLint.ChainInSyncFrame | service/pipeline/prepare.go:350-387 | whether a chain is linted depends only on the configurations at its own URLs |
| ChainLint.StoreStepWrites | service/pipeline/prepare.go:364-380 | a failed step writes nothing; a successful one read a stored proxy, changed only its handlers, left its destinations in sync with what follows, and the store then holds the linted proxy |
| ChainLint.LinkLintSynced | service/pipeline/prepare.go:159-186 | linting one link, to a service or to a proxy, changes only handlers, never reports updated with an error, and on success leaves the destinations in sync with what follows |
| ChainLint.OnlyControllersChangedTrans | service/pipeline/prepare.go:350-387 | changing only handlers twice changes only handlers |
| ChainLint.FrontWalkFrame | service/pipeline/prepare.go:350-387 | walking the front from the back writes only handlers, and only at the walked proxies' URLs; port requests only grow |
| ChainLint.ChainInSyncSnoc | service/pipeline/prepare.go:362-384 | a linted chain extended at the back by a proxy its last element forwards to is linted |
| ChainLint.FrontWalkLinted | service/pipeline/prepare.go:350-387 | a walk over distinct proxies that ends without error leaves each forwarding to the next, up to the proxy it started from |
| ChainLint.ControllerStepWrites | service/pipeline/prepare.go:277-313 | linting straight to handlers writes only handlers of the last proxy, refuses a proxy without exactly two handlers and writes nothing then, and on success leaves its destinations carrying the handlers' ports |
| ChainLint.Fetch | service/pipeline/prepare.go:354-357 | reading succeeds iff the URL is stored, returns the stored configuration, and otherwise reports the missing URL |
| ChainLint.LintStored | service/pipeline/prepare.go:364-380 | the store, linted copy, flag, error and port requests are exactly those of one store step. The error is a missing proxy, a lint error, or a refused write. A write happens only for a changed proxy, and is refused for a read-only one. An error leaves the store as it was. On success the proxy changed only in its handlers, its destinations follow what comes next, and the store holds it |
| ChainLint.FrontLink | service/pipeline/prepare.go:363-384 | one turn of the backward walk: on error the whole walk ends in the state reached with that error, otherwise it continues from the linted proxy over the rest |
| ChainLint.LintFront | service/pipeline/prepare.go:350-387 | the store, error and port requests are exactly those of walking the front from the back. A missing last proxy is an error with nothing written. Then each front proxy is linted to the one after it and written when it changed. The first error ends the walk, and earlier writes stay. Only handlers of front proxies change. On success over distinct proxies, the head forwards link by link |
| ChainLint.LintLastToService | service/pipeline/prepare.go:314-348 | a head of one proxy changes nothing. Otherwise the store, error and port requests are those of the last step to the service. The service's proxies gain the converted proxy exactly when the last proxy was written without error and converts. A failed conversion is an error reported after the write. On success the last proxy's destinations follow the service's handlers |
| ChainLint.LintToService | service/pipeline/prepare.go:389-399 | the last step to the service, then the front walk, which is skipped when the last step failed; the service's proxies are those of the last step; only handlers of head proxies change; on success over distinct proxies the head forwards link by link |
| ChainLint.LintLastToProxy | service/pipeline/prepare.go:246-276 | the store, error and port requests are those of the last step to the service proxy; its copy lists the converted proxy exactly when the last proxy was written without error and converts; on success the last proxy's destinations follow that proxy's sources |
| ChainLint.LintLastToController | service/pipeline/prepare.go:277-313 | the store and error are exactly those of linting straight to the end handler's instances: a missing proxy, not exactly two handlers, no destinations, a lint error or a refused write is the error, and a write happens only when a port differed; on success its destinations carry the instances' ports |
| ChainLint.HeadUrls | service/pipeline/prepare.go:227-241 | the URLs linting may write include every head proxy and every last proxy |
| ChainLint.Elements | service/pipeline/prepare.go:227-241 | the set of a head's URLs holds exactly its elements |
| ChainLint.AllLinted | service/pipeline/prepare.go:227-241 | linted at every index means every pipeline of the list is linted |
| ChainLint.PipelineLintedFrame | service/pipeline/prepare.go:227-241 | a linted pipeline stays linted while its proxies' configurations stay |
| ChainLint.LastThenFrontLinted | service/pipeline/prepare.go:229-240 | after the last proxy and then the rest of the head are linted, the whole pipeline is linted |
| ChainLint.LastOutcomeWrites | service/pipeline/prepare.go:246-276 | linting the last proxy writes only that proxy's handlers |
| ChainLint.FrontOutcomeFrame | service/pipeline/prepare.go:350-387 | linting the front of a head writes only the handlers of its proxies |
| ChainLint.PipelineStepFrame | service/pipeline/prepare.go:227-241 | linting one handler pipeline writes only handlers of its head's proxies |
| ChainLint.PipelineStepLinted | service/pipeline/prepare.go:227-241 | linting one handler pipeline of distinct proxies without error leaves it linted to the service proxy's sources |
| ChainLint.ControllersWalkFrame | service/pipeline/prepare.go:217-244 | walking several pipelines writes only handlers, and only at URLs of their heads |
| ChainLint.RestKeepsLinted | service/pipeline/prepare.go:227-241 | linting the later ones of separate pipelines keeps the first one linted |
| ChainLint.ControllersWalkLinted | service/pipeline/prepare.go:217-244 | walking separate pipelines without error leaves every one of them linted to the service proxy's sources |
| ChainLint.LintHandlerPipeline | service/pipeline/prepare.go:227-241 | one handler pipeline: the last step to the service proxy, then the front walk, skipped when the last step failed; the copy's proxies are those of the last step; only handlers of its proxies change; on success the pipeline is linted |
| ChainLint.LintToControllers | service/pipeline/prepare.go:217-244 | the store, error and port requests are exactly those of walking the handler pipelines in order from the stored service proxy: each one's last step, then its front; the first error ends the walk, and each converted proxy joins the service proxy's copy for the pipelines after it. A missing service proxy is an error with nothing written. Only handlers of head proxies change. On success over separate pipelines, each is linted |
| ServiceConfig.ManagerId | service/service_test.go:80-84 | empty iff the id is empty; otherwise the id followed by "_manager" |
| ServiceConfig.ProxyIndex | service/service.go:199-207 | the first index holding a proxy with the id, every earlier one with another id |
| ServiceConfig.ProxyById | service/service.go:199-207 | nil iff no proxy has the id; otherwise a proxy of the list with that id |
| ServiceConfig.UpsertProxyEffect | service/service.go:210-217 | after setting a proxy its id finds it; a new id appends it; a known id keeps the length and every other entry |
| ServiceConfig.ExtensionIndex | service/service.go:188-196 | the first index holding an extension for the service URL, every earlier one for another URL |
| ServiceConfig.ExtensionWithUrl | service/service.go:188-196 | nil iff no extension reaches the URL; otherwise one of the list that does |
| ServiceConfig.UpsertExtensionEffect | service/service.go:220-227 | after setting an extension its URL finds it and no other lookup changes; the list grows by one only for a new URL |
| ServiceConfig.SourceIndex | service/service_test.go:305-318 | the first source whose rule has the same strings as the given rule, every earlier one different |
| ServiceConfig.SourceServiceIndex | service/service_test.go:305-318 | the first source service whose proxy has the id, every earlier one with another id |
| ServiceConfig.SourceServiceOf | service/service_test.go:305-318 | a found source service has the proxy id and belongs to one of the sources |
| ServiceConfig.SetSourceShape | service/service_test.go:305-342 | a new rule appends one source with one proxy; otherwise sources keep their number and the rule's source gains a proxy only for a new proxy id; nothing changes, and false is reported, iff an equal source service is there |
| ServiceConfig.SetSourceThenFind | service/service_test.go:305-342 | after registering, the rule and proxy id find exactly the registered source service, or an equal one when nothing changed |
| ServiceConfig.SetSourceIdempotent | service/service_test.go:311-312 | registering the same source service again changes nothing and reports false |
| ServiceConfig.Service.Empty | service/service.go:47-63 | the service has the given type, id, URL and manager and no handlers, proxies, extensions or sources |
| ServiceConfig.Service.Handler | service/service.go:146-154 | an error iff no handler has the category; otherwise the first handler of it |
| ServiceConfig.Service.HandlersByCategory | service/service.go:158-173 | the intended lookup: every handler of the category in order, or an error when there is none |
| ServiceConfig.Service.FirstHandler | service/service.go:177-184 | an error iff there are no handlers; otherwise handler 0 |
| ServiceConfig.Service.ExtensionByUrl | service/service.go:188-196 | the first extension reaching the URL, nil when there is none |
| ServiceConfig.Service.Proxy | service/service.go:199-207 | the first proxy with the id, nil when there is none |
| ServiceConfig.Service.SetProxy | service/service.go:210-217 | a proxy with a new id is appended, otherwise it overwrites the first proxy with that id in place; its id then finds it and nothing else changes |
| ServiceConfig.Service.SetExtension | service/service.go:220-227 | an extension for a new URL is appended, otherwise it overwrites the one for that URL in place; its URL then finds it and nothing else changes |
| ServiceConfig.Service.SetHandler | service/service.go:230-232 | the handler is appended even when its category exists, keeping the earlier order |
| ServiceConfig.Service.SetServiceSource | service/service_test.go:295-342 | a nil rule or source service changes nothing and reports false; otherwise the sources and the result are those of the source registration |
| ServiceConfig.SetHandlerOn | service/service_test.go:186-198 | on a nil service nothing happens; on a service the handler is appended and nothing else changes |
| EngineApp.IdIndex | engine/app/app.go:199-207 | the first index holding a service with the id, every earlier one with another id |
| EngineApp.ServiceWithId | engine/app/app.go:199-207 | nil iff no service has the id; otherwise a service of the list with that id |
| EngineApp.UrlIndex | engine/app/app.go:210-218 | the first index holding a service with the URL, every earlier one with another URL |
| EngineApp.UpsertEffect | engine/app/app.go:222-233 | after setting a service its id finds it; a new id appends it; a known id keeps the length and every other index |
| EngineApp.UpsertKeepsOtherIds | engine/app/app.go:222-233 | setting a service changes no lookup of another id |
| EngineApp.App.Service | engine/app/app.go:199-207 | the first service with the id, nil when there is none |
| EngineApp.App.ServiceByUrl | engine/app/app.go:210-218 | nil iff no service has the URL; otherwise a service of the list with that URL |
| EngineApp.App.SetService | engine/app/app.go:222-240 | the service replaces the first one with its id or is appended; its id then finds it; the write's outcome is returned |
| LegacyApp.IdIndex | app/app.go:170-178 | the first index holding a service with the id, every earlier one with another id |
| LegacyApp.ServiceWithId | app/app.go:170-178 | nil iff no service has the id; otherwise a service of the list with that id |
| LegacyApp.UrlIndex | app/app.go:181-189 | the first index holding a service with the URL, every earlier one with another URL |
| LegacyApp.AppendKeepsFirst | app/app.go:170-193 | appending a service keeps every lookup of a present id, so a second service under a known id is never found; a new id finds the new service |
| LegacyApp.App.Service | app/app.go:170-178 | the first service with the id, nil when there is none |
| LegacyApp.App.ServiceByUrl | app/app.go:181-189 | nil iff no service has the URL; otherwise a service of the list with that URL |
| LegacyApp.App.SetService | app/app.go:191-193 | the service is appended; its id finds the older service when there is one, else the new one |
| Internal.ReplaceAll | internal.go:21-23 | every occurrence of one character is replaced by another, the length and all other characters kept |
| Internal.UrlToFileName | internal.go:21-23 | every slash and backslash becomes a dot; the length and all other characters stay |
| Internal.FileNameIsFlat | internal.go:8-23 | a file name holds no slash or backslash, and converting it again changes nothing |
| Internal.FileNamesCanCollide | internal.go:21-23 | URLs differing in a slash and a dot share a file name |
| Internal.ManagerName | internal.go:25-28 | "manager." followed by the URL's file name |
| Internal.ContextName | internal.go:30-33 | "orchestra." followed by the URL's file name |
| Internal.ManagerAndContextNamesDiffer | internal.go:25-33 | no manager name equals any context name |
| Internal.FileNameOfConcat | internal.go:21-23 | the file name of two joined strings is the two file names joined |
| Internal.FlatIsOwnFileName | internal.go:21-23 | a string with no slash or backslash is its own file name |
| Internal.JoinedFileName | internal.go:21-23 | three separator-free parts joined by slashes become the same parts joined by dots |
| Internal.SampleContextName | internal.go:14-17 | the context of github.com/ahmetson/sample-service is orchestra.github.com.ahmetson.sample-service |
| Internal.InternalConfiguration | internal.go:35-47 | a synchronous replier of the category with one instance: the category, the id name + "_instance", port 0 |
| Internal.ClientUrlParameters | internal.go:50-52 | the server's name and port 0 |
| Internal.InternalHandlerIsInproc | internal.go:35-52 | the internal handler binds, and its clients reach, the in-process endpoint named after it |
| Server.NatToString | server/controller.go:150-150 | the decimal digits of a number, with no leading zero |
| Server.ParseNatToString | server/controller.go:150-150 | reading the decimal digits back gives the number |
| Server.Url | server/controller.go:146-152 | port 0 gives "inproc://" followed by the name; any other port gives "tcp://*:" followed by more characters |
| Server.UrlNamesPort | server/controller.go:146-152 | a TCP endpoint ignores the name, and its characters after the prefix are the port's decimal digits |
| Server.InprocIsNotTcp | server/controller.go:146-152 | an in-process endpoint never equals a TCP endpoint |
| Server.MissingIndex | server/controller.go:96-104 | the first required name without a configuration, every earlier one configured |
| Server.FirstMissing | server/controller.go:96-104 | nothing is missing iff every required name is configured; otherwise a missing required name |
| Server.RequireAndAddKeepsMet | server/controller.go:37-46 | requiring an extension and adding its configuration keeps the requirements met |
| Server.Socket.SendMessage | server/controller.go:67-69 | sending fails iff the socket fails; otherwise the message is added to those sent |
| Server.Controller.constructor | server/controller.go:17-27 | a server of the given kind starts with no required extensions, configurations or routes |
| Server.Controller.AddExtensionConfig | server/controller.go:37-39 | the configuration is stored under the extension's URL, replacing an earlier one, and nothing else changes |
| Server.Controller.RequireExtension | server/controller.go:44-46 | the name is appended to the required list, duplicates kept, and nothing else changes |
| Server.Controller.RequiredExtensions | server/controller.go:49-51 | the required list as it stands |
| Server.Controller.Reply | server/controller.go:61-72 | a server that does not reply succeeds without sending; a replier fails iff the send fails and otherwise sends the message |
| Server.Controller.AddRoute | server/controller.go:81-92 | never fails; the command is routed afterwards, and a command already routed leaves the routes as they were |
| Server.Controller.ExtensionsAdded | server/controller.go:96-104 | no error iff every required extension was added; otherwise a required one that was not |
| Rules.AddAbsent | service/proxy_test.go:288-310 | the result holds exactly the strings of both lists, starts with the first list and grows by at most the second's length |
| Rules.AddAbsentDistinct | service/proxy_test.go:305-309 | adding to a list without duplicates keeps it without duplicates |
| Rules.AddAbsentAllPresent | service/proxy_test.go:305-309 | adding strings that are all present changes nothing |
| Rules.AddAbsentIdempotent | service/proxy_test.go:305-309 | adding the same strings twice is adding them once |
| Rules.AddAbsentFresh | service/proxy_test.go:291-296 | new strings without repetition are appended as they are |
| Rules.Values | service/proxy_test.go:79-130 | a string becomes a one-element list; a list keeps exactly its strings, each once; any other value is refused |
| Rules.DistinctListKept | service/proxy_test.go:79-130 | a list argument without duplicates is taken as it is |
| Rules.AllValues | service/proxy_test.go:53-72 | every argument's strings, in order, iff no argument is refused |
| Rules.Slots | service/proxy_test.go:79-130 | arguments fill the fields from the right; fields without an argument are empty; None for too few, too many or a refused argument |
| Rules.ParseDestination | service/proxy_test.go:53-72 | refused iff fewer than 2 or more than 3 arguments, or one is neither a string nor a list; nothing excluded |
| Rules.ParseHandlerDestination | service/proxy_test.go:138-152 | refused iff fewer than 1 or more than 2 arguments, or a refused argument; no commands |
| Rules.ParseServiceDestination | service/proxy_test.go:194-222 | refused iff more than 1 argument or a refused one; URLs only |
| Rules.DestinationFillsFromRight | service/proxy_test.go:79-130 | the last argument gives the commands, the one before it the categories, an optional first the URLs |
| Rules.HandlerDestinationFillsFromRight | service/proxy_test.go:159-190 | the last argument gives the categories and an optional first the URLs |
| Rules.DestinationShapes | service/proxy_test.go:231-285 | with URLs, categories and commands a valid route; without URLs neither a route nor valid, yet not empty; never a service or handler rule |
| Rules.HandlerDestinationShapes | service/proxy_test.go:231-285 | with URLs and categories a valid handler rule; with categories only not a handler, not valid, not empty |
| Rules.ServiceDestinationShapes | service/proxy_test.go:194-285 | with no argument an empty, invalid rule; with URLs a valid service rule holding them |
| Rules.ServiceRulesEqualByUrl | service/proxy_test.go:209-221 | two one-URL service rules are equal exactly when their URLs are |
| Rules.ExclusionAndValidity | service/proxy_test.go:288-310 | excluding every command of a rule with categories makes it empty of commands and invalid; a route with a command not excluded is valid |
| Rules.Rule.constructor | service/proxy_test.go:49-131 | a rule's fields hold the given patterns |
| Rules.Build | service/proxy_test.go:53-72 | null exactly for refused arguments; otherwise a new rule holding the patterns |
| Rules.NewDestination | service/proxy_test.go:49-131 | null iff there are not two or three arguments or one is neither a string nor a list of strings; otherwise a new rule whose fields are filled from the right: commands from the last argument, categories from the one before, URLs from a first of three |
| Rules.NewHandlerDestination | service/proxy_test.go:134-191 | null iff the arguments are refused; otherwise a new handler rule filled from the right |
| Rules.NewServiceDestination | service/proxy_test.go:194-222 | null iff the arguments are refused; otherwise a new service rule |
| Rules.ExcludeCommands | service/proxy_test.go:288-310 | returns the rule; on a rule, the commands not yet excluded are added to the exclusions and no other field changes |
| Rules.SharedIdInvalidates | service/proxy_test.go:337-359 | two proxies sharing an id make a proxy list invalid |
| Rules.ProxyChain.constructor | service/proxy_test.go:362-372 | a chain starts with nil sources, no proxies and no destination |
| Rules.ChainValidity | service/proxy_test.go:362-404 | with valid sources and proxies, a destination built from URLs makes the chain valid and the argument-less service rule makes it invalid |

## Left out

- Reading and writing YAML files, viper, command-line flags and environment variables are not modelled. This covers `Read`, `UnmarshalService`, `CreateYaml`, `New`, `read`, `flagExist`, `envExist` and `setFilePath`. Configuration is only held in memory.
- `EngineApp.App.SetService`: the file write is a parameter standing for its outcome; a failed write leaves the list changed.
- `ServiceConfig.Service.Empty`: the manager client is a parameter. Building it is the handler package's work. The error path when building it fails is not modelled.
- The `ProxyOrder` field of the current service configuration is not modelled.
- Destination chains of the older proxy struct (`End`/`Command`) are not modelled. The tests use proxies with id, URL and category.
- Proxy chains stored in the service (`ProxyChains`) are not modelled, only the chain object's validity.
- `ServiceConfig.Service.SetHandler`: handlers, proxies and extensions are stored by value. A later change to the inserted object is not seen in the service, though Go stores the pointer and the tests rely on that.
- Sources hold the rule's patterns by value. A later change to the rule object is not seen in the stored sources. Go shares the pointer.
- `ServiceConfig.Service.SetServiceSource` on a nil service is not modelled; a method needs its receiver.
- `ServiceConfig.SetHandlerOn` follows the tests' no-op on a nil service. The method in service/service.go dereferences its receiver.
- `ValidateTypes`, `PrepareService` and `Lint` are not modelled. They depend on the handler package's validation.
- The socket work of a server is not modelled: message encoding, `replyError`, `initExtensionClients`, `Close`. A send is a `Socket` object whose failure is fixed when it is made.
- `Server.Controller.AddRoute`: the route table's internal failure when adding is not modelled. Routes are a set of commands, and adding always succeeds.
- `Server.Url`: ports are unbounded naturals. The 64-bit width of the Go port is not modelled.
- `Server.Controller.ExtensionsAdded`: the error names the first missing extension. Its message text is not modelled.
- `Prepare.PrepareAddingPipeline`: the head validation is a function parameter, and the handler check tests a set of handler categories. The key-value store's own lookup is not modelled.
- `ChainLint.LintToControllers` requires a pipeline that ends at the service. Without one the Go code dereferences nil before its own check. So its branch that lints straight to the handler (`lintLastToController`) is never taken. That branch is modelled on its own as `ChainLint.LintLastToController`. The service configuration parameter, used only by that branch, is dropped.
- Error messages are error constructors, not formatted strings.
- `filepath.Base` is a parameter of `Entities.ValidateServicePath`.
- Each Go pointer to a configuration that the linting code edits in place is a value that is returned. Aliasing between a copy and the store is not modelled. The store hands out copies.

## Findings

| source | as written | input that shows it | evidently intended | confidence | as-written member | corrected member |
|---|---|---|---|---|---|---|
| service/pipeline/pipelines.go:4-9 | the buffer is made with length 0 and capacity n, then written by index | one pipeline whose end names a handler: the first write is out of range and panics | a buffer of length n whose written prefix is returned | not executed | Pipelines.FindHandlerEndsAsWrittenPanics | Pipelines.FindHandlerEnds |
| service.go:192-198 | the controller buffer is made with length 0, then written by index | a service with one controller of the asked category: the write panics; with none, the length check reports "not found" | every controller of the category, in order | not executed | Entities.AllOfCategoryAsWrittenPanics | LegacyConfig.Service.GetControllers |
| service/service.go:159-165 | the handler buffer is made with length 0, then written by index | a service with one handler of the asked category: the write panics | every handler of the category, in order | not executed | Entities.AllOfCategoryAsWritten | ServiceConfig.Service.HandlersByCategory |
| service/pipeline/prepare.go:57-60 | the source-instance buffer is made with length 0, then written by index | a handler with one instance: the first write panics | one source instance per instance | not executed | Prepare.NewInstancesAsWrittenPanics | Prepare.NewSourceInstances |
| service/pipeline/prepare.go:72-75 | the destination-instance buffer is made with length 0, then written by index | a handler with one instance: the first write panics | one destination instance per instance | not executed | Prepare.NewInstancesAsWritten | Prepare.NewDestinationInstances |
