# A verified model of CLI Proxy API

CLI Proxy API is a proxy in front of AI services. It can be extended by plugins, takes part in a cluster of home
nodes, keeps usage data in a queue that Redis clients read, and writes its configuration back into the user's YAML
file without losing comments. This project models those parts in Dafny and proves what they are for:

* **Saving the configuration** (`Yaml*.dfy`). The generated tree is merged into the user's tree in place. `YamlTree`
  says on values what is computed; `YamlMerge`, `YamlPrune`, `YamlFrames`, `YamlCopy` and `YamlSaveInPlace` do it on
  nodes in the heap and are proved to refine the values; `YamlMeaning`, `YamlKeys` and `YamlSave` prove that the saved
  file means what the configuration says, keeps keys and order, and does not bring deleted entries back; `YamlDefaults`
  and `YamlPresence` exactly which settings are not written out, `YamlMatching` which old list element a new one takes
  over.
* **Plugin clients** (`ClientGuard.dfy`, `HostState.dfy`, `Host.dfy`, `HostSafety.dfy`,
  `HostApply.dfy`). The guard around a client is a
  state machine over any number of threads. The host's operations, which one mutex serialises, are steps of a run.
* **Callback contexts and streams** (`Callbacks.dfy`, `CallbackHost.dfy`). Threads interleave at every locked block;
  model streams do not leak and cleanups and cancel functions are called once. A stream of the HTTP bridge is one
  without an owner. `CallbackHost` takes the steps on the registries themselves.
* **Models and executors** (`Executors.dfy`, `Registrations.dfy`, `RegistryRuns.dfy`). A recursive definition of who
  wins a model and who serves a provider, loops proved against it, the guarded commits to the registry and the executor
  manager, and what the registry holds over runs of such passes.
* **The Redis interface** (`Resp.dfy`, `RespRoundTrip.dfy`, `RespReplies.dfy`, `RedisSession.dfy`,
  `RedisSessionSafety.dfy`, `RedisReplies.dfy`, `RedisCommands.dfy`). Parser and printers of RESP, their round trips,
  and the connection as a log of events watched by a protocol automaton, with what each command causes. Two things go
  wrong in the source, and the exact conditions are proved: a length too large to allocate ends the process, and a
  quoted line end makes one reply look like two.
* **Caches** (`SlidingCell.dfy`, `ReplayCache.dfy`, `ReplayHistory.dfy`, `ReplayItems.dfy`, `SignatureCache.dfy`,
  `SignatureThreads.dfy`). Both kinds of cache refine an ideal cell per key. The codex, antigravity and xai caches share
  one model, as their code is the same up to names and item normalisation. For the signature cache the interleavings of
  threads are modelled too: a store can be lost, and it is proved exactly when.
* **Home cluster failover** (`Failover.dfy`) and **the log directory** (`LogDirCleaner.dfy`).

`Text.dfy` and `StableSort.dfy` hold the Go library functions used throughout.

What the outside answers is a parameter: whether a library opens, how a registration ends, which files were selected,
how filepath.Clean works, whether a management key is accepted, which messages arrive and when, what the clock says,
how text is hashed, whether a signature is genuine, how long a slice can be allocated. History that no step reads (how
often a client was stopped, a cleanup run, a stream cancelled) is kept beside the state so that the theorems can speak
of it.

Assumptions, each stated as a precondition: the user's tree has no nil node and, for the theorems about deletions, no
repeated key at the root or under `plugins`; the generated tree has no alias, and distinct, non-blank keys in every
mapping, which are scalars in the elements of a list. Plugin ids are trimmed, hold no colon, and are given by the file
name, so that a cleaned path determines its id; selected files have distinct ids. The clock does not go back. Lengths
fit a 64-bit integer.

## Model

| member | source | states |
|---|---|---|
| `YamlMeaning.MergeNodeCovers` | internal/config/config.go:1347-1410 | after a merge the destination covers the source at every depth: scalars agree in tag and value, sequences have equal length and cover pointwise (or an explicit null stands for an empty sequence), and a source key is missing only where every leaf of its value is a false, a zero, an empty text, a null or a default of its path |
| `YamlMeaning.MergeMappingCovers` | internal/config/config.go:1308-1342 | the same for the merge of two mappings |
| `YamlDefaults.PruneKeepsDefault` | internal/config/config.go:1440-1559 | dropping default-valued descendants leaves a known-default value a known default at its path |
| `YamlDefaults.DefaultIff` | internal/config/config.go:1337-1341 | what is left of a new value is a known default if and only if every leaf in it is a zero scalar or, outside lists, a default named by the keys that lead to it, all written out value by value; for every tree |
| `YamlDefaults.DroppedIff` | internal/config/config.go:1487-1507 | a pair of a new mapping is dropped if and only if all leaves of its value are such scalars, those in lists zero ones |
| `YamlMeaning.PrunedCovers` | internal/config/config.go:1480-1514 | a new value pruned of its defaults still covers what it was copied from |
| `YamlMeaning.MergeElementsCovers` | internal/config/config.go:1366-1396 | each merged, copied or truncated element list covers the source list element by element, whatever old elements were reused |
| `YamlKeys.MergedLookup` | internal/config/config.go:1323-1341 | siblings do not interfere: each key of a merged mapping holds the merge of what both sides hold under that key alone |
| `YamlKeys.MergedKeys` | internal/config/config.go:1323-1341 | the key nodes are those of the destination in their order, followed by the new keys in source order |
| `YamlKeys.ElementWithin` | internal/config/config.go:1384-1388 | inside a sequence element no top-level key is left that the source element lacks, blanks aside |
| `YamlKeys.MergedWithin` | internal/config/config.go:1308-1342 | a mapping whose keys are among the source keys stays so through a merge |
| `YamlKeys.PrunedWithin` | internal/config/config.go:1842-1871 | pruning missing keys leaves only keys of the source mapping |
| `YamlSave.StaleForm` | internal/config/config.go:1182-1184 | what the three prunings leave under each key of the user's root, key by key |
| `YamlSave.DeletionsStick` | internal/config/config.go:1182-1187 | after saving, every surviving key of the two oauth sections is a generated key; a section the configuration lacks is gone, except that a model alias section the user had is an empty mapping |
| `YamlSave.PluginDeletionsStick` | internal/config/config.go:1184-1187 | the same for plugins.configs, also when plugins is missing from the configuration |
| `YamlSave.SaveCovers` | internal/config/config.go:1182-1187 | the saved tree covers the whole configuration although stale entries were pruned before |
| `YamlPresence.SavedScalar` | internal/config/config.go:1182-1187 | each scalar of the configuration is found in the saved file under the same keys with the same tag and value; it is missing if and only if a mapping on the way to it in the user's tree lacks the next key and it is a false, 0 or 0.0, an empty text, a null, or one of the five defaults by their dotted paths |
| `YamlPresence.SavedValue` | internal/config/config.go:1333-1341 | a scalar, list or mapping under a key that the user's mapping lacks is missing from the saved file if and only if every leaf in it is such a value |
| `YamlPresence.SavedIff` | internal/config/config.go:1182-1187 | for any value of the configuration under any keys, exactly when it is missing: what would be added on the way to it is left out as a whole, or no longer holds it |
| `YamlPresence.MergedPresence` | internal/config/config.go:1308-1410 | the same for a merge alone, at every depth and for nodes of different kinds |
| `YamlPresence.NewPresence` | internal/config/config.go:1480-1514 | of a new mapping, exactly the values vanish whose leaves do |
| `YamlPresence.MergeKeeps` | internal/config/config.go:1347-1410 | a merge brings in nothing that neither side holds, and the style, anchor and comments of everything the destination holds are still there |
| `YamlPresence.SaveKeeps` | internal/config/config.go:1182-1187 | the same for a save, of everything that the pruning of stale entries leaves |
| `YamlPresence.DottedOnce` | internal/config/config.go:1451 | no two lists of keys without dots in them have the same dotted path |
| `YamlPresence.TwoKeys` | internal/config/config.go:1451-1468 | two keys without dots, such as pprof and addr, are the only ones whose dotted path is theirs |
| `YamlMerge.PlanUsesOnce` | internal/config/config.go:1607-1625 | matching by identity or structure never takes an old element twice |
| `YamlTree.MatchElement` | internal/config/config.go:1629-1670 | a matched element is unused and not nil; which one it is, YamlMatching.MatchIs states |
| `YamlMatching.MatchIs` | internal/config/config.go:1629-1670 | an element takes over the first unused old one told by the same key and value, or holding the same trimmed scalar; if there is none, the first unused one that is alike at every position; and none if there is none |
| `YamlMatching.ToldIdentity` | internal/config/config.go:1672-1712 | an element is told by the first of id, name, alias, api-key, api_key, apikey, key, provider and model under which its first scalar is not blank, or else by its first scalar that is not blank, whatever case and blanks |
| `YamlMatching.ToldApart` | internal/config/config.go:1683-1685 | an identity determines its key and its value, unless the key contains the sign between them |
| `YamlMatching.StructurallyEqualIff` | internal/config/config.go:1714-1752 | two trees are structurally equal if and only if at every position they have nodes of the same kind and, up to blanks, the same scalars |
| `YamlMatching.PlanIsByToken` | internal/config/config.go:1607-1670 | where no identity occurs twice in either list, every element takes over the old one with its identity, none if there is none, and elements without one take over none that has one |
| `YamlMatching.MergedByToken` | internal/config/config.go:1361-1396 | a merged element is then what becomes of the old one with its identity: it keeps its comments and those below it, and takes no key over from another element |
| `YamlMatching.Reordered` | internal/config/config.go:1607-1625 | merging the list in another order moves every element along with its comments |
| `YamlMatching.Replaced` | internal/config/config.go:1355-1371 | a list that takes the place of something else is the source's, a mapping that does has the source's tag, and only a null stays for an empty list |
| `YamlTree.FindPair` | internal/config/config.go:1414-1424 | the first pair with the key, or none if and only if no key node has that value |
| `YamlMerge.MergeMappingPreserve` | internal/config/config.go:1308-1342 | in place: existing pairs keep their nodes and places, untouched keys keep their trees, the result is a tree of old destination nodes and fresh ones that shares nothing with the source and denotes the merge |
| `YamlMerge.MergeNodePreserve` | internal/config/config.go:1347-1410 | in place: the root stays the same node, and the result is a tree apart from the source that denotes the merge |
| `YamlMerge.MergeSequenceInPlace` | internal/config/config.go:1361-1396 | in place: each element the matching chose is the old node, moved to its new position and merged |
| `YamlMerge.MergePairInPlace` | internal/config/config.go:1323-1341 | in place: one source pair is merged into its value, or added, or skipped, and nothing else of the destination is written |
| `YamlMerge.MergeElementInPlace` | internal/config/config.go:1379-1389 | in place: one element is merged and its keys pruned, or replaced by a copy when it is nil; the other elements are not written |
| `YamlMerge.ReorderSequenceForMerge` | internal/config/config.go:1607-1625 | in place: the content becomes the chosen old subtrees in source order |
| `YamlMerge.PruneMissingMapKeys` | internal/config/config.go:1842-1871 | in place: exactly the pairs whose trimmed key the source lacks are removed |
| `YamlPrune.PruneKnownDefaultsInNewNode` | internal/config/config.go:1480-1514 | in place: a new tree loses exactly its default-valued descendants |
| `YamlFrames.CopyNodeShallow` | internal/config/config.go:1589-1605 | in place: kind, tag, value and copied content of the source, with the node, its style and its comments kept |
| `YamlFrames.FindMapKeyIndex` | internal/config/config.go:1414-1424 | the index of the first pair with that key, or -1 |
| `YamlSaveInPlace.RemoveMapKey` | internal/config/config.go:1754-1764 | in place: the first pair with the key is removed and nothing else |
| `YamlSaveInPlace.PruneSectionInPlace` | internal/config/config.go:1801-1839 | in place: a section of the user's tree is pruned, replaced, emptied or removed |
| `YamlSaveInPlace.PruneNestedInPlace` | internal/config/config.go:1770-1800 | in place: the same below a path of parents, also where the source parent is missing |
| `YamlSaveInPlace.SaveInPlace` | internal/config/config.go:1182-1187 | in place: the whole order of steps yields a tree that denotes the saved configuration and shares no node with the generated one |
| `YamlCopy.DeepCopyNode` | internal/config/config.go:1562-1585 | on every closed node graph, cyclic or not, the copy terminates and gives an isomorphic graph of fresh nodes |
| `YamlCopy.Copier.Copy` | internal/config/config.go:1566-1585 | each call copies what is reachable and not yet seen, and writes only nodes it allocates |
| `YamlCopy.CopyFollows` | internal/config/config.go:1566-1585 | every path of the copy leads to the image of where it leads in the original |
| `YamlCopy.CopyPreservesSharing` | internal/config/config.go:1566-1585 | two paths meet in the copy if and only if they meet in the original, and none reaches an original node |
| `YamlCopy.ImageDenotes` | internal/config/config.go:1562-1585 | the isomorphic copy of a tree is a tree of the same value |
| `YamlCopy.CopyTree` | internal/config/config.go:1562-1585 | copying a tree gives a fresh tree of the same value |
| `ClientGuard.GuardedPluginClient.Acquire` | internal/pluginhost/client_guard.go:39-50 | a call enters only while the guard is open and holds a client |
| `ClientGuard.GuardedPluginClient.Release` | internal/pluginhost/client_guard.go:52-59 | a call leaves, and the last one wakes all waiters |
| `ClientGuard.GuardedPluginClient.BeginShutdown` | internal/pluginhost/client_guard.go:61-76 | the first shutdown closes the guard and takes the client unless calls are left; a later one only waits |
| `ClientGuard.GuardedPluginClient.AfterWait` | internal/pluginhost/client_guard.go:68-76 | a woken waiter waits again while calls are left; the owner then takes the client |
| `ClientGuard.StepKeepsInv` | internal/pluginhost/client_guard.go:23-79 | every step of any thread keeps: the counter is the number of threads inside, nobody sleeps without a call to wake it, at most one thread is to stop the client |
| `ClientGuard.Safety` | internal/pluginhost/client_guard.go:23-79 | on every interleaving, shutdowns from inside calls included, the counter is the number of calls, the client is stopped at most once, and from then on nobody is inside or can get in |
| `ClientGuard.NeverLost` | internal/pluginhost/client_guard.go:61-79 | a client is either still held or has been stopped, never both and never neither |
| `ClientGuard.AdmittedIff` | internal/pluginhost/client_guard.go:39-50 | after any run a call is let in if and only if there is a client and no shutdown has begun, and it is then counted |
| `ClientGuard.FirstShutdown` | internal/pluginhost/client_guard.go:61-79 | the first shutdown, from outside, closes the guard; it waits while calls are left, and otherwise stops the client, if there is one |
| `ClientGuard.ClosedOnlyDrains` | internal/pluginhost/client_guard.go:39-59 | once closed, the guard stays closed and its counter never rises |
| `ClientGuard.Progress` | internal/pluginhost/client_guard.go:61-79 | while a thread is not outside, some thread can go on, unless every call left waits in a shutdown that it began itself |
| `ClientGuard.StuckIff` | internal/pluginhost/client_guard.go:61-79 | threads are stuck if and only if calls are left and each of them waits in a shutdown of its own: no wakeup is missed and there is no other deadlock |
| `ClientGuard.BlockedForGood` | internal/pluginhost/client_guard.go:66-72 | a call that shuts its own client down waits for good, and the client is never stopped |
| `ClientGuard.ShutdownEnds` | internal/pluginhost/client_guard.go:61-79 | once closed, the threads under way take a bounded number of further steps; when none can go on, everybody is outside and the client has been let go of, if and only if no call has shut the client down from within |
| `Callbacks.CallbackContextRegistry.Take` | internal/pluginhost/callback_contexts.go:45-49 | the closing block removes the context and yields its whole cleanup list |
| `Callbacks.CallbackContextRegistry.Append` | internal/pluginhost/callback_contexts.go:69-85 | a cleanup is appended if and only if the context is live |
| `CallbackHost.Host.EnterContext` | internal/pluginhost/callback_contexts.go:36-39 | in place: the issued id gets an entry without cleanups, as the step of the state machine says |
| `CallbackHost.Host.BeginClose` | internal/pluginhost/callback_contexts.go:43-50 | in place: the context leaves the map and the closing thread holds its whole cleanup list |
| `CallbackHost.Host.RunNext` | internal/pluginhost/callback_contexts.go:50-54 | in place: one cleanup is run, and takes out the stream it closes |
| `CallbackHost.Host.AddCleanup` | internal/pluginhost/callback_contexts.go:69-85 | in place: a live context gets the cleanup, otherwise the caller runs it |
| `CallbackHost.Host.EnterStream` | internal/pluginhost/model_stream_bridge.go:36-44 | in place: the issued stream is entered with its owner and is to be registered if it has one |
| `CallbackHost.Host.Register` | internal/pluginhost/host_model_stream_callbacks.go:37-41 | in place: the cleanup that closes the stream is handed over to its owner |
| `CallbackHost.Host.CloseStream` | internal/pluginhost/model_stream_bridge.go:80-91 | in place: the first close that finds the stream takes it out, to be cancelled next |
| `Callbacks.ModelStreamBridge.Take` | internal/pluginhost/model_stream_bridge.go:80-91 | a stream is removed by the first close that finds it |
| `Callbacks.StepKeepsInv` | internal/pluginhost/callback_contexts.go:27-85 | every step of any thread keeps the places of streams, cleanups and contexts consistent |
| `Callbacks.OpenStreamsAreAccountedFor` | internal/pluginhost/host_model_stream_callbacks.go:28-47 | an open stream with an owner is being registered, or its live owner holds a cleanup for it, or its removal is pending in a list being run |
| `Callbacks.ClosedContextOwnsNoStream` | internal/pluginhost/host_model_stream_callbacks.go:36-47 | once a context's close has finished, a stream it owns is open only while the call that opened it has not returned |
| `Callbacks.CleanupsRunOnce` | internal/pluginhost/callback_contexts.go:41-85 | each cleanup handed over has run exactly once, or is listed in exactly one place and has not run |
| `Callbacks.ClosedContextRanItsCleanups` | internal/pluginhost/callback_contexts.go:41-57 | once a close has finished, each cleanup of that context has run, or the late call handing it over runs it itself |
| `Callbacks.RunsInOrder` | internal/pluginhost/callback_contexts.go:50-54 | through all steps of all threads a thread that closes a context goes through its cleanups from the first to the last |
| `Callbacks.HandedLast` | internal/pluginhost/callback_contexts.go:69-85 | a cleanup handed over to an open context comes last among those of the context; otherwise the caller is to run it next |
| `Callbacks.RegisteredLast` | internal/pluginhost/host_model_stream_callbacks.go:37-41 | the same for the cleanup that closes a stream just opened |
| `Callbacks.TakesAll` | internal/pluginhost/callback_contexts.go:43-49 | a context is closed once, by a thread that takes all its cleanups in their order |
| `Callbacks.RunsFirst` | internal/pluginhost/callback_contexts.go:50-54 | the first cleanup is run, once; if it closes an open stream, the stream is cancelled before the next one |
| `Callbacks.StreamsCancelledOnce` | internal/pluginhost/model_stream_bridge.go:80-91 | a stream's cancel function is called exactly once, after its entry has left the map |
| `Callbacks.ClosingsEnd` | internal/pluginhost/callback_contexts.go:50-54 | a thread running cleanups can always go on, and each of its steps brings the end nearer |
| `Callbacks.OthersDoNotDelay` | internal/pluginhost/callback_contexts.go:50-54 | no step of another thread changes what a thread has left to run |
| `Host.Host.ApplyConfig` | internal/pluginhost/host.go:182-322 | the operation yields the state of the specification and keeps the invariant |
| `Host.Host.ApplyFile` | internal/pluginhost/host.go:223-302 | one file is skipped, loaded, hot-replaced or kept, and registered |
| `Host.Host.Load` | internal/pluginhost/host.go:244-272 | a failed load changes nothing; a successful hot replacement retires the old plugin |
| `Host.Host.Register` | internal/pluginhost/host.go:592-624 | what a registration leaves of the loaded plugin in each of its outcomes |
| `Host.Host.WithLoadedPluginFallbacks` | internal/pluginhost/host.go:338-376 | loaded plugins with a desired version and no selected file stay selected |
| `Host.Host.RebuildActivePluginMaps` | internal/pluginhost/host.go:576-590 | the identity maps are rebuilt from the records alone |
| `Host.Host.SnapshotWithoutPlugin` | internal/pluginhost/host.go:536-550 | the records without one plugin, in their order |
| `Host.Host.PluginIdentityCurrent` | internal/pluginhost/host.go:514-534 | the query answers by the three identity maps |
| `Host.Host.PluginBusy` | internal/pluginhost/host.go:162-180 | the query answers by the loaded, retired and loading plugins |
| `Host.Host.UnloadPlugin` | internal/pluginhost/host.go:379-429 | the loaded and the retired plugins of the id are taken out and their clients shut down |
| `Host.Host.ShutdownAll` | internal/pluginhost/host.go:432-493 | all clients are gathered once each, in whatever order the maps give, and shut down |
| `HostSafety.StepKeepsInv` | internal/pluginhost/host.go:182-508 | every operation keeps: each client at one place, named and valid plugins, records backed by loaded plugins, identity maps equal to those rebuilt from the snapshot |
| `HostSafety.ClientsConserved` | internal/pluginhost/host.go:182-508 | over all runs each client ever opened is loaded or retired under exactly one id and not shut down, or in neither place and shut down once |
| `HostSafety.BusyIffLive` | internal/pluginhost/host.go:162-180 | between operations a plugin is busy if and only if it has a live client |
| `HostSafety.IdentitiesAgree` | internal/pluginhost/host.go:514-590 | between operations an identity is current if and only if some snapshot record has that id, cleaned path and version |
| `HostSafety.CurrentIff` | internal/pluginhost/host.go:514-534 | for records with distinct ids and paths, the rebuilt maps answer exactly by the records |
| `HostSafety.RebuiltWithout` | internal/pluginhost/host.go:407-417 | deleting a plugin's entries from the maps equals rebuilding them without its records |
| `HostSafety.UnloadStops` | internal/pluginhost/host.go:379-429 | an unload shuts down exactly the live clients of its plugin, once each, and leaves all others |
| `HostSafety.ShutdownStops` | internal/pluginhost/host.go:432-493 | after a shutdown every client ever opened has been shut down exactly once, and no plugin is listed; a plugin that was fused stays so |
| `HostSafety.FallbacksGood` | internal/pluginhost/host.go:338-376 | fallbacks are added behind the selected files and never repeat an id |
| `HostSafety.RecordsAreRegistered` | internal/pluginhost/host.go:223-302 | every record comes from a file whose plugin is enabled and registered, with its path, version and priority |
| `HostApply.ListedIff` | internal/pluginhost/host.go:223-302 | after an operation a plugin is listed if and only if plugins are enabled and it has a file, is enabled, is not fused or its path differs from the loaded one, is loaded from that path already or its library opens, and registers as a plugin |
| `HostApply.ConfigOutcome` | internal/pluginhost/host.go:223-302 | for every file: whether its plugin is listed, with which record; that it is then loaded from that file; that a client is opened exactly when nothing was loaded from that path and the library opens, the plugin replaced being then among the retired ones; what becomes of name, version and fuse |
| `HostApply.ConfigOthers` | internal/pluginhost/host.go:182-321 | one client is opened for each such file and none is shut down; a plugin without a file is left as it is and not listed |
| `HostApply.FilesOutcome` | internal/pluginhost/host.go:226-302 | the outcome of each file is that of the loop, whatever the other files are |
| `HostApply.FallbackIff` | internal/pluginhost/host.go:338-376 | a plugin without a file stays selected if and only if it has a desired version, is not disabled, and is loaded from a path |
| `HostApply.FallbackFiles` | internal/pluginhost/host.go:366-373 | what is added for it is where it is loaded from |
| `HostApply.UnloadOutcome` | internal/pluginhost/host.go:379-430 | an unload takes away everything under its id, fuse and record included, and nothing else |
| `HostSafety.ApplyFilesKeeps` | internal/pluginhost/host.go:223-302 | the loop keeps clients conserved and every record backed by the plugin it loaded |
| `HostSafety.SortOrders` | internal/pluginhost/snapshot.go:133-140 | records come out by descending priority, then by id, and none is lost or added |
| `HostSafety.LessIff` | internal/pluginhost/snapshot.go:135-138 | ids are ordered by their first difference, and after those that they continue |
| `Executors.SelectModels` | internal/pluginhost/adapters.go:774-809 | the first loop selects for each record exactly the models it wins, the first of each id, in their order, and lists all models of the records whose provider has a native executor |
| `Executors.ClaimModels` | internal/pluginhost/adapters.go:794-808 | the inner loop picks the free models and claims their ids |
| `Executors.AssignProviders` | internal/pluginhost/adapters.go:811-850 | the second loop makes adapters and model clients for exactly the records that serve their provider, and lists exactly their models on top of those listed before |
| `Executors.ListedExactly` | internal/pluginhost/adapters.go:1015-1040 | what a provider lists is, in order, the first model of each id among all that was appended for it |
| `Executors.ListedIds` | internal/pluginhost/adapters.go:1015-1040 | a model is listed once, and if and only if something appended for the provider has it |
| `Executors.AppendModelsForProvider` | internal/pluginhost/adapters.go:1015-1040 | a provider's list grows by the models whose ids it lacks |
| `Executors.AppendKeeps` | internal/pluginhost/adapters.go:1015-1040 | no provider lists a model twice, and all models given are listed |
| `Executors.WonOnce` | internal/pluginhost/adapters.go:794-808 | no model is won by two records |
| `Executors.OfferedIsWon` | internal/pluginhost/adapters.go:774-809 | the first eligible record wins: an offered model is won by that record or an earlier one unless its provider was already taken |
| `Executors.AdaptersSound` | internal/pluginhost/adapters.go:816-839 | each provider has at most one adapter, none when its executor is native |
| `Executors.ClientsDisjoint` | internal/pluginhost/adapters.go:841-849 | no model id is in two registered model clients |
| `Executors.ClientsServed` | internal/pluginhost/adapters.go:838-849 | no model is twice in a client, and the provider of each client is served by an adapter of the same plugin |
| `Executors.RegisteredIffServes` | internal/pluginhost/adapters.go:826-849 | the models a record won are registered if and only if the record serves its provider |
| `Executors.WonButNotRegistered` | internal/pluginhost/adapters.go:826-849 | a record without models can take the provider from the winner of a model, whose models are then not registered |
| `Registrations.RegistrationHost.RegisterModels` | internal/pluginhost/adapters.go:240-314 | a pass from a snapshot no longer installed changes nothing; otherwise the registry and the host's tables hold what the records give |
| `Registrations.RegistrationHost.CommitModelClients` | internal/pluginhost/adapters.go:717-744 | a stale commit changes nothing; otherwise new clients are registered and the host's stale ones unregistered |
| `Registrations.RegistrationHost.RegisterExecutors` | internal/pluginhost/adapters.go:757-852 | the whole pass, from the candidates to the manager and the registry, and to the models listed per provider. Every executor that is not the host's own is kept; no model of a new client has a provider with such an executor; a new executor is the adapter of a record for its provider, which has no models or a client with those it won; a record that is the first for a provider without a foreign executor, and brings a free model or none, does get its adapter; all models of plugins without an executor, or behind a foreign one, are listed |
| `Registrations.RegistrationHost.CommitExecutorState` | internal/pluginhost/adapters.go:858-916 | a stale commit changes nothing; otherwise adapters are installed and only the host's own stale executors removed |
| `Registrations.Kept` | internal/pluginhost/adapters.go:282-290 | only models with an id are kept, their ids trimmed |
| `Registrations.CollectRegistrations` | internal/pluginhost/adapters.go:251-312 | the tables a pass computes, record by record |
| `Registrations.RegistrationsExact` | internal/pluginhost/adapters.go:251-312 | the table has exactly the records that offer models and answer with a provider and a model with an id, each under its id |
| `Registrations.RegistersIff` | internal/pluginhost/adapters.go:251-300 | what such a record registers: its provider in normal form, and exactly the models with an id |
| `Registrations.Registry.RegisterClient` | internal/registry/model_registry.go:243-274 | a client replaces its former registration; one without model ids is removed |
| `Registrations.Manager.RegisterExecutor` | sdk/cliproxy/auth/conductor.go:2063-2076 | an executor replaces the one of its provider |
| `Registrations.RegistryExact` | internal/pluginhost/adapters.go:910-915 | if the registry held the host's previous clients and others, it then holds exactly the new ones and those others |
| `Registrations.ExecutorsExact` | internal/pluginhost/adapters.go:892-904 | each new provider has its adapter; only stale executors that were the host's own are gone; everything else is unchanged |
| `Registrations.ClientIdsDiffer` | internal/pluginhost/adapters.go:854-856 | client ids of different plugins differ |
| `Registrations.ArbitrationCommits` | internal/pluginhost/adapters.go:840-849 | the clients of an arbitration have ids of their own, as an exact commit needs |
| `Registrations.DirectClientsSound` | internal/pluginhost/adapters.go:303-311 | exactly the plugins without an executor get a direct client, one each, with models and an id of its own |
| `RegistryRuns.RunExactIff` | internal/pluginhost/adapters.go:717-744 | over any run of both passes, with others registering in between, the registry holds at each point exactly the host's clients of both kinds and those of others, if and only if no operation brings in an id of another kind |
| `RegistryRuns.StepExactIff` | internal/pluginhost/adapters.go:910-915 | the same for one operation |
| `RegistryRuns.PassesCommit` | internal/pluginhost/adapters.go:840-849 | the clients that both passes compute have models and ids of their own |
| `RegistryRuns.IdsCollideIff` | internal/pluginhost/adapters.go:854-856 | the id of a plugin's own client is that of an executor client if and only if it is the same plugin and its provider is called like the executor's with :executor behind it |
| `RegistryRuns.ProperRunExact` | internal/pluginhost/adapters.go:717-744 | so the registry is exact over every run in which no such provider occurs and others keep away from ids of plugins |
| `RegistryRuns.CollisionLoses` | internal/pluginhost/adapters.go:910-915 | a run in which two ids collide, and the executor's client is lost |
| `Resp.AtoiItoa` | internal/api/redis_queue_protocol.go:425-428 | a printed number is read back, and its text holds nothing a line ends at |
| `Resp.ItoaPlaces` | internal/api/redis_queue_protocol.go:543-557 | a number is printed digit by digit, the highest first, behind a minus sign if it is negative |
| `RespReplies.OnTheWire` | internal/api/redis_queue_protocol.go:487-557 | what stands for a bulk string, for none, for a number, a status and an error, byte by byte |
| `RespReplies.CommandOnTheWire` | internal/home/certificate.go:335-348 | a command of two words, byte by byte |
| `Resp.Reader.ReadLine` | internal/api/redis_queue_protocol.go:477-485 | a line without its line end, and exactly its bytes consumed |
| `Resp.Reader.ReadBulkString` | internal/api/redis_queue_protocol.go:455-475 | a bulk string of the announced length, the empty string for a negative one, each error, and the panic of a length too large to allocate |
| `Resp.Reader.ReadString` | internal/api/redis_queue_protocol.go:440-453 | bulk strings, simple strings and integers are read as text |
| `Resp.Reader.ReadArray` | internal/api/redis_queue_protocol.go:413-438 | an array of strings, or the error or panic of the first part that fails |
| `Resp.Reader.ReadBulkReply` | internal/home/certificate.go:350-382 | a bulk reply of the home server, or its error or panic |
| `Resp.Writer.PutBulk` | internal/api/redis_queue_protocol.go:511-526 | a bulk string or the nil form is written |
| `Resp.Writer.PutArrayOfBulks` | internal/api/redis_queue_protocol.go:528-541 | the header and each item in order |
| `Resp.Writer.PutSubscribed` | internal/api/redis_queue_protocol.go:559-570 | the confirmation of a subscription |
| `Resp.Writer.PutUnsubscribed` | internal/api/redis_queue_protocol.go:572-583 | the confirmation of its end |
| `Resp.Writer.PutMessage` | internal/api/redis_queue_protocol.go:585-596 | a message with its channel |
| `Resp.Writer.PutPong` | internal/api/redis_queue_protocol.go:598-606 | the answer to a ping |
| `Resp.EncodeArray` | internal/home/certificate.go:335-348 | a command is encoded as an array of bulk strings |
| `RespRoundTrip.CommandsRoundTrip` | internal/api/redis_queue_protocol.go:413-485 | any list of commands that fits the reader's memory, with any bytes in their arguments, is read back in order, and exactly its bytes are consumed |
| `RespRoundTrip.ArrayRoundTrip` | internal/api/redis_queue_protocol.go:528-541 | a printed array that fits is read as its items, nil ones as empty strings, and nothing beyond it is consumed |
| `RespRoundTrip.ArrayTooLarge` | internal/api/redis_queue_protocol.go:413-438 | one that does not fit makes the reader panic |
| `RespRoundTrip.ArrayPanicsIff` | internal/api/redis_queue_protocol.go:425-429 | reading a command panics if and only if its header announces more strings than can be allocated, or, after some strings have been read, the next announces more bytes |
| `RespRoundTrip.LargestNumberPanics` | internal/api/redis_queue_protocol.go:460-467 | the two inputs of the largest integer: as a count it panics wherever fewer strings can be allocated, as a length everywhere |
| `RespRoundTrip.BulkReplyPanicsIff` | internal/home/certificate.go:358-369 | the home client's reader panics under the same condition on its size |
| `RespRoundTrip.BulkRoundTrip` | internal/api/redis_queue_protocol.go:511-526 | the same for one bulk string |
| `RespRoundTrip.MessageRead` | internal/api/redis_queue_protocol.go:585-596 | a forwarded message is read as message, channel and payload |
| `RespRoundTrip.ConfirmationRead` | internal/api/redis_queue_protocol.go:559-583 | a confirmation is read as its kind, the channel and the count |
| `RespRoundTrip.BulkReplyRoundTrip` | internal/home/certificate.go:350-382 | the home client reads back the payload of a bulk reply |
| `RespRoundTrip.NilReplyFails` | internal/home/certificate.go:365-367 | a nil reply is an error |
| `RespRoundTrip.ArrayExtends` | internal/api/redis_queue_protocol.go:413-438 | an array, a protocol error or a panic found in the input stays the same whatever bytes follow |
| `RespRoundTrip.TruncatedArray` | internal/api/redis_queue_protocol.go:468-470 | an array cut short is reported as the end of the input, never as another array or a malformed one |
| `RespReplies.ErrorIsOneIff` | internal/api/redis_queue_protocol.go:495-501 | a client reads exactly one reply from an error, whatever follows it, if and only if its text holds no line end |
| `RespReplies.ItemsRead` | internal/api/redis_queue_protocol.go:528-541 | a client reads a printed array as its items, nil ones as nil |
| `RespReplies.PubSubRead` | internal/api/redis_queue_protocol.go:559-596 | a client reads confirmations and messages as their three parts |
| `RespReplies.PongRead` | internal/api/redis_queue_protocol.go:598-606 | a client reads the answer to a ping |
| `RespReplies.InStepIff` | internal/api/redis_queue_protocol.go:487-606 | a client that reads reply after reply takes each piece written for one reply if and only if each of them is one |
| `RedisSession.HandleConnection` | internal/api/redis_queue_protocol.go:36-224 | the log of a connection and the bytes written are those of the specification, for all input, answers, losses and panics |
| `RedisSession.Turn` | internal/api/redis_queue_protocol.go:67-223 | one turn of the loop |
| `RedisSession.AnswerCommand` | internal/api/redis_queue_protocol.go:80-222 | each command gets the reply and the effects of the specification |
| `RedisSession.StreamSubscription` | internal/api/redis_queue_protocol.go:248-288 | the loop of a subscription |
| `RedisSession.Select` | internal/api/redis_queue_protocol.go:260-286 | one turn of its select |
| `RedisSession.AnswerListening` | internal/api/redis_queue_protocol.go:312-341 | the answer to a command during a subscription |
| `RedisSession.TurnOnce` | internal/api/redis_queue_protocol.go:67-79 | a turn that leads to another one has consumed input |
| `RedisSessionSafety.ConnectionKeepsProtocol` | internal/api/redis_queue_protocol.go:36-224 | every run keeps the protocol: one reply to each command before the next is read, pops and subscriptions only after an accepted key, the subscription given back before the close, nothing after it; the end of the process comes between commands and is the only way a subscription is not given back |
| `RedisSessionSafety.ConnectionBalances` | internal/api/redis_queue_protocol.go:154-174 | as many replies as commands, at most one subscription, given back exactly once on every exit but the end of the process |
| `RedisSessionSafety.ConnectionExplained` | internal/api/redis_queue_protocol.go:67-79 | on every run the commands read are the first of the input, in order, and the process ends only if reading the next one panics |
| `RedisSessionSafety.CrashesIff` | internal/api/redis_queue_protocol.go:67-79 | while the server stays enabled and can send, and nobody subscribes, it ends if and only if the command after those read is too large |
| `RedisSessionSafety.LargestNumberCrashes` | internal/api/redis_queue_protocol.go:67-79 | a connection that begins with the largest count or length ends the process at once, before any key |
| `RedisSessionSafety.GuardedByAuth` | internal/api/redis_queue_protocol.go:88-105 | nothing is popped or subscribed to before a management key was accepted |
| `RedisCommands.ConnectionLaw` | internal/api/redis_queue_protocol.go:80-222 | on every run: a key is accepted exactly by AUTH with one or two arguments whose last one the management of a managed server allows in that very turn; items are popped, and a channel subscribed to, exactly by such commands, in turns after an accepted key; each of these is confirmed, and every other command is answered by an error |
| `RedisCommands.GuardedByKey` | internal/api/redis_queue_protocol.go:88-145 | for every pop and every subscription there is an earlier turn in which AUTH presented a key that the management of a managed server allowed |
| `RedisCommands.Answers` | internal/api/redis_queue_protocol.go:80-222 | the same for one command: at most one effect, exactly the one it asks for |
| `RedisCommands.RefusalsSay` | internal/api/redis_queue_protocol.go:90-141 | what is said before a key is accepted: the message of a ban, or that authentication is required; and to a refused key, the message of the refusal |
| `RedisCommands.ConnectionServed` | internal/api/redis_queue_protocol.go:62-79 | commands are answered in turn as long as the server is enabled, replies can be sent and commands can be read, and no longer |
| `RedisCommands.SelectLaw` | internal/api/redis_queue_protocol.go:261-341 | one turn of a subscription: what is forwarded or answered, and exactly when the subscription ends |
| `RedisSessionSafety.ListeningForwards` | internal/api/redis_queue_protocol.go:260-273 | messages are forwarded in the order of arrival, all of them while the subscription lasts |
| `RedisSessionSafety.SessionForwards` | internal/api/redis_queue_protocol.go:36-288 | a whole session forwards a prefix of the messages that arrive, in order |
| `RedisSessionSafety.SentIsExecuted` | internal/api/redis_queue_protocol.go:67-90 | of the commands a client encodes and sends, whether they fit or not, a connection executes the first ones, in order and as sent |
| `RedisReplies.RespondFair` | internal/api/redis_queue_protocol.go:88-222 | for each command a client reads exactly one reply and leaves what follows, if and only if the command name, channel or message quoted holds no line end |
| `RedisReplies.ListeningFair` | internal/api/redis_queue_protocol.go:312-341 | the same during a subscription |
| `RedisReplies.TwoRepliesForOne` | internal/api/redis_queue_protocol.go:218-219 | the command x CR LF +ok, whose one reply a client reads as two |
| `RedisReplies.OutputInStepIff` | internal/api/redis_queue_protocol.go:36-341 | on every run a client that reads the whole output reply by reply takes each thing written for one reply, in order, if and only if no reply quotes a line end |
| `RedisReplies.RepliesComeFirst` | internal/api/redis_queue_protocol.go:67-223 | what is written first are the replies to the commands, one for each |
| `RedisReplies.PopDelivers` | internal/api/redis_queue_protocol.go:175-205 | a client reads the reply to a pop with a count as the items popped, in order, nil ones as nil |
| `RedisReplies.SinglePopDelivers` | internal/api/redis_queue_protocol.go:206-216 | a pop without a count delivers the first item, or nil |
| `SlidingCell.IdealIsLatest` | internal/cache/codex_reasoning_replay_cache.go:151-165 | a cell finds its latest value if and only if nothing dropped it since and it was never left unused for longer than the TTL |
| `ReplayCache.Cache.Set` | internal/cache/codex_reasoning_replay_cache.go:67-106 | normalised copies are stored, and the oldest entries evicted when the cache has grown too big |
| `ReplayCache.Cache.Get` | internal/cache/codex_reasoning_replay_cache.go:127-166 | a lookup refreshes or drops the entry and hands out fresh buffers only |
| `ReplayCache.Cache.EvictOldest` | internal/cache/codex_reasoning_replay_cache.go:306-327 | the given number of entries is removed, none newer than one that stays |
| `ReplayCache.Cache.Purge` | internal/cache/codex_reasoning_replay_cache.go:329-337 | exactly the expired entries are removed |
| `ReplayCache.Cache.Delete` | internal/cache/codex_reasoning_replay_cache.go:190-192 | the entry of the key is removed |
| `ReplayCache.Cache.Clear` | internal/cache/codex_reasoning_replay_cache.go:197-201 | all entries are removed |
| `ReplayCache.Cache.Clone` | internal/cache/codex_reasoning_replay_cache.go:298-304 | copies with the same content, none of them a cached buffer |
| `ReplayCache.Cache.NormalizeItems` | internal/cache/codex_reasoning_replay_cache.go:218-227 | the items that normalise, in order, each in a buffer of its own |
| `ReplayCache.FirstAreOldest` | internal/cache/codex_reasoning_replay_cache.go:318-326 | the first entries of the sorted list are oldest entries |
| `ReplayHistory.LookupFindsLatest` | internal/cache/codex_reasoning_replay_cache.go:151-165 | over any run a lookup finds the items of the latest store, if and only if the key was not deleted, cleared or evicted since and never idle beyond the TTL |
| `ReplayCache.NormalizedAdds` | internal/cache/codex_reasoning_replay_cache.go:218-227 | an item counts if it normalises, and then as its normal form, one by one in their order |
| `ReplayHistory.RunAgrees` | internal/cache/xai_reasoning_replay_cache.go:94-165 | the cache refines one ideal cell per key, except that expired entries may be purged |
| `ReplayHistory.Bounded` | internal/cache/antigravity_reasoning_replay_cache.go:95-108 | between operations the cache never holds more than 10240 entries |
| `ReplayHistory.StepFinds` | internal/cache/codex_reasoning_replay_cache.go:67-200 | what a lookup finds after one operation, in terms of what it found before it, with the hour of the TTL |
| `ReplayHistory.EvictionSize` | internal/cache/codex_reasoning_replay_cache.go:99-105 | a store evicts nothing unless the cache grows past 10240 entries, and then 128 of them |
| `ReplayHistory.PurgeUnseen` | internal/cache/antigravity_reasoning_replay_cache.go:339-347 | a purge changes no lookup at its time or later |
| `ReplayHistory.EvictionSparesTheNewer` | internal/cache/codex_reasoning_replay_cache.go:306-327 | an eviction removes no entry newer than one that stays and leaves those unchanged |
| `ReplayItems.CodexNormalForm` | internal/cache/codex_reasoning_replay_cache.go:229-296 | a normalised item is its own normal form |
| `ReplayItems.AntigravityNormalForm` | internal/cache/antigravity_reasoning_replay_cache.go:230-306 | the same for thought signatures and function call parts |
| `ReplayItems.CodexKept` | internal/cache/codex_reasoning_replay_cache.go:229-296 | exactly which items are kept, and that call id, name, arguments, input and encrypted content survive |
| `ReplayItems.AntigravityKept` | internal/cache/antigravity_reasoning_replay_cache.go:230-306 | exactly which thought signatures and function call parts are kept, and that signature, name and arguments survive |
| `ReplayItems.PartCallId` | internal/cache/antigravity_reasoning_replay_cache.go:261-280 | the call id of a part is its own, its id, or that of the nested call, the first that is not blank |
| `ReplayItems.IndexesKept` | internal/cache/antigravity_reasoning_replay_cache.go:242-306 | an index that is a number survives as an integer, and nothing else does |
| `SignatureCache.Cache.Put` | internal/cache/signature_cache.go:123-155 | as one operation: only signatures of at least 50 bytes of non-empty texts are stored |
| `SignatureCache.Cache.Get` | internal/cache/signature_cache.go:168-236 | the signature found and refreshed; for a miss skip_thought_signature_validator if the model is of the gemini group, and nothing otherwise |
| `SignatureCache.SharedIff` | internal/cache/signature_cache.go:285-294 | two model names share their signatures if and only if they hold the same first word of gpt, claude and gemini, or are the same name |
| `SignatureCache.StepFinds` | internal/cache/signature_cache.go:123-278 | what a lookup finds after one operation, in terms of what it found before it, with the three hours of the TTL |
| `SignatureCache.Cache.DeleteSignature` | internal/cache/signature_cache.go:252-278 | as one operation: one cell is emptied, and an empty bucket is removed without effect on any cell |
| `SignatureCache.Cache.Clear` | internal/cache/signature_cache.go:239-249 | one group, or all, are cleared |
| `SignatureCache.Cache.Purge` | internal/cache/signature_cache.go:92-110 | as one operation: cell by cell only what has expired is removed, and no empty bucket is left |
| `SignatureCache.LookupFindsLatest` | internal/cache/signature_cache.go:144-236 | over any run of operations that do not overlap, a lookup finds the latest signature unless it was deleted, cleared or idle beyond the TTL |
| `SignatureThreads.StoreIsLost` | internal/cache/signature_cache.go:92-110 | two threads: a purge finds a new bucket empty, a store writes into it, the purge unlinks it, and the stored signature is not found although nothing dropped it |
| `SignatureThreads.ReachableIff` | internal/cache/signature_cache.go:64-110 | for any number of threads and any interleaving, what is written in a bucket is reachable later if and only if the bucket was linked at the write and no thread that had found the group empty, and no clear, has unlinked the group since |
| `SignatureThreads.StaysReachable` | internal/cache/signature_cache.go:92-110 | so it stays reachable whatever the threads do, as long as it is not deleted, expired or cleared, if at the write no thread has still to unlink the group or holds one of its unlinked buckets |
| `SignatureThreads.UnlinkerLoses` | internal/cache/signature_cache.go:104-107 | a thread that has still to unlink the group takes the bucket away with what is in it |
| `SignatureThreads.StaleHolderLoses` | internal/cache/signature_cache.go:261-275 | so does a thread that empties a bucket no longer linked |
| `SignatureThreads.RunAgreesIff` | internal/cache/signature_cache.go:64-278 | a cell is at each point of a run that of one map, if and only if no store writes into an unlinked bucket (other than what the cell holds already) and no bucket is unlinked that has the cell |
| `SignatureThreads.LookupFindsLatest` | internal/cache/signature_cache.go:168-236 | under any number of threads: if every store into the group meets that condition, a lookup finds the latest signature, if and only if it was not deleted, cleared or swept since and never idle beyond the TTL |
| `Failover.Client.EnsureClients` | internal/home/client.go:164-194 | missing connections are made for the current target; it succeeds if and only if the client is enabled, its target usable, and each connection there or its options made, and then both exist |
| `Failover.EnsuredConnects` | internal/home/client.go:164-194 | exactly which connections are made, to which address, and that nothing else changes |
| `Failover.RunConnects` | internal/home/client.go:164-194 | after any run, an enabled client with a usable target that can make both options ends connected to that target |
| `Failover.Client.SwitchToNode` | internal/home/client.go:421-433 | the target moves if and only if the node is usable and differs, and its connections are dropped |
| `Failover.Client.SwitchToNextNode` | internal/home/client.go:477-498 | the first usable and different candidate becomes the target, if there is one |
| `Failover.Client.FailoverAfterReconnectFailure` | internal/home/client.go:442-460 | the third failure in a row leads to an attempt, and the result tells whether the target changed |
| `Failover.Client.FailoverAfterSubscriptionTimeout` | internal/home/client.go:462-475 | a timeout leads to an attempt at once, and the result tells whether the target changed |
| `Failover.Client.RefreshClusterNodes` | internal/home/client.go:350-379 | a usable reply replaces the nodes, resets the counter and moves to its first node; the result tells whether the target changed |
| `Failover.Client.UpdateClusterNodes` | internal/home/client.go:389-401 | a payload replaces the nodes only |
| `Failover.Client.NormalizeClusterNodes` | internal/home/client.go:403-419 | the usable nodes, cleaned and sorted by client count |
| `Failover.RunKeepsInv` | internal/home/client.go:164-194 | on every run cached connections point at the current target, the counter stays below three, and the target is the start address or a usable reported node |
| `Failover.AttemptMoves` | internal/home/client.go:477-498 | an attempt moves the target if and only if a different candidate with a host and a positive port exists; otherwise it changes nothing |
| `Failover.CandidatesAre` | internal/home/client.go:484-490 | the candidates are the nodes known and the address of the start, if that one is usable |
| `Failover.NoneBefore` | internal/home/client.go:491-497 | no usable candidate other than the current target stands before the one chosen |
| `Failover.TimeoutVisits` | internal/home/client.go:462-475 | a timeout leads where one attempt leads, and the count of failures begins anew |
| `Failover.NormalizedExact` | internal/home/client.go:403-419 | what is kept of a list of nodes: exactly those with a host and a positive port, cleaned, the least loaded ones first |
| `Failover.ConsecutiveFailures` | internal/home/client.go:442-460 | k failures in a row from counter r lead to exactly (r + k) / 3 attempts |
| `Failover.TargetFixedWithoutDiscovery` | internal/home/client.go:330-332 | with discovery disabled no run changes the target |
| `Failover.RefreshTakesLeastLoaded` | internal/home/client.go:374-378 | a refresh moves to a usable node of the reply with the fewest clients, and the count of failures begins anew |
| `Failover.VisitsExactly` | internal/home/client.go:477-498 | however often it is tried, failover visits exactly the target it starts from, the first usable candidate, and the first usable one that differs from that |
| `Failover.ReachesAllIff` | internal/home/client.go:477-498 | failover reaches every usable candidate if and only if there is none but these |
| `Failover.FirstTwoAlternate` | internal/home/client.go:484-496 | with two usable candidates it goes back and forth between the first two for good |
| `Failover.FewCandidates` | internal/home/client.go:484-496 | with no usable candidate the target stays; with a single one every attempt leads to it |
| `Failover.FailuresVisit` | internal/home/client.go:442-460 | k failures in a row from counter r make the target the one that (r + k) / 3 attempts lead to |
| `LogDirCleaner.EnforceLimit` | internal/logging/log_dir_cleaner.go:74-156 | a limit of zero or less removes nothing; otherwise the loops compute the pass over the files sorted by age, files of one age in any order |
| `LogDirCleaner.PassEnforces` | internal/logging/log_dir_cleaner.go:140-154 | the rest fits the limit, or nothing removable is left |
| `LogDirCleaner.PassIsFrugal` | internal/logging/log_dir_cleaner.go:136-154 | every removal was needed: without it, and with only the older ones before it, the directory was still over the limit |
| `LogDirCleaner.PassTakesOldest` | internal/logging/log_dir_cleaner.go:136-154 | no removable file that stays is older than one removed |
| `LogDirCleaner.PassDivides` | internal/logging/log_dir_cleaner.go:140-154 | every file is kept or removed, and protected files stay |
| `LogDirCleaner.PassConserves` | internal/logging/log_dir_cleaner.go:140-154 | the sizes of the files kept and of those removed add up to the total |
| `LogDirCleaner.TotalAdds` | internal/logging/log_dir_cleaner.go:124-129 | the total is the sum of the sizes: nothing for no file, its size for one, and it adds up over lists |
| `LogDirCleaner.TotalOfEqual` | internal/logging/log_dir_cleaner.go:124-129 | n files of one size have n times that size |

## Left out

- YamlMeaning.MergeNodeCovers: is about generated trees without aliases and merge keys, which marshalling a configuration never yields; the user's tree may hold them as opaque nodes.
- YamlSave.DeletionsStick: assumes that no key occurs twice at the user's root or under plugins; with a repeated key only the first pair is pruned.
- YamlSave.SaveCovers: is about the prunings and the merge; the removal of legacy sections before them, the block styles set after them and the re-indentation of comments are not modelled.
- YamlFrames.CopyNodeShallow: style, anchor and comments of a node are one constant, as no modelled step writes them.
- YamlSaveInPlace.PruneNestedInPlace: walks the parents by recursion where the source has a loop, one step for each.
- YamlTree.MatchElement: lower-cases ASCII letters only, and an alias equals nothing, since a generated tree has none.
- YamlMatching.PlanIsByToken: says nothing of elements that share an identity with another one of their list; which old element each of those takes follows from YamlMatching.MatchIs, one after the other.
- ClientGuard.StepKeepsInv: a thread has one call at a time; a call that leads to another call of the same client counts as another thread.
- Callbacks.CleanupsRunOnce: a cleanup that panics, or that closes its own context again, is not modelled; ids are unbounded where the counters have 64 bits.
- Callbacks.StreamsCancelledOnce: a stream that is refused because it has no channel is cancelled twice by the source; it never enters the bridge and is not counted.
- Reading of stream chunks: a read that ends a stream is a close by the reading thread.
- Host.Host.ApplyConfig: routes, flags, thinking providers, the removal of old plugin files and log lines are not modelled; loaded plugins are values in the maps where the source has pointers that nothing else holds.
- HostSafety.BusyIffLive: holds between operations; while an unload is shutting clients down the plugin is already reported idle.
- Registrations.RegistrationHost.RegisterExecutors: runs as one step from the snapshot to the commit except that the snapshot may have been replaced meanwhile; registry calls of other parties in between are not modelled, nor are the counts kept inside the registry.
- Registrations.Registry.RegisterClient: the counts per model and per provider that the registry keeps beside its clients are not modelled.
- Executors.SelectModels: assumes distinct plugin ids, which the host guarantees.
- Resp.Reader.ReadArray: white space around a length is trimmed as white space characters, not as UTF-8; what can be allocated is a fixed bound for strings and one for bytes.
- RedisSession.HandleConnection: the writer's buffer never overflows on its own, and the text of a broken connection's error is fixed.
- RedisSession.StreamSubscription: the goroutine that reads ahead is not modelled; commands are taken from the input when they are picked, in the same order, so that the end of the process is logged when the command is picked.
- ReplayCache.Cache.Set: the branches that keep entries in the home's key-value store are left out, in all caches.
- ReplayItems.CodexNormalForm: items are parsed JSON values; parsing and printing JSON are not modelled.
- SignatureCache.Cache.Put: writes at once where the source looks the bucket up first; the steps in between are those of SignatureThreads.
- SignatureCache.Cache.DeleteSignature: unlinks an empty bucket at once; likewise.
- SignatureCache.Cache.Purge: unlinks empty buckets at once; likewise.
- SignatureThreads.StaleHolderLoses: a thread that holds an unlinked bucket with other entries need not lose anything; whether other threads will empty that bucket first is not decided from the state alone.
- Failover.RunKeepsInv: a refresh is one step once the reply has arrived; contacting the node is not modelled.
- LogDirCleaner.EnforceLimit: starts from the log files found; listing the directory is not modelled.
- Sockets, TLS, dynamic libraries, Redis and HTTP clients, the file system, YAML, JSON and hash libraries, config sanitisers, login, management routing and request logging.
