// What applying a configuration does to each plugin: which ones are loaded, replaced and listed.
module HostApply {
  import opened StableSort
  import opened Text
  import opened HostState
  import opened HostSafety

  // ---------- in terms of the state before ----------

  predicate LoadedFrom(clean: Cleaner, s: State, f: PluginFile) {
    f.id in s.loaded && CleanPath(clean, s.loaded[f.id].path) == CleanPath(clean, f.path)
  }

  // The plugin is enabled, and not fused unless the file is to replace what is loaded.
  predicate Considered(clean: Cleaner, s: State, f: PluginFile, items: map<string, Item>) {
    f.id in items && items[f.id].enabled && (f.id !in s.fused || (f.id in s.loaded && !LoadedFrom(clean, s, f)))
  }

  // A client is opened for the file: nothing was loaded from its path, and its library opens.
  predicate Opens(clean: Cleaner, s: State, f: PluginFile, items: map<string, Item>, world: string -> Answer) {
    Considered(clean, s, f, items) && !LoadedFrom(clean, s, f) && world(f.id).opens
  }

  predicate Applied(clean: Cleaner, s: State, f: PluginFile, items: map<string, Item>, world: string -> Answer) {
    Considered(clean, s, f, items) && (LoadedFrom(clean, s, f) || world(f.id).opens)
  }

  // The plugin loaded under the id keeps its path and its client, and nothing is retired.
  predicate SameClient(s: State, r: State, id: string) {
    (id in r.loaded) == (id in s.loaded) &&
    (id in s.loaded ==> r.loaded[id].path == s.loaded[id].path && r.loaded[id].client == s.loaded[id].client) &&
    Retired(r.retired, id) == Retired(s.retired, id)
  }

  // A new client is loaded from the file; the plugin it replaces, if there was one, is retired.
  predicate NewClient(s: State, r: State, f: PluginFile) {
    f.id in r.loaded && r.loaded[f.id].path == f.path && s.clients.count <= r.loaded[f.id].client < r.clients.count &&
    Retired(r.retired, f.id) == Retired(s.retired, f.id) + if f.id in s.loaded then [s.loaded[f.id]] else []
  }

  // What registering makes of the name and version of a plugin: a version that the file gave is kept.
  predicate Labelled(lp: LoadedPlugin, version: string, name: string, registered: bool, registration: Registration) {
    match registration
    case Plugin(given, v) =>
      lp.registered && lp.name == TrimSpace(given) && lp.version == if TrimSpace(version) == "" then TrimSpace(v) else version
    case Unusable => lp.registered && lp.name == name && lp.version == version
    case _ => lp.registered == registered && lp.name == name && lp.version == version
  }

  predicate LabelledFrom(s: State, r: State, f: PluginFile, anew: bool, registration: Registration) {
    f.id in r.loaded &&
    if anew then Labelled(r.loaded[f.id], f.version, "", false, registration)
    else
      f.id in s.loaded &&
      Labelled(r.loaded[f.id], s.loaded[f.id].version, s.loaded[f.id].name, s.loaded[f.id].registered, registration)
  }

  // What becomes of the plugin of file f; listed tells whether it has a record.
  predicate Outcome(clean: Cleaner, s: State, r: State, f: PluginFile, items: map<string, Item>,
                    world: string -> Answer, listed: bool) {
    (listed <==> Applied(clean, s, f, items, world) && world(f.id).registration.Plugin?) &&
    (Applied(clean, s, f, items, world) ==>
      LoadedFrom(clean, r, f) && LabelledFrom(s, r, f, Opens(clean, s, f, items, world), world(f.id).registration)) &&
    (if Opens(clean, s, f, items, world) then NewClient(s, r, f) else SameClient(s, r, f.id)) &&
    (f.id in r.fused <==>
      (Applied(clean, s, f, items, world) && world(f.id).registration.Panicked?)
      || (f.id in s.fused && !Opens(clean, s, f, items, world)))
  }

  // Everything under an id is as before.
  predicate Untouched(s: State, r: State, id: string) {
    (id in r.loaded) == (id in s.loaded) && (id in s.loaded ==> r.loaded[id] == s.loaded[id]) &&
    Retired(r.retired, id) == Retired(s.retired, id) && (id in r.fused) == (id in s.fused)
  }

  // ---------- one turn ----------

  lemma TurnOpens(clean: Cleaner, s: State, file: PluginFile)
    requires NeedsLoad(clean, s, file) && (file.id in s.loaded ==> s.loaded[file.id].id == file.id)
    ensures var r := LoadFile(clean, s, file);
      NewClient(s, r, file) && r.loaded[file.id] == Opened(file, s.clients.count) &&
      r.clients.count == s.clients.count + 1 && r.clients.stops == s.clients.stops &&
      r.loaded[file.id].id == file.id &&
      (file.id in r.fused <==> file.id in s.fused && file.id !in s.loaded) &&
      forall id :: id != file.id ==> Untouched(s, r, id)
  {
  }

  lemma TurnRegisters(s: State, id: string, registration: Registration)
    requires id in s.loaded && s.loaded[id].id == id
    ensures var r := Registered(s, id, registration);
      SameClient(s, r, id) && r.clients == s.clients &&
      Labelled(r.loaded[id], s.loaded[id].version, s.loaded[id].name, s.loaded[id].registered, registration) &&
      (id in r.fused <==> id in s.fused || registration.Panicked?) &&
      forall i :: i != id ==> Untouched(s, r, i)
  {
  }

  lemma TurnOutcome(clean: Cleaner, s: State, file: PluginFile, items: map<string, Item>, world: string -> Answer)
    requires file.id in s.loaded ==> s.loaded[file.id].id == file.id
    ensures var (r, record) := ApplyFile(clean, s, file, ItemOf(items, file.id), world(file.id));
      Outcome(clean, s, r, file, items, world, record.Some?) && r.clients.stops == s.clients.stops &&
      r.clients.count == s.clients.count + (if Opens(clean, s, file, items, world) then 1 else 0) &&
      (record.Some? ==> RecordFor(file, items, world, record.value)) &&
      forall id :: id != file.id ==> Untouched(s, r, id)
  {
    if Applied(clean, s, file, items, world) {
      if NeedsLoad(clean, s, file) {
        TurnOpens(clean, s, file);
        TurnRegisters(LoadFile(clean, s, file), file.id, world(file.id).registration);
      } else {
        TurnRegisters(s, file.id, world(file.id).registration);
      }
    }
  }

  // ---------- the loop ----------

  lemma OutcomeLater(clean: Cleaner, s: State, mid: State, r: State, f: PluginFile, items: map<string, Item>,
                     world: string -> Answer, listed: bool)
    requires Outcome(clean, s, mid, f, items, world, listed) && Untouched(mid, r, f.id) && mid.clients.count <= r.clients.count
    ensures Outcome(clean, s, r, f, items, world, listed)
  {
  }

  lemma OutcomeEarlier(clean: Cleaner, s: State, mid: State, r: State, f: PluginFile, items: map<string, Item>,
                       world: string -> Answer, listed: bool)
    requires Untouched(s, mid, f.id) && s.clients.count <= mid.clients.count && Outcome(clean, mid, r, f, items, world, listed)
    ensures Outcome(clean, s, r, f, items, world, listed)
  {
  }

  function Openers(clean: Cleaner, s: State, files: seq<PluginFile>, items: map<string, Item>,
                   world: string -> Answer): set<PluginFile> {
    set f | f in files && Opens(clean, s, f, items, world)
  }

  // The state before the last turn, and what that turn does
  lemma LastTurn(clean: Cleaner, idOf: string -> string, s: State, files: seq<PluginFile>, items: map<string, Item>,
                 world: string -> Answer)
    returns (mid: State, records: seq<Record>, r: State, record: Option<Record>)
    requires Sound(clean, idOf, s) && GoodFiles(clean, idOf, files) && files != []
    ensures var before, file := files[..|files| - 1], files[|files| - 1];
      GoodFiles(clean, idOf, before) && file.id !in Ids(before) && (forall f :: f in files <==> f in before || f == file) &&
      (mid, records) == ApplyFiles(clean, s, before, items, world) &&
      (forall x :: x in records ==> x.id in Ids(before)) &&
      (r, Listed(records, record)) == ApplyFiles(clean, s, files, items, world) &&
      Outcome(clean, mid, r, file, items, world, record.Some?) && r.clients.stops == mid.clients.stops &&
      r.clients.count == mid.clients.count + (if Opens(clean, mid, file, items, world) then 1 else 0) &&
      (record.Some? ==> RecordFor(file, items, world, record.value)) &&
      forall id :: id != file.id ==> Untouched(mid, r, id)
  {
    var before, file := files[..|files| - 1], files[|files| - 1];
    assert files == before + [file];
    GoodBefore(clean, idOf, files);
    ApplyFilesKeeps(clean, idOf, s, before, items, world);
    var front := ApplyFiles(clean, s, before, items, world);
    mid, records := front.0, front.1;
    TurnOutcome(clean, mid, file, items, world);
    var last := ApplyFile(clean, mid, file, ItemOf(items, file.id), world(file.id));
    r, record := last.0, last.1;
  }

  // The last turn leaves everything under another id as it is, and adds no record of another id.
  lemma LastElsewhere(clean: Cleaner, idOf: string -> string, s: State, files: seq<PluginFile>, items: map<string,
                      Item>,
                      world: string -> Answer, id: string) returns (mid: State, records: seq<Record>)
    requires Sound(clean, idOf, s) && GoodFiles(clean, idOf, files) && files != [] && id !in Ids(files)
    ensures var (r, all) := ApplyFiles(clean, s, files, items, world);
      GoodFiles(clean, idOf, files[..|files| - 1]) && id !in Ids(files[..|files| - 1]) &&
      (mid, records) == ApplyFiles(clean, s, files[..|files| - 1], items, world) &&
      Untouched(mid, r, id) && mid.clients.count <= r.clients.count && forall x :: x in all && x.id == id ==> x in records
  {
    var r, record;
    mid, records, r, record := LastTurn(clean, idOf, s, files, items, world);
    assert files[|files| - 1].id in Ids(files);
    assert forall f :: f in files[..|files| - 1] ==> f in files;
  }

  lemma UntouchedTwice(s: State, mid: State, r: State, id: string)
    requires Untouched(s, mid, id) && Untouched(mid, r, id)
    ensures Untouched(s, r, id)
  {
  }

  // Under an id that no file has, nothing changes.
  lemma {:induction false} OthersUntouched(clean: Cleaner, idOf: string -> string, s: State, files: seq<PluginFile>,
                                           items: map<string, Item>, world: string -> Answer, id: string)
    requires Sound(clean, idOf, s) && GoodFiles(clean, idOf, files) && id !in Ids(files)
    ensures var (r, records) := ApplyFiles(clean, s, files, items, world);
      Untouched(s, r, id) && s.clients.count <= r.clients.count && forall x :: x in records ==> x.id != id
  {
    if files != [] {
      var mid, records := LastElsewhere(clean, idOf, s, files, items, world, id);
      OthersUntouched(clean, idOf, s, files[..|files| - 1], items, world, id);
      UntouchedTwice(s, mid, ApplyFiles(clean, s, files, items, world).0, id);
    }
  }

  lemma {:induction false} ClientsCounted(clean: Cleaner, idOf: string -> string, s: State, files: seq<PluginFile>,
                                          items: map<string, Item>, world: string -> Answer)
    requires Sound(clean, idOf, s) && GoodFiles(clean, idOf, files)
    ensures var r := ApplyFiles(clean, s, files, items, world).0;
      r.clients.count == s.clients.count + |Openers(clean, s, files, items, world)| && r.clients.stops == s.clients.stops
  {
    if files != [] {
      var before, file := files[..|files| - 1], files[|files| - 1];
      var mid, records, r, record := LastTurn(clean, idOf, s, files, items, world);
      ClientsCounted(clean, idOf, s, before, items, world);
      OthersUntouched(clean, idOf, s, before, items, world, file.id);
      OpenersMore(clean, s, files, items, world);
    } else {
      assert Openers(clean, s, files, items, world) == {};
    }
  }

  lemma OpenersMore(clean: Cleaner, s: State, files: seq<PluginFile>, items: map<string, Item>, world: string -> Answer)
    requires files != [] && files[|files| - 1].id !in Ids(files[..|files| - 1])
    ensures |Openers(clean, s, files, items, world)| ==
      |Openers(clean, s, files[..|files| - 1], items, world)| + if Opens(clean, s, files[|files| - 1], items, world) then 1 else 0
  {
    var before, file := files[..|files| - 1], files[|files| - 1];
    assert files == before + [file];
    var first, all := Openers(clean, s, before, items, world), Openers(clean, s, files, items, world);
    assert file !in first;
    assert all == if Opens(clean, s, file, items, world) then first + {file} else first;
  }

  // A record for the id is among them.
  ghost predicate HasRecord(records: seq<Record>, id: string) {
    exists x :: x in records && x.id == id
  }

  ghost predicate RecordsFor(records: seq<Record>, f: PluginFile, items: map<string, Item>, world: string -> Answer) {
    forall x :: x in records && x.id == f.id ==> RecordFor(f, items, world, x)
  }

  // Every file has its outcome, whatever the other files are.
  lemma {:induction false} FilesOutcome(clean: Cleaner, idOf: string -> string, s: State, files: seq<PluginFile>,
                                        items: map<string, Item>, world: string -> Answer, f: PluginFile)
    requires Sound(clean, idOf, s) && GoodFiles(clean, idOf, files) && f in files
    ensures var (r, records) := ApplyFiles(clean, s, files, items, world);
      Outcome(clean, s, r, f, items, world, HasRecord(records, f.id)) && RecordsFor(records, f, items, world)
  {
    var before, file := files[..|files| - 1], files[|files| - 1];
    var mid, records, r, record := LastTurn(clean, idOf, s, files, items, world);
    if f == file {
      OthersUntouched(clean, idOf, s, before, items, world, f.id);
      LastFile(clean, s, mid, records, r, record, f, items, world);
    } else {
      FilesOutcome(clean, idOf, s, before, items, world, f);
      assert f.id in Ids(before);
      EarlierFile(clean, s, mid, records, r, record, file, f, items, world);
    }
  }

  lemma LastFile(clean: Cleaner, s: State, mid: State, records: seq<Record>, r: State, record: Option<Record>,
                 f: PluginFile, items: map<string, Item>, world: string -> Answer)
    requires Untouched(s, mid, f.id) && s.clients.count <= mid.clients.count && forall x :: x in records ==> x.id != f.id
    requires Outcome(clean, mid, r, f, items, world, record.Some?)
    requires record.Some? ==> RecordFor(f, items, world, record.value)
    ensures Outcome(clean, s, r, f, items, world, HasRecord(Listed(records, record), f.id))
    ensures RecordsFor(Listed(records, record), f, items, world)
  {
    OutcomeEarlier(clean, s, mid, r, f, items, world, record.Some?);
    if record.Some? {
      assert record.value in Listed(records, record);
    }
  }

  lemma EarlierFile(clean: Cleaner, s: State, mid: State, records: seq<Record>, r: State, record: Option<Record>,
                    file: PluginFile, f: PluginFile, items: map<string, Item>, world: string -> Answer)
    requires Outcome(clean, s, mid, f, items, world, HasRecord(records, f.id)) && RecordsFor(records, f, items, world)
    requires f.id != file.id && Untouched(mid, r, f.id) && mid.clients.count <= r.clients.count
    requires record.Some? ==> RecordFor(file, items, world, record.value)
    ensures Outcome(clean, s, r, f, items, world, HasRecord(Listed(records, record), f.id))
    ensures RecordsFor(Listed(records, record), f, items, world)
  {
    OutcomeLater(clean, s, mid, r, f, items, world, HasRecord(records, f.id));
    assert forall x :: x in Listed(records, record) && x.id == f.id <==> x in records && x.id == f.id;
  }

  // ---------- the operation ----------

  // The files that a configuration applies: those selected, and those of plugins that stay loaded.
  function FilesOf(s: State, config: Config): seq<PluginFile>
    requires config.selection.Some?
  {
    WithFallbacks(s.loaded, config.selection.value, config.items, config.desired)
  }

  lemma NoFallbackYet(files: seq<PluginFile>, all: seq<PluginFile>, id: string)
    requires files <= all && forall f :: f in files ==> ValidId(f.id)
    ensures id in Selected(files, all) <==> id in Ids(all)
  {
    assert all == files + all[|files|..];
  }

  // A plugin without a file stays selected exactly when it has a desired version, is not disabled, and is loaded.
  lemma {:induction false} FallbackIff(clean: Cleaner, idOf: string -> string, s: State, files: seq<PluginFile>,
                                       items: map<string, Item>, desired: seq<string>, id: string)
    requires Sound(clean, idOf, s) && GoodFiles(clean, idOf, files)
    ensures id in Ids(WithFallbacks(s.loaded, files, items, desired)) <==>
      id in Ids(files)
      || (id in desired && id in s.loaded && TrimSpace(s.loaded[id].path) != "" && (id in items ==> items[id].enabled))
  {
    if desired != [] {
      var init, last := desired[..|desired| - 1], desired[|desired| - 1];
      assert desired == init + [last];
      FallbackIff(clean, idOf, s, files, items, init, id);
      FallbacksGood(clean, idOf, s, files, items, init);
      var before := WithFallbacks(s.loaded, files, items, init);
      NoFallbackYet(files, before, last);
      if FallsBack(s.loaded, Selected(files, before), items, last) {
        assert Ids(before + [Fallback(s.loaded[last], last)]) == Ids(before) + {last};
      }
    }
  }

  // What is added comes from where the plugin is loaded.
  lemma {:induction false} FallbackFiles(loaded: map<string, LoadedPlugin>, files: seq<PluginFile>,
                                         items: map<string, Item>,
                                         desired: seq<string>, f: PluginFile)
    requires f in WithFallbacks(loaded, files, items, desired)
    ensures f in files || (f.id in loaded && f == PluginFile(f.id, loaded[f.id].path, TrimSpace(loaded[f.id].version)))
  {
    if desired != [] && f in WithFallbacks(loaded, files, items, desired[..|desired| - 1]) {
      FallbackFiles(loaded, files, items, desired[..|desired| - 1], f);
    }
  }

  lemma SortHasRecord(records: seq<Record>, id: string)
    requires DistinctIds(records)
    ensures HasRecord(SortRecords(records), id) <==> HasRecord(records, id)
  {
    SortKeeps(records);
  }

  // For every file: whether its plugin is listed, from where it is loaded, which client it has and which one is retired.
  lemma ConfigOutcome(clean: Cleaner, idOf: string -> string, s: State, config: Config, world: string -> Answer,
                      f: PluginFile)
    requires Inv(clean, idOf, s) && config.enabled && config.selection.Some? && GoodFiles(clean, idOf, config.selection.value)
    requires f in FilesOf(s, config)
    ensures var r := ApplyConfig(clean, s, config, world);
      Outcome(clean, s, r, f, config.items, world, HasRecord(r.snapshot.records, f.id)) &&
      RecordsFor(r.snapshot.records, f, config.items, world)
  {
    var files := FilesOf(s, config);
    FallbacksGood(clean, idOf, s, config.selection.value, config.items, config.desired);
    FilesOutcome(clean, idOf, s, files, config.items, world, f);
    ApplyFilesKeeps(clean, idOf, s, files, config.items, world);
    var (after, records) := ApplyFiles(clean, s, files, config.items, world);
    SortHasRecord(records, f.id);
    SortKeeps(records);
    OutcomeLater(clean, s, after, ApplyConfig(clean, s, config, world), f, config.items, world, HasRecord(records, f.id));
  }

  // A plugin without a file keeps its client and has no record; one client is opened for each file that opens one, and
  // none is shut down.
  lemma ConfigOthers(clean: Cleaner, idOf: string -> string, s: State, config: Config, world: string -> Answer,
                     id: string)
    requires Inv(clean, idOf, s) && config.enabled && config.selection.Some? && GoodFiles(clean, idOf, config.selection.value)
    ensures var r := ApplyConfig(clean, s, config, world);
      r.clients.count == s.clients.count + |Openers(clean, s, FilesOf(s, config), config.items, world)| &&
      r.clients.stops == s.clients.stops && r.snapshot.enabled &&
      (id !in Ids(FilesOf(s, config)) ==> Untouched(s, r, id) && !HasRecord(r.snapshot.records, id))
  {
    var files := FilesOf(s, config);
    FallbacksGood(clean, idOf, s, config.selection.value, config.items, config.desired);
    ClientsCounted(clean, idOf, s, files, config.items, world);
    if id !in Ids(files) {
      OthersUntouched(clean, idOf, s, files, config.items, world, id);
      ApplyFilesKeeps(clean, idOf, s, files, config.items, world);
      SortHasRecord(ApplyFiles(clean, s, files, config.items, world).1, id);
    }
  }

  // A plugin is listed after an operation if and only if plugins are enabled and it has a file, is enabled, is not
  // fused or is replaced, is loaded from there already or opens, and registers as a plugin.
  lemma ListedIff(clean: Cleaner, idOf: string -> string, s: State, config: Config, world: string -> Answer, id: string)
    requires Inv(clean, idOf, s) && (config.selection.Some? ==> GoodFiles(clean, idOf, config.selection.value))
    ensures HasRecord(ApplyConfig(clean, s, config, world).snapshot.records, id) <==>
      config.enabled && config.selection.Some? &&
      exists f :: f in FilesOf(s, config) && f.id == id && id in config.items && config.items[id].enabled &&
        (id !in s.fused || (id in s.loaded && CleanPath(clean, s.loaded[id].path) != CleanPath(clean, f.path))) &&
        ((id in s.loaded && CleanPath(clean, s.loaded[id].path) == CleanPath(clean, f.path)) || world(id).opens) &&
        world(id).registration.Plugin?
  {
    if config.enabled && config.selection.Some? {
      ConfigOthers(clean, idOf, s, config, world, id);
      forall f | f in FilesOf(s, config) && f.id == id
        ensures HasRecord(ApplyConfig(clean, s, config, world).snapshot.records, id) <==>
          Applied(clean, s, f, config.items, world) && world(id).registration.Plugin?
      {
        ConfigOutcome(clean, idOf, s, config, world, f);
      }
    }
  }

  // ---------- unloading ----------

  lemma UnloadTouches(clean: Cleaner, s: State, id: string, r: State)
    requires TrimSpace(id) == id != "" && Targets(s, id) != [] && r == Unload(clean, s, id)
    ensures id !in r.loaded && id !in r.retired && id !in r.fused && r.clients.count == s.clients.count
    ensures forall other :: other != id ==> Untouched(s, r, other)
    ensures r.snapshot == Snapshot(s.snapshot.enabled, Without(s.snapshot.records, id))
  {
  }

  // An unload takes away everything under its id, the record included, and nothing else.
  lemma UnloadOutcome(clean: Cleaner, idOf: string -> string, s: State, rawId: string)
    requires Inv(clean, idOf, s)
    ensures var r, id := Unload(clean, s, rawId), TrimSpace(rawId);
      if id == "" || (id !in s.loaded && Retired(s.retired, id) == []) then r == s
      else
        id !in r.loaded && id !in r.retired && id !in r.fused && r.clients.count == s.clients.count &&
        (forall other :: other != id ==> Untouched(s, r, other)) && r.snapshot.enabled == s.snapshot.enabled &&
        (forall x :: x in r.snapshot.records <==> x in s.snapshot.records && x.id != id)
  {
    var id := TrimSpace(rawId);
    TrimTwice(rawId);
    if id != "" && Targets(s, id) != [] {
      assert Unload(clean, s, rawId) == Unload(clean, s, id);
      UnloadTouches(clean, s, id, Unload(clean, s, id));
      WithoutKeeps(s.snapshot.records, id);
    }
  }
}
