// The plugin host as an object: its operations update the maps in place, one file or one plugin at a time.
module Host {
  import opened Text
  import opened HostState
  import opened HostSafety

  class Host {
    const clean: Cleaner
    // the id in the name of a plugin file
    ghost const idOf: string -> string

    var loaded: map<string, LoadedPlugin>
    var retired: map<string, seq<LoadedPlugin>>
    var loading: set<string>
    var fused: set<string>
    var pluginFileVersions: map<string, string>
    var activePluginVersions: map<string, string>
    var activePluginPaths: map<string, string>
    var snapshot: Snapshot
    // numbers the clients in the order of their opening
    var clientCount: nat
    ghost var stops: multiset<Client>
    ghost var home: map<Client, Home>

    constructor (clean: Cleaner, ghost idOf: string -> string)
      ensures State() == Start() && this.clean == clean && this.idOf == idOf
    {
      this.clean, this.idOf := clean, idOf;
      loaded, retired, loading, fused := map[], map[], {}, {};
      pluginFileVersions, activePluginVersions, activePluginPaths := map[], map[], map[];
      snapshot := Snapshot(false, []);
      clientCount, stops, home := 0, multiset{}, map[];
    }

    ghost function Identities(): Identities
      reads this
    {
      HostState.Identities(pluginFileVersions, activePluginVersions, activePluginPaths)
    }

    ghost function State(): State
      reads this
    {
      HostState.State(loaded, retired, loading, fused, Identities(), snapshot, Clients(clientCount, stops, home))
    }

    // What holds between operations
    ghost predicate Valid()
      reads this
    {
      Inv(clean, idOf, State())
    }

    // ---------- queries ----------

    method PluginBusy(rawId: string) returns (busy: bool)
      ensures busy == HostState.PluginBusy(State(), rawId)
    {
      var id := TrimSpace(rawId);
      if id == "" {
        return false;
      }
      busy := id in loaded || (id in retired && |retired[id]| > 0) || id in loading;
    }

    method PluginIdentityCurrent(rawId: string, rawPath: string, rawVersion: string) returns (current: bool)
      ensures current == IdentityCurrent(clean, Identities(), rawId, rawPath, rawVersion)
    {
      var version, id := TrimSpace(rawVersion), TrimSpace(rawId);
      if id == "" {
        return false;
      }
      var path := CleanPath(clean, rawPath);
      if path == "" || Get(activePluginPaths, id) != path {
        return false;
      }
      if path !in pluginFileVersions || pluginFileVersions[path] != version {
        return false;
      }
      current := Get(activePluginVersions, id) == version;
    }

    // ---------- ApplyConfig ----------

    method RebuildActivePluginMaps(records: seq<Record>)
      modifies `pluginFileVersions, `activePluginVersions, `activePluginPaths
      ensures Identities() == Rebuilt(clean, records)
    {
      pluginFileVersions, activePluginVersions, activePluginPaths := map[], map[], map[];
      for i := 0 to |records|
        invariant Identities() == Rebuilt(clean, records[..i])
      {
        var record := records[i];
        assert records[..i + 1][..i] == records[..i];
        var id, path := TrimSpace(record.id), CleanPath(clean, record.path);
        if id != "" && path != "" {
          pluginFileVersions := pluginFileVersions[path := TrimSpace(record.version)];
          activePluginVersions := activePluginVersions[id := TrimSpace(record.version)];
          activePluginPaths := activePluginPaths[id := path];
        }
      }
      assert records[..|records|] == records;
    }

    method WithLoadedPluginFallbacks(files: seq<PluginFile>, items: map<string, Item>, desired: seq<string>)
      returns (all: seq<PluginFile>)
      ensures all == WithFallbacks(loaded, files, items, desired)
    {
      all := files;
      if |desired| == 0 {
        return;
      }
      var selected := set f | f in files && TrimSpace(f.id) != "" :: TrimSpace(f.id);
      assert Ids([]) == {};
      for i := 0 to |desired|
        invariant files <= all == WithFallbacks(loaded, files, items, desired[..i])
        invariant selected == Selected(files, all)
      {
        assert desired[..i + 1][..i] == desired[..i];
        all, selected := AddFallback(files, items, desired[i], all, selected);
      }
      assert desired[..|desired|] == desired;
    }

    // One turn of that loop
    method AddFallback(files: seq<PluginFile>, items: map<string, Item>, id: string, all: seq<PluginFile>, selected: set<string>)
      returns (more: seq<PluginFile>, nowSelected: set<string>)
      requires files <= all && selected == Selected(files, all)
      ensures more == if FallsBack(loaded, selected, items, id) then all + [Fallback(loaded[id], id)] else all
      ensures nowSelected == Selected(files, more)
    {
      more, nowSelected := all, selected;
      if id !in selected && !(id in items && !items[id].enabled) && id in loaded && TrimSpace(loaded[id].path) != "" {
        var file := PluginFile(id, loaded[id].path, TrimSpace(loaded[id].version));
        assert (all + [file])[|files|..] == all[|files|..] + [file];
        assert Ids(all[|files|..] + [file]) == Ids(all[|files|..]) + {id};
        more, nowSelected := all + [file], selected + {id};
      }
    }

    // The loaded plugin gives way to the one that replaces it: it is retired, and its id is no longer fused.
    method RetireLoadedPlugin(id: string)
      requires id in loaded
      modifies `loaded, `retired, `fused, `home
      ensures State() == RetireLoaded(old(State()), id)
    {
      var lp := loaded[id];
      retired := retired[lp.id := (if lp.id in retired then retired[lp.id] else []) + [lp]];
      fused := fused - {id};
      loaded := loaded - {id};
      home := home[lp.client := InRetired(lp.id)];
    }

    // The loading part of a turn: ok tells that the plugin is loaded
    method Load(file: PluginFile, opens: bool) returns (ok: bool)
      requires NeedsLoad(clean, State(), file) && file.id !in loading
      modifies this
      ensures ok == opens
      ensures State() == if opens then LoadFile(clean, old(State()), file) else old(State())
    {
      loading := loading + {file.id};
      ok := opens;
      loading := loading - {file.id};
      if !ok {
        return;
      }
      if file.id in loaded {
        RetireLoadedPlugin(file.id);
      }
      loaded := loaded[file.id := LoadedPlugin(file.id, file.path, file.version, "", false, clientCount)];
      home := home[clientCount := InLoaded(file.id)];
      clientCount := clientCount + 1;
    }

    // callRegister, and what the loop does with its result
    method Register(id: string, registration: Registration) returns (okCall: bool)
      requires id in loaded
      modifies this
      ensures okCall == registration.Plugin?
      ensures State() == Registered(old(State()), id, registration)
    {
      var lp := loaded[id];
      match registration
      case Panicked =>
        fused := fused + {lp.id};
        okCall := false;
      case NotCalled => okCall := false;
      case Unusable =>
        loaded := loaded[id := lp.(registered := true)];
        okCall := false;
      case Plugin(name, version) =>
        lp := lp.(registered := true, name := TrimSpace(name));
        if TrimSpace(lp.version) == "" {
          lp := lp.(version := TrimSpace(version));
        }
        loaded := loaded[id := lp];
        okCall := true;
    }

    // One turn of the loop over the files
    method ApplyFile(file: PluginFile, item: Item, answer: Answer) returns (record: Option<Record>)
      requires file.id !in loading
      modifies this
      ensures (State(), record) == HostState.ApplyFile(clean, old(State()), file, item, answer)
    {
      if !item.enabled {
        return None;
      }
      var replaced := file.id in loaded && CleanPath(clean, loaded[file.id].path) != CleanPath(clean, file.path);
      if file.id in fused && !replaced {
        return None;
      }
      if file.id !in loaded || replaced {
        var ok := Load(file, answer.opens);
        if !ok {
          return None;
        }
      }
      var okCall := Register(file.id, answer.registration);
      record := if okCall then Some(Record(file.id, file.path, file.version, item.priority, answer.registration.name)) else None;
    }

    method ApplyFiles(files: seq<PluginFile>, items: map<string, Item>, world: string -> Answer)
      returns (records: seq<Record>)
      requires loading == {}
      modifies this
      ensures (State(), records) == HostState.ApplyFiles(clean, old(State()), files, items, world)
      ensures loading == {}
    {
      records := [];
      for i := 0 to |files|
        invariant (State(), records) == HostState.ApplyFiles(clean, old(State()), files[..i], items, world)
        invariant loading == {}
      {
        var file := files[i];
        assert files[..i + 1][..i] == files[..i];
        var record := ApplyFile(file, if file.id in items then items[file.id] else Item(false, 0), world(file.id));
        if record.Some? {
          records := records + [record.value];
        }
      }
      assert files[..|files|] == files;
    }

    method ApplyConfig(config: Config, world: string -> Answer)
      requires Valid()
      requires config.selection.Some? ==> GoodFiles(clean, idOf, config.selection.value)
      modifies this
      ensures Valid() && State() == HostState.ApplyConfig(clean, old(State()), config, world)
    {
      ApplyConfigKeeps(clean, idOf, State(), config, world);
      if !config.enabled || config.selection.None? {
        RebuildActivePluginMaps([]);
        snapshot := Snapshot(false, []);
        return;
      }
      var files := WithLoadedPluginFallbacks(config.selection.value, config.items, config.desired);
      var records := ApplyFiles(files, config.items, world);
      var sorted := HostState.SortRecords(records);
      RebuildActivePluginMaps(sorted);
      snapshot := Snapshot(true, sorted);
    }

    // ---------- UnloadPlugin and ShutdownAll ----------

    method SnapshotWithoutPlugin(id: string) returns (records: seq<Record>)
      ensures records == Without(snapshot.records, id)
    {
      records := [];
      for i := 0 to |snapshot.records|
        invariant records == Without(snapshot.records[..i], id)
      {
        assert snapshot.records[..i + 1][..i] == snapshot.records[..i];
        if snapshot.records[i].id != id {
          records := records + [snapshot.records[i]];
        }
      }
      assert snapshot.records[..|snapshot.records|] == snapshot.records;
    }

    // Shutdown of the guarded clients, one after the other
    method ShutdownClients(targets: seq<Client>)
      requires forall c :: c in targets ==> c in home
      modifies `stops, `home
      ensures Clients(clientCount, stops, home) == StopAll(old(Clients(clientCount, stops, home)), targets)
    {
      assert home == map x | x in home :: if x in targets[..0] then Stopped else home[x];
      for i := 0 to |targets|
        invariant stops == old(stops) + multiset(targets[..i])
        invariant home == map x | x in old(home) :: if x in targets[..i] then Stopped else old(home)[x]
      {
        assert targets[..i + 1] == targets[..i] + [targets[i]];
        stops, home := stops + multiset{targets[i]}, home[targets[i] := Stopped];
      }
      assert targets[..|targets|] == targets;
    }

    method UnloadTargets(id: string) returns (targets: seq<LoadedPlugin>)
      ensures targets == Targets(State(), id)
    {
      targets := if id in loaded then [loaded[id]] else [];
      if id in retired {
        var list := retired[id];
        for i := 0 to |list|
          invariant targets == (if id in loaded then [loaded[id]] else []) + list[..i]
        {
          targets := targets + [list[i]];
        }
      }
    }

    method UnloadPlugin(rawId: string) returns (done: bool)
      requires Valid()
      modifies this
      ensures State() == Unload(clean, old(State()), rawId)
      ensures done == (TrimSpace(rawId) != "" && Targets(old(State()), TrimSpace(rawId)) != [])
    {
      var id := TrimSpace(rawId);
      TrimTwice(rawId);
      if id == "" {
        return false;
      }
      var targets := UnloadTargets(id);
      if |targets| == 0 {
        return false;
      }
      UnloadFound(id, targets);
      done := true;
    }

    method UnloadFound(id: string, targets: seq<LoadedPlugin>)
      requires Valid() && targets == Targets(State(), id) && targets != [] && id != "" && TrimSpace(id) == id
      modifies this
      ensures State() == Unload(clean, old(State()), id)
    {
      TargetsAtHome(State(), id);
      ghost var s := State();
      Forget(id, targets);
      ShutdownClients(ClientsOf(targets));
      UnloadIs(clean, s, id, State());
    }

    // Takes a plugin out of every map and out of the snapshot.
    method Forget(id: string, targets: seq<LoadedPlugin>)
      modifies `loaded, `retired, `fused, `pluginFileVersions, `activePluginVersions, `activePluginPaths, `snapshot
      ensures loaded == old(loaded) - {id} && retired == old(retired) - {id} && fused == old(fused) - {id}
      ensures Identities() == Forgotten(old(Identities()), id, CleanPaths(clean, targets))
      ensures snapshot == old(snapshot).(records := Without(old(snapshot).records, id))
    {
      loaded, retired, fused := loaded - {id}, retired - {id}, fused - {id};
      activePluginVersions, activePluginPaths := activePluginVersions - {id}, activePluginPaths - {id};
      ForgetPaths(targets);
      var records := SnapshotWithoutPlugin(id);
      snapshot := Snapshot(snapshot.enabled, records);
    }

    method ForgetPaths(targets: seq<LoadedPlugin>)
      modifies `pluginFileVersions
      ensures pluginFileVersions == old(pluginFileVersions) - CleanPaths(clean, targets)
    {
      assert CleanPaths(clean, targets[..0]) == {};
      for i := 0 to |targets|
        invariant pluginFileVersions == old(pluginFileVersions) - CleanPaths(clean, targets[..i])
      {
        assert targets[..i + 1] == targets[..i] + [targets[i]];
        assert CleanPaths(clean, targets[..i + 1]) == CleanPaths(clean, targets[..i]) + {CleanPath(clean, targets[i].path)};
        pluginFileVersions := pluginFileVersions - {CleanPath(clean, targets[i].path)};
      }
      assert targets[..|targets|] == targets;
    }

    // The clients of all loaded plugins, in the map's own order
    method LoadedTargets() returns (targets: seq<Client>)
      requires Valid()
      ensures Gathered(home, false, loaded.Keys, targets)
    {
      targets := [];
      var ids := loaded.Keys;
      while ids != {}
        invariant ids <= loaded.Keys && Gathered(home, false, loaded.Keys - ids, targets)
      {
        var id :| id in ids;
        assert forall c: Client :: c in [loaded[id].client] <==> IsAt(home, c, Place(false, id));
        GatherMore(home, false, loaded.Keys - ids, targets, id, [loaded[id].client]);
        assert loaded.Keys - ids + {id} == loaded.Keys - (ids - {id});
        targets, ids := targets + [loaded[id].client], ids - {id};
      }
      assert loaded.Keys - {} == loaded.Keys;
    }

    method RetiredTargets() returns (targets: seq<Client>)
      requires Valid()
      ensures Gathered(home, true, retired.Keys, targets)
    {
      targets := [];
      var ids := retired.Keys;
      while ids != {}
        invariant ids <= retired.Keys && Gathered(home, true, retired.Keys - ids, targets)
      {
        var id :| id in ids;
        assert forall c: Client :: c in ClientsOf(retired[id]) <==> IsAt(home, c, InRetired(id));
        GatherMore(home, true, retired.Keys - ids, targets, id, ClientsOf(retired[id]));
        assert retired.Keys - ids + {id} == retired.Keys - (ids - {id});
        targets, ids := targets + ClientsOf(retired[id]), ids - {id};
      }
      assert retired.Keys - {} == retired.Keys;
    }

    method ShutdownAll() returns (ghost targets: seq<Client>)
      requires Valid()
      modifies this
      ensures AllTargets(old(State()), targets) && State() == HostState.ShutdownAll(old(State()), targets)
    {
      var first := LoadedTargets();
      var rest := RetiredTargets();
      targets := first + rest;
      GatheredAll(State(), first, rest);
      Clear();
      ShutdownClients(first + rest);
    }

    method Clear()
      modifies `loaded, `retired, `loading, `pluginFileVersions, `activePluginVersions, `activePluginPaths, `snapshot
      ensures loaded == map[] && retired == map[] && loading == {}
      ensures Identities() == NONE && snapshot == Snapshot(false, [])
    {
      loaded, retired, loading := map[], map[], {};
      pluginFileVersions, activePluginVersions, activePluginPaths := map[], map[], map[];
      snapshot := Snapshot(false, []);
    }
  }

  // An unload, field by field
  lemma UnloadIs(clean: Cleaner, s: State, id: string, r: State)
    requires TrimSpace(id) == id != "" && Targets(s, id) != []
    requires r == s.(loaded := s.loaded - {id}, retired := s.retired - {id}, fused := s.fused - {id},
                     identities := Forgotten(s.identities, id, CleanPaths(clean, Targets(s, id))),
                     snapshot := s.snapshot.(records := Without(s.snapshot.records, id)),
                     clients := StopAll(s.clients, ClientsOf(Targets(s, id))))
    ensures r == Unload(clean, s, id)
  {
  }
}
