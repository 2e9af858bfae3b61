// What every operation of the plugin host keeps, and what therefore holds after any run of them.
module HostSafety {
  import opened StableSort
  import opened Text
  import opened HostState

  // ---------- the invariant ----------

  predicate IsAt(home: map<Client, Home>, c: Client, h: Home) {
    c in home && home[c] == h
  }

  // Every client opened is at one place, and shut down once exactly when it is stopped.
  ghost predicate ClientsInv(loaded: map<string, LoadedPlugin>, retired: map<string, seq<LoadedPlugin>>, c: Clients) {
    (forall x: Client :: x in c.home <==> x < c.count) &&
    (forall x: Client, id: string :: IsAt(c.home, x, InLoaded(id)) <==> id in loaded && loaded[id].client == x) &&
    (forall x: Client, id: string :: IsAt(c.home, x, InRetired(id)) <==> id in retired && x in ClientsOf(retired[id])) &&
    (forall x: Client :: c.stops[x] == if IsAt(c.home, x, Stopped) then 1 else 0) &&
    (forall id: string :: id in retired ==> Distinct(ClientsOf(retired[id])))
  }

  // What a plugin id is: not empty, and without space around it
  predicate ValidId(id: string) {
    id != "" && TrimSpace(id) == id
  }

  // The id of a plugin is part of its file name; idOf reads it from a cleaned path.
  predicate Named(clean: Cleaner, idOf: string -> string, path: string, id: string) {
    ValidId(id) && (CleanPath(clean, path) != "" ==> idOf(CleanPath(clean, path)) == id)
  }

  ghost predicate NamedInv(clean: Cleaner, idOf: string -> string, loaded: map<string, LoadedPlugin>,
                           retired: map<string, seq<LoadedPlugin>>)
  {
    (forall id :: id in loaded ==> loaded[id].id == id && Named(clean, idOf, loaded[id].path, id)) &&
    (forall id, lp :: id in retired && lp in retired[id] ==> lp.id == id && Named(clean, idOf, lp.path, id))
  }

  predicate DistinctIds(records: seq<Record>) {
    forall i, j :: 0 <= i < j < |records| ==> records[i].id != records[j].id
  }

  // The record of a plugin that is loaded from the record's path
  predicate Backed(clean: Cleaner, loaded: map<string, LoadedPlugin>, r: Record) {
    r.id in loaded && CleanPath(clean, loaded[r.id].path) == CleanPath(clean, r.path)
  }

  ghost predicate RecordsInv(clean: Cleaner, loaded: map<string, LoadedPlugin>, records: seq<Record>) {
    DistinctIds(records) && forall r :: r in records ==> Backed(clean, loaded, r)
  }

  ghost predicate Inv(clean: Cleaner, idOf: string -> string, s: State) {
    ClientsInv(s.loaded, s.retired, s.clients) &&
    NamedInv(clean, idOf, s.loaded, s.retired) &&
    RecordsInv(clean, s.loaded, s.snapshot.records) &&
    s.identities == Rebuilt(clean, s.snapshot.records) &&
    s.loading == {}
  }

  // ---------- what the callers provide ----------

  // A selected file carries the id that its file name gives.
  predicate GoodFiles(clean: Cleaner, idOf: string -> string, files: seq<PluginFile>) {
    (forall f :: f in files ==> Named(clean, idOf, f.path, f.id)) &&
    forall i, j :: 0 <= i < j < |files| ==> files[i].id != files[j].id
  }

  ghost predicate Allowed(clean: Cleaner, idOf: string -> string, s: State, op: Op) {
    match op
    case Apply(config, _) => config.selection.Some? ==> GoodFiles(clean, idOf, config.selection.value)
    case ShuttingDown(targets) => AllTargets(s, targets)
    case _ => true
  }

  // ---------- clients ----------

  lemma OpenKeeps(s: State, file: PluginFile)
    requires ClientsInv(s.loaded, s.retired, s.clients) && file.id !in s.loaded
    ensures var r := Loaded(s, file); ClientsInv(r.loaded, r.retired, r.clients)
  {
    var r, x := Loaded(s, file), s.clients.count;
    forall c: Client, h: Home
      ensures IsAt(r.clients.home, c, h) <==> if c == x then h == InLoaded(file.id) else IsAt(s.clients.home, c, h)
    {
    }
    assert x !in s.clients.home;
    forall id | id in s.retired ensures x !in ClientsOf(s.retired[id]) {
      assert !IsAt(s.clients.home, x, InRetired(id));
    }
    forall id | id in s.loaded ensures s.loaded[id].client != x {
      assert !IsAt(s.clients.home, x, InLoaded(id));
    }
  }

  lemma RetireKeeps(s: State, id: string)
    requires ClientsInv(s.loaded, s.retired, s.clients) && id in s.loaded && s.loaded[id].id == id
    ensures var r := RetireLoaded(s, id); ClientsInv(r.loaded, r.retired, r.clients)
  {
    var r, x := RetireLoaded(s, id), s.loaded[id].client;
    forall c: Client, h: Home
      ensures IsAt(r.clients.home, c, h) <==> if c == x then h == InRetired(id) else IsAt(s.clients.home, c, h)
    {
    }
    assert IsAt(s.clients.home, x, InLoaded(id));
    forall i | i in s.retired ensures x !in ClientsOf(s.retired[i]) {
      assert !IsAt(s.clients.home, x, InRetired(i));
    }
    forall i | i in s.loaded && i != id ensures s.loaded[i].client != x {
      assert !IsAt(s.clients.home, x, InLoaded(i));
    }
    assert ClientsOf(r.retired[id]) == ClientsOf(Retired(s.retired, id)) + [x];
  }

  lemma RelabelKeeps(loaded: map<string, LoadedPlugin>, retired: map<string, seq<LoadedPlugin>>, c: Clients,
                     id: string, lp: LoadedPlugin)
    requires ClientsInv(loaded, retired, c) && id in loaded && lp.client == loaded[id].client
    ensures ClientsInv(loaded[id := lp], retired, c)
  {
  }

  lemma {:induction false} CountOf(s: seq<Client>, x: Client)
    requires Distinct(s)
    ensures multiset(s)[x] == if x in s then 1 else 0
  {
    if s != [] {
      assert s == [s[0]] + s[1..];
      CountOf(s[1..], x);
    }
  }

  // Taking plugins away and shutting exactly their clients down, once each
  lemma StopKeeps(loaded: map<string, LoadedPlugin>, retired: map<string, seq<LoadedPlugin>>, c: Clients,
                  ids: set<string>, stopped: seq<Client>)
    requires ClientsInv(loaded, retired, c) && Distinct(stopped)
    requires forall x: Client :: x in stopped <==>
      exists id :: id in ids && (IsAt(c.home, x, InLoaded(id)) || IsAt(c.home, x, InRetired(id)))
    ensures ClientsInv(loaded - ids, retired - ids, StopAll(c, stopped))
  {
    var r := StopAll(c, stopped);
    forall x: Client, h: Home
      ensures IsAt(r.home, x, h) <==> if x in stopped then h == Stopped else IsAt(c.home, x, h)
    {
    }
    forall x: Client ensures r.stops[x] == if IsAt(r.home, x, Stopped) then 1 else 0 {
      CountOf(stopped, x);
    }
    forall x: Client, id: string
      ensures IsAt(r.home, x, InLoaded(id)) <==> id in loaded - ids && (loaded - ids)[id].client == x
    {
      assert IsAt(c.home, x, InLoaded(id)) <==> id in loaded && loaded[id].client == x;
    }
    forall x: Client, id: string
      ensures IsAt(r.home, x, InRetired(id)) <==> id in retired - ids && x in ClientsOf((retired - ids)[id])
    {
      assert IsAt(c.home, x, InRetired(id)) <==> id in retired && x in ClientsOf(retired[id]);
    }
  }

  lemma UnloadTargetsDistinct(s: State, id: string)
    requires ClientsInv(s.loaded, s.retired, s.clients)
    ensures Distinct(ClientsOf(Targets(s, id)))
  {
    var first := if id in s.loaded then [s.loaded[id].client] else [];
    var rest := ClientsOf(Retired(s.retired, id));
    assert ClientsOf(Targets(s, id)) == first + rest;
    forall x | x in first ensures x !in rest {
      assert IsAt(s.clients.home, x, InLoaded(id));
      assert !IsAt(s.clients.home, x, InRetired(id));
    }
    forall i, j | 0 <= i < j < |first + rest| ensures (first + rest)[i] != (first + rest)[j] {
      if i < |first| {
        assert first[0] !in rest && rest[j - 1] in rest;
      }
    }
  }

  lemma UnloadClients(s: State, id: string)
    requires ClientsInv(s.loaded, s.retired, s.clients)
    ensures ClientsInv(s.loaded - {id}, s.retired - {id}, StopAll(s.clients, ClientsOf(Targets(s, id))))
  {
    var first := if id in s.loaded then [s.loaded[id].client] else [];
    var rest := ClientsOf(Retired(s.retired, id));
    assert ClientsOf(Targets(s, id)) == first + rest;
    UnloadTargetsDistinct(s, id);
    forall x: Client ensures x in first + rest <==>
      exists i :: i in {id} && (IsAt(s.clients.home, x, InLoaded(i)) || IsAt(s.clients.home, x, InRetired(i)))
    {
      assert id in {id};
      assert x in first <==> IsAt(s.clients.home, x, InLoaded(id));
      assert x in rest <==> IsAt(s.clients.home, x, InRetired(id));
    }
    StopKeeps(s.loaded, s.retired, s.clients, {id}, first + rest);
  }

  lemma ShutdownClients(s: State, targets: seq<Client>)
    requires ClientsInv(s.loaded, s.retired, s.clients) && AllTargets(s, targets)
    ensures ClientsInv(map[], map[], StopAll(s.clients, targets))
  {
    var ids := s.loaded.Keys + s.retired.Keys;
    forall x: Client ensures x in targets <==>
      exists id :: id in ids && (IsAt(s.clients.home, x, InLoaded(id)) || IsAt(s.clients.home, x, InRetired(id)))
    {
      assert forall id :: IsAt(s.clients.home, x, InLoaded(id)) ==> id in ids;
      assert forall id :: IsAt(s.clients.home, x, InRetired(id)) ==> id in ids;
    }
    StopKeeps(s.loaded, s.retired, s.clients, ids, targets);
    assert s.loaded - ids == map[];
    assert s.retired - ids == map[];
  }

  // ---------- applying files ----------

  // What a turn of the loop keeps.
  ghost predicate Sound(clean: Cleaner, idOf: string -> string, s: State) {
    ClientsInv(s.loaded, s.retired, s.clients) && NamedInv(clean, idOf, s.loaded, s.retired)
  }

  lemma LoadFileKeeps(clean: Cleaner, idOf: string -> string, s: State, file: PluginFile)
    requires Sound(clean, idOf, s) && NeedsLoad(clean, s, file) && Named(clean, idOf, file.path, file.id)
    ensures Sound(clean, idOf, LoadFile(clean, s, file))
  {
    if Replaces(clean, s, file) {
      RetireKeeps(s, file.id);
      OpenKeeps(RetireLoaded(s, file.id), file);
    } else {
      OpenKeeps(s, file);
    }
  }

  lemma RegisteredKeeps(clean: Cleaner, idOf: string -> string, s: State, id: string, registration: Registration)
    requires Sound(clean, idOf, s) && id in s.loaded
    ensures Sound(clean, idOf, Registered(s, id, registration))
  {
    var r := Registered(s, id, registration);
    if id in r.loaded && r.loaded != s.loaded {
      RelabelKeeps(s.loaded, s.retired, s.clients, id, r.loaded[id]);
    }
  }

  // No plugin of another id is touched.
  ghost predicate OthersKept(before: map<string, LoadedPlugin>, after: map<string, LoadedPlugin>, id: string) {
    forall i :: i != id && i in before ==> i in after && after[i] == before[i]
  }

  lemma LoadFileTouches(clean: Cleaner, s: State, file: PluginFile)
    requires NeedsLoad(clean, s, file)
    ensures var r := LoadFile(clean, s, file);
      r.loading == s.loading && OthersKept(s.loaded, r.loaded, file.id) &&
      file.id in r.loaded && CleanPath(clean, r.loaded[file.id].path) == CleanPath(clean, file.path)
  {
  }

  lemma RegisteredTouches(clean: Cleaner, s: State, file: PluginFile, item: Item, registration: Registration)
    requires file.id in s.loaded && CleanPath(clean, s.loaded[file.id].path) == CleanPath(clean, file.path)
    ensures var (r, record) := (Registered(s, file.id, registration), RecordOf(file, item, registration));
      r.loading == s.loading && OthersKept(s.loaded, r.loaded, file.id) &&
      (record.Some? ==> record.value.id == file.id && Backed(clean, r.loaded, record.value))
  {
  }

  // A turn touches no plugin of another id, and a record it makes is backed by the plugin loaded.
  lemma ApplyFileKeeps(clean: Cleaner, idOf: string -> string, s: State, file: PluginFile, item: Item, answer: Answer)
    requires Sound(clean, idOf, s) && Named(clean, idOf, file.path, file.id)
    ensures var (r, record) := ApplyFile(clean, s, file, item, answer);
      Sound(clean, idOf, r) && r.loading == s.loading && OthersKept(s.loaded, r.loaded, file.id) &&
      (record.Some? ==> record.value.id == file.id && Backed(clean, r.loaded, record.value))
  {
    if NeedsLoad(clean, s, file) {
      LoadFileKeeps(clean, idOf, s, file);
      LoadFileTouches(clean, s, file);
      RegisteredKeeps(clean, idOf, LoadFile(clean, s, file), file.id, answer.registration);
      RegisteredTouches(clean, LoadFile(clean, s, file), file, item, answer.registration);
    } else {
      RegisteredKeeps(clean, idOf, s, file.id, answer.registration);
      RegisteredTouches(clean, s, file, item, answer.registration);
    }
  }

  lemma ListedKeeps(clean: Cleaner, before: map<string, LoadedPlugin>, after: map<string, LoadedPlugin>,
                    records: seq<Record>, id: string, record: Option<Record>)
    requires RecordsInv(clean, before, records) && forall r :: r in records ==> r.id != id
    requires OthersKept(before, after, id)
    requires record.Some? ==> record.value.id == id && Backed(clean, after, record.value)
    ensures RecordsInv(clean, after, Listed(records, record))
  {
    forall r | r in records ensures Backed(clean, after, r) {
      assert Backed(clean, before, r);
    }
  }

  lemma TurnKeeps(clean: Cleaner, idOf: string -> string, s: State, file: PluginFile, item: Item, answer: Answer, records: seq<Record>)
    requires Sound(clean, idOf, s) && Named(clean, idOf, file.path, file.id)
    requires RecordsInv(clean, s.loaded, records) && forall r :: r in records ==> r.id != file.id
    ensures var (r, record) := ApplyFile(clean, s, file, item, answer);
      Sound(clean, idOf, r) && r.loading == s.loading && RecordsInv(clean, r.loaded, Listed(records, record)) &&
      (record.Some? ==> record.value.id == file.id)
  {
    ApplyFileKeeps(clean, idOf, s, file, item, answer);
    var (r, record) := ApplyFile(clean, s, file, item, answer);
    ListedKeeps(clean, s.loaded, r.loaded, records, file.id, record);
  }

  lemma GoodBefore(clean: Cleaner, idOf: string -> string, files: seq<PluginFile>)
    requires GoodFiles(clean, idOf, files) && files != []
    ensures var before, file := files[..|files| - 1], files[|files| - 1];
      GoodFiles(clean, idOf, before) && Named(clean, idOf, file.path, file.id) && file.id !in Ids(before) && Ids(files) == Ids(before) + {file.id}
  {
    var before := files[..|files| - 1];
    assert files == before + [files[|files| - 1]];
    assert forall f :: f in before ==> f in files;
  }

  lemma {:induction false} ApplyFilesKeeps(clean: Cleaner, idOf: string -> string, s: State, files: seq<PluginFile>,
                                           items: map<string, Item>, world: string -> Answer)
    requires Sound(clean, idOf, s) && GoodFiles(clean, idOf, files)
    ensures var (r, records) := ApplyFiles(clean, s, files, items, world);
      Sound(clean, idOf, r) && r.loading == s.loading && RecordsInv(clean, r.loaded, records) &&
      forall record :: record in records ==> record.id in Ids(files)
  {
    if files != [] {
      var before, file := files[..|files| - 1], files[|files| - 1];
      GoodBefore(clean, idOf, files);
      ApplyFilesKeeps(clean, idOf, s, before, items, world);
      var (mid, records) := ApplyFiles(clean, s, before, items, world);
      TurnKeeps(clean, idOf, mid, file, ItemOf(items, file.id), world(file.id), records);
    }
  }

  // The record of file f, for a plugin that is enabled and registered
  predicate RecordFor(f: PluginFile, items: map<string, Item>, world: string -> Answer, r: Record) {
    ItemOf(items, f.id).enabled && world(f.id).registration.Plugin? &&
    r == Record(f.id, f.path, f.version, ItemOf(items, f.id).priority, world(f.id).registration.name)
  }

  ghost predicate FromFiles(records: seq<Record>, files: seq<PluginFile>, items: map<string, Item>, world: string -> Answer) {
    forall r :: r in records ==> exists f :: f in files && RecordFor(f, items, world, r)
  }

  // Every record comes from a file whose plugin is enabled and registered.
  lemma {:induction false} RecordsAreRegistered(clean: Cleaner, s: State, files: seq<PluginFile>,
                                                items: map<string, Item>, world: string -> Answer)
    ensures FromFiles(ApplyFiles(clean, s, files, items, world).1, files, items, world)
  {
    if files != [] {
      var init, f := files[..|files| - 1], files[|files| - 1];
      RecordsAreRegistered(clean, s, init, items, world);
      var before := ApplyFiles(clean, s, init, items, world);
      var record := ApplyFile(clean, before.0, f, ItemOf(items, f.id), world(f.id)).1;
      assert FromFiles(before.1, init, items, world);
      forall x | x in before.1 ensures exists g :: g in files && RecordFor(g, items, world, x) {
        var g :| g in init && RecordFor(g, items, world, x);
        assert g in files;
      }
      assert record.Some? ==> f in files && RecordFor(f, items, world, record.value);
    }
  }

  lemma {:induction false} FallbacksGood(clean: Cleaner, idOf: string -> string, s: State, files: seq<PluginFile>,
                                         items: map<string, Item>, desired: seq<string>)
    requires Sound(clean, idOf, s) && GoodFiles(clean, idOf, files)
    ensures files <= WithFallbacks(s.loaded, files, items, desired)
    ensures GoodFiles(clean, idOf, WithFallbacks(s.loaded, files, items, desired))
  {
    if desired != [] {
      var id := desired[|desired| - 1];
      FallbacksGood(clean, idOf, s, files, items, desired[..|desired| - 1]);
      var before := WithFallbacks(s.loaded, files, items, desired[..|desired| - 1]);
      if FallsBack(s.loaded, Selected(files, before), items, id) {
        forall f | f in before ensures f.id != id {
          assert before == files + before[|files|..];
          if f in files {
            assert TrimSpace(f.id) == f.id && f.id in Selected(files, before);
          } else {
            assert f.id in Ids(before[|files|..]);
          }
        }
      }
    }
  }

  lemma {:induction false} LessOrders(a: string, b: string, c: string)
    ensures Less(a, b) ==> !Less(b, a)
    ensures !Less(a, b) && !Less(b, c) ==> !Less(a, c)
  {
    if a != [] && b != [] && c != [] {
      LessOrders(a[1..], b[1..], c[1..]);
    } else if a != [] && b != [] {
      LessOrders(a[1..], b[1..], []);
    }
  }

  // Texts are ordered by their first difference; a text comes before those it is the beginning of.
  predicate DiffersAt(a: string, b: string, k: nat) {
    k <= |a| && k <= |b| && a[..k] == b[..k] && k < |b| && (k == |a| || a[k] < b[k])
  }

  lemma {:induction false} LessIff(a: string, b: string)
    ensures Less(a, b) <==> exists k: nat :: DiffersAt(a, b, k)
    decreases |a|
  {
    if a != [] && b != [] && a[0] == b[0] {
      LessIff(a[1..], b[1..]);
      if k: nat :| DiffersAt(a, b, k) {
        assert k > 0 && a[1..][..k - 1] == a[..k][1..] && b[1..][..k - 1] == b[..k][1..];
        assert DiffersAt(a[1..], b[1..], k - 1);
      }
      if k: nat :| DiffersAt(a[1..], b[1..], k) {
        assert a[..k + 1] == [a[0]] + a[1..][..k] && b[..k + 1] == [b[0]] + b[1..][..k];
        assert DiffersAt(a, b, k + 1);
      }
    } else if b != [] && (a == [] || a[0] < b[0]) {
      assert DiffersAt(a, b, 0);
    } else if a != [] && b != [] {
      forall k: nat ensures !DiffersAt(a, b, k) {
        FirstDiffers(a, b, k);
      }
    }
  }

  lemma FirstDiffers(a: string, b: string, k: nat)
    requires a != [] && b != [] && a[0] > b[0]
    ensures !DiffersAt(a, b, k)
  {
    if 0 < k <= |a| && k <= |b| {
      assert a[..k][0] == a[0] && b[..k][0] == b[0];
    }
  }

  // Records are sorted by descending priority and, within a priority, by id.
  lemma SortOrders(records: seq<Record>)
    ensures var sorted := SortRecords(records);
      multiset(sorted) == multiset(records) &&
      forall i, j | 0 <= i < j < |sorted| ::
        sorted[i].priority > sorted[j].priority || (sorted[i].priority == sorted[j].priority && !Less(sorted[j].id, sorted[i].id))
  {
    forall x, y, z
      ensures Before(x, y) ==> !Before(y, x)
      ensures !Before(x, y) && !Before(y, z) ==> !Before(x, z)
    {
      LessOrders(x.id, y.id, z.id);
    }
    SortSorts(Before, records);
    SortMultiset(Before, records);
  }

  lemma SortKeeps(records: seq<Record>)
    requires DistinctIds(records)
    ensures DistinctIds(SortRecords(records))
    ensures forall r :: r in SortRecords(records) <==> r in records
  {
    var key := (r: Record) => r.id;
    assert DistinctBy(key, records);
    SortDistinct(Before, key, records);
    SortMembers(Before, records);
    assert forall i :: 0 <= i < |records| ==> key(SortRecords(records)[i]) == SortRecords(records)[i].id;
  }

  // ---------- the identity maps ----------

  // No two records share an id, or a path.
  predicate Unambiguous(clean: Cleaner, records: seq<Record>) {
    forall i, j :: 0 <= i < j < |records| ==>
      TrimSpace(records[i].id) != TrimSpace(records[j].id) &&
      (CleanPath(clean, records[i].path) != "" ==> CleanPath(clean, records[i].path) != CleanPath(clean, records[j].path))
  }

  predicate Matches(clean: Cleaner, r: Record, id: string, path: string, version: string) {
    TrimSpace(r.id) == TrimSpace(id) != "" && CleanPath(clean, r.path) == CleanPath(clean, path) != "" &&
    TrimSpace(r.version) == TrimSpace(version)
  }

  predicate Identifies(clean: Cleaner, m: Identities, r: Record) {
    TrimSpace(r.id) != "" && CleanPath(clean, r.path) != "" ==>
      Get(m.paths, TrimSpace(r.id)) == CleanPath(clean, r.path) &&
      CleanPath(clean, r.path) in m.fileVersions && m.fileVersions[CleanPath(clean, r.path)] == TrimSpace(r.version) &&
      Get(m.versions, TrimSpace(r.id)) == TrimSpace(r.version)
  }

  predicate Located(clean: Cleaner, r: Record, id: string, path: string) {
    TrimSpace(r.id) == id != "" && CleanPath(clean, r.path) == path != ""
  }

  // The rebuilt maps hold every record, and an id has a path in them only if some record gives it.
  lemma {:induction false} RebuiltHolds(clean: Cleaner, records: seq<Record>)
    requires Unambiguous(clean, records)
    ensures forall r :: r in records ==> Identifies(clean, Rebuilt(clean, records), r)
    ensures forall id :: id in Rebuilt(clean, records).paths ==> ComesFrom(clean, records, id, Rebuilt(clean, records).paths[id])
  {
    if records != [] {
      var init, last := records[..|records| - 1], records[|records| - 1];
      assert records == init + [last];
      RebuiltHolds(clean, init);
      forall r | r in records ensures Identifies(clean, Rebuilt(clean, records), r) {
        if r in init {
          StillIdentifies(clean, records, r);
        }
      }
      forall id | id in Rebuilt(clean, records).paths ensures ComesFrom(clean, records, id, Rebuilt(clean, records).paths[id]) {
        StillComesFrom(clean, records, id);
      }
    }
  }

  ghost predicate ComesFrom(clean: Cleaner, records: seq<Record>, id: string, path: string) {
    exists r :: r in records && Located(clean, r, id, path)
  }

  // A later record does not disturb what an earlier one put into the maps.
  lemma StillIdentifies(clean: Cleaner, records: seq<Record>, r: Record)
    requires Unambiguous(clean, records) && records != []
    requires var init := records[..|records| - 1]; r in init && Identifies(clean, Rebuilt(clean, init), r)
    ensures Identifies(clean, Rebuilt(clean, records), r)
  {
    var init := records[..|records| - 1];
    var i :| 0 <= i < |init| && init[i] == r;
    assert records[i] == r;
  }

  lemma StillComesFrom(clean: Cleaner, records: seq<Record>, id: string)
    requires records != [] && id in Rebuilt(clean, records).paths
    requires var m := Rebuilt(clean, records[..|records| - 1]);
      id in m.paths ==> ComesFrom(clean, records[..|records| - 1], id, m.paths[id])
    ensures ComesFrom(clean, records, id, Rebuilt(clean, records).paths[id])
  {
    var init, last := records[..|records| - 1], records[|records| - 1];
    var m, n := Rebuilt(clean, init), Rebuilt(clean, records);
    if id in m.paths && n.paths[id] == m.paths[id] {
      var r :| r in init && Located(clean, r, id, m.paths[id]);
      assert r in records;
    } else {
      assert last in records && Located(clean, last, id, n.paths[id]);
    }
  }

  // The maps agree with the records: an identity is current if and only if some record has it.
  lemma CurrentIff(clean: Cleaner, records: seq<Record>, id: string, path: string, version: string)
    requires Unambiguous(clean, records)
    ensures IdentityCurrent(clean, Rebuilt(clean, records), id, path, version) <==>
      exists r :: r in records && Matches(clean, r, id, path, version)
  {
    var m := Rebuilt(clean, records);
    RebuiltHolds(clean, records);
    if IdentityCurrent(clean, m, id, path, version) {
      var r :| r in records && Located(clean, r, TrimSpace(id), m.paths[TrimSpace(id)]);
      assert Identifies(clean, m, r);
      assert Matches(clean, r, id, path, version);
    }
  }

  lemma IdentifyForgotten(clean: Cleaner, m: Identities, r: Record, id: string, paths: set<string>)
    requires TrimSpace(r.id) == r.id
    requires CleanPath(clean, r.path) != "" ==> (r.id == id <==> CleanPath(clean, r.path) in paths)
    ensures Forgotten(Identify(clean, m, r), id, paths) ==
      if r.id == id then Forgotten(m, id, paths) else Identify(clean, Forgotten(m, id, paths), r)
  {
    var p, v := CleanPath(clean, r.path), TrimSpace(r.version);
    if p != "" && r.id == id {
      assert m.fileVersions[p := v] - paths == m.fileVersions - paths;
      assert m.versions[id := v] - {id} == m.versions - {id};
      assert m.paths[id := p] - {id} == m.paths - {id};
    } else if p != "" {
      assert m.fileVersions[p := v] - paths == (m.fileVersions - paths)[p := v];
      assert m.versions[r.id := v] - {id} == (m.versions - {id})[r.id := v];
      assert m.paths[r.id := p] - {id} == (m.paths - {id})[r.id := p];
    }
  }

  // Taking a plugin's records away is the same as rebuilding the maps without them.
  lemma {:induction false} RebuiltWithout(clean: Cleaner, records: seq<Record>, id: string, paths: set<string>)
    requires forall r :: r in records ==> TrimSpace(r.id) == r.id
    requires forall r :: r in records && CleanPath(clean, r.path) != "" ==> (r.id == id <==> CleanPath(clean, r.path) in paths)
    ensures Rebuilt(clean, Without(records, id)) == Forgotten(Rebuilt(clean, records), id, paths)
  {
    if records == [] {
      assert Forgotten(NONE, id, paths) == NONE;
    } else {
      var init, last := records[..|records| - 1], records[|records| - 1];
      assert last in records && forall r :: r in init ==> r in records;
      RebuiltWithout(clean, init, id, paths);
      var m := Rebuilt(clean, init);
      IdentifyForgotten(clean, m, last, id, paths);
      if last.id != id {
        var kept := Without(init, id);
        assert Without(records, id) == kept + [last];
        assert (kept + [last])[..|kept|] == kept;
      }
    }
  }

  lemma {:induction false} WithoutKeeps(records: seq<Record>, id: string)
    requires DistinctIds(records)
    ensures DistinctIds(Without(records, id))
    ensures forall r :: r in Without(records, id) <==> r in records && r.id != id
  {
    if records != [] {
      var init, last := records[..|records| - 1], records[|records| - 1];
      assert records == init + [last];
      WithoutKeeps(init, id);
      assert forall r :: r in init ==> r.id != last.id;
    }
  }

  // ---------- every operation keeps the invariant ----------

  lemma RecordsUnambiguous(clean: Cleaner, idOf: string -> string, s: State)
    requires Inv(clean, idOf, s)
    ensures Unambiguous(clean, s.snapshot.records)
    ensures forall r :: r in s.snapshot.records ==> ValidId(r.id)
  {
    var records := s.snapshot.records;
    forall i, j | 0 <= i < j < |records|
      ensures TrimSpace(records[i].id) != TrimSpace(records[j].id)
      ensures CleanPath(clean, records[i].path) != "" ==> CleanPath(clean, records[i].path) != CleanPath(clean, records[j].path)
    {
      assert Backed(clean, s.loaded, records[i]) && Backed(clean, s.loaded, records[j]);
    }
  }

  lemma ApplyConfigKeeps(clean: Cleaner, idOf: string -> string, s: State, config: Config, world: string -> Answer)
    requires Inv(clean, idOf, s)
    requires config.selection.Some? ==> GoodFiles(clean, idOf, config.selection.value)
    ensures Inv(clean, idOf, ApplyConfig(clean, s, config, world))
  {
    if config.enabled && config.selection.Some? {
      var files := WithFallbacks(s.loaded, config.selection.value, config.items, config.desired);
      FallbacksGood(clean, idOf, s, config.selection.value, config.items, config.desired);
      ApplyFilesKeeps(clean, idOf, s, files, config.items, world);
      var (after, records) := ApplyFiles(clean, s, files, config.items, world);
      SortKeeps(records);
    }
  }

  lemma UnloadKeeps(clean: Cleaner, idOf: string -> string, s: State, rawId: string)
    requires Inv(clean, idOf, s)
    ensures Inv(clean, idOf, Unload(clean, s, rawId))
  {
    var id, records := TrimSpace(rawId), s.snapshot.records;
    var targets := Targets(s, id);
    if id != "" && targets != [] {
      UnloadClients(s, id);
      WithoutKeeps(records, id);
      RecordsUnambiguous(clean, idOf, s);
      UnloadPaths(clean, idOf, s, id);
      RebuiltWithout(clean, records, id, CleanPaths(clean, targets));
      forall r | r in Without(records, id) ensures Backed(clean, s.loaded - {id}, r) {
        assert Backed(clean, s.loaded, r);
      }
    }
  }

  // The paths that an unload forgets are the paths of that plugin's records.
  lemma UnloadPaths(clean: Cleaner, idOf: string -> string, s: State, id: string)
    requires Inv(clean, idOf, s)
    ensures forall r :: r in s.snapshot.records && CleanPath(clean, r.path) != "" ==>
      (r.id == id <==> CleanPath(clean, r.path) in CleanPaths(clean, Targets(s, id)))
  {
    var targets := Targets(s, id);
    assert forall lp :: lp in targets ==> Named(clean, idOf, lp.path, id);
    forall r | r in s.snapshot.records && CleanPath(clean, r.path) != ""
      ensures r.id == id <==> CleanPath(clean, r.path) in CleanPaths(clean, targets)
    {
      assert Backed(clean, s.loaded, r);
      assert idOf(CleanPath(clean, r.path)) == r.id;
      if r.id == id {
        assert targets[0] == s.loaded[id];
      }
    }
  }

  // Every operation keeps the invariant.
  lemma StepKeepsInv(clean: Cleaner, idOf: string -> string, s: State, op: Op)
    requires Inv(clean, idOf, s) && Allowed(clean, idOf, s, op)
    ensures Inv(clean, idOf, Step(clean, s, op))
  {
    match op
    case Apply(config, world) => ApplyConfigKeeps(clean, idOf, s, config, world);
    case Unloading(id) => UnloadKeeps(clean, idOf, s, id);
    case ShuttingDown(targets) => ShutdownClients(s, targets);
    case Fusing(_) =>
  }

  // A run: each operation is allowed in the state that the ones before it lead to.
  ghost predicate Runs(clean: Cleaner, idOf: string -> string, s: State, ops: seq<Op>, r: State)
    decreases |ops|
  {
    if ops == [] then r == s
    else Allowed(clean, idOf, s, ops[0]) && Runs(clean, idOf, Step(clean, s, ops[0]), ops[1..], r)
  }

  lemma {:induction false} RunKeepsInv(clean: Cleaner, idOf: string -> string, s: State, ops: seq<Op>, r: State)
    requires Inv(clean, idOf, s) && Runs(clean, idOf, s, ops, r)
    ensures Inv(clean, idOf, r)
    decreases |ops|
  {
    if ops != [] {
      StepKeepsInv(clean, idOf, s, ops[0]);
      RunKeepsInv(clean, idOf, Step(clean, s, ops[0]), ops[1..], r);
    }
  }

  lemma Reached(clean: Cleaner, idOf: string -> string, ops: seq<Op>, r: State)
    requires Runs(clean, idOf, Start(), ops, r)
    ensures Inv(clean, idOf, r)
  {
    var s := Start();
    assert ClientsInv(s.loaded, s.retired, s.clients) by {
      assert forall x: Client, h: Home :: !IsAt(s.clients.home, x, h);
    }
    RunKeepsInv(clean, idOf, s, ops, r);
  }

  // ---------- what holds between operations ----------

  // Client x is loaded, or retired, under an id.
  ghost predicate LiveUnder(s: State, x: Client, id: string) {
    (id in s.loaded && s.loaded[id].client == x) || x in ClientsOf(Retired(s.retired, id))
  }

  // Conservation: after any run, each client ever opened is loaded or retired under exactly one id and has not
  // been shut down, or is in neither place and has been shut down once.
  lemma ClientsConserved(clean: Cleaner, idOf: string -> string, ops: seq<Op>, s: State, x: Client)
    requires Runs(clean, idOf, Start(), ops, s)
    ensures x < s.clients.count ==> s.clients.stops[x] == if exists id :: LiveUnder(s, x, id) then 0 else 1
    ensures x >= s.clients.count ==> s.clients.stops[x] == 0 && forall id :: !LiveUnder(s, x, id)
    ensures forall id, other :: LiveUnder(s, x, id) && LiveUnder(s, x, other) ==> id == other
    ensures forall id :: id in s.loaded && s.loaded[id].client == x ==> x !in ClientsOf(Retired(s.retired, id))
    ensures forall id :: Distinct(ClientsOf(Retired(s.retired, id)))
  {
    Reached(clean, idOf, ops, s);
    forall id ensures LiveUnder(s, x, id) <==>
      IsAt(s.clients.home, x, InLoaded(id)) || IsAt(s.clients.home, x, InRetired(id))
    {
    }
    if x in s.clients.home {
      match s.clients.home[x]
      case InLoaded(id) => assert LiveUnder(s, x, id);
      case InRetired(id) => assert LiveUnder(s, x, id);
      case Stopped =>
    }
    forall id | id in s.loaded && s.loaded[id].client == x ensures x !in ClientsOf(Retired(s.retired, id)) {
      assert IsAt(s.clients.home, x, InLoaded(id));
      assert !IsAt(s.clients.home, x, InRetired(id));
    }
  }

  // Between operations a plugin is reported busy exactly when it has a live client.
  lemma BusyIffLive(clean: Cleaner, idOf: string -> string, ops: seq<Op>, s: State, rawId: string)
    requires Runs(clean, idOf, Start(), ops, s)
    ensures PluginBusy(s, rawId) <==> TrimSpace(rawId) != "" && exists x :: LiveUnder(s, x, TrimSpace(rawId))
  {
    Reached(clean, idOf, ops, s);
    var id := TrimSpace(rawId);
    if id in s.loaded {
      assert LiveUnder(s, s.loaded[id].client, id);
    } else if Retired(s.retired, id) != [] {
      assert ClientsOf(Retired(s.retired, id))[0] == Retired(s.retired, id)[0].client;
      assert LiveUnder(s, Retired(s.retired, id)[0].client, id);
    }
  }

  // Between operations an identity is current if and only if some record of the snapshot has it.
  lemma IdentitiesAgree(clean: Cleaner, idOf: string -> string, ops: seq<Op>, s: State,
                        id: string, path: string, version: string)
    requires Runs(clean, idOf, Start(), ops, s)
    ensures IdentityCurrent(clean, s.identities, id, path, version) <==>
      exists r :: r in s.snapshot.records && Matches(clean, r, id, path, version)
  {
    Reached(clean, idOf, ops, s);
    RecordsUnambiguous(clean, idOf, s);
    CurrentIff(clean, s.snapshot.records, id, path, version);
  }

  lemma UnloadTargetsLive(s: State, id: string, x: Client)
    requires ClientsInv(s.loaded, s.retired, s.clients)
    ensures multiset(ClientsOf(Targets(s, id)))[x] == if LiveUnder(s, x, id) then 1 else 0
  {
    UnloadTargetsDistinct(s, id);
    CountOf(ClientsOf(Targets(s, id)), x);
    assert ClientsOf(Targets(s, id)) ==
      (if id in s.loaded then [s.loaded[id].client] else []) + ClientsOf(Retired(s.retired, id));
  }

  lemma TargetsAtHome(s: State, id: string)
    requires ClientsInv(s.loaded, s.retired, s.clients)
    ensures forall c :: c in ClientsOf(Targets(s, id)) ==> c in s.clients.home
  {
    forall c | c in ClientsOf(Targets(s, id)) ensures c in s.clients.home {
      UnloadTargetsLive(s, id, c);
      assert IsAt(s.clients.home, c, InLoaded(id)) || IsAt(s.clients.home, c, InRetired(id)) || c !in s.clients.home;
    }
  }

  lemma UnloadLeaves(clean: Cleaner, s: State, rawId: string, x: Client)
    requires TrimSpace(rawId) != ""
    ensures forall id :: LiveUnder(Unload(clean, s, rawId), x, id) <==> LiveUnder(s, x, id) && id != TrimSpace(rawId)
  {
    if Targets(s, TrimSpace(rawId)) == [] {
      assert ClientsOf([]) == [];
    }
  }

  // An unload shuts down exactly the live clients of its plugin and leaves all others as they are.
  lemma UnloadStops(clean: Cleaner, idOf: string -> string, s: State, rawId: string, x: Client)
    requires Inv(clean, idOf, s) && TrimSpace(rawId) != ""
    ensures var r := Unload(clean, s, rawId);
      r.clients.stops[x] == s.clients.stops[x] + (if LiveUnder(s, x, TrimSpace(rawId)) then 1 else 0) &&
      (forall id :: LiveUnder(r, x, id) <==> LiveUnder(s, x, id) && id != TrimSpace(rawId))
  {
    UnloadTargetsLive(s, TrimSpace(rawId), x);
    UnloadLeaves(clean, s, rawId, x);
    if Targets(s, TrimSpace(rawId)) == [] {
      assert ClientsOf([]) == [];
    }
  }

  // A shutdown leaves no client live and no plugin listed; a plugin that was fused stays so.
  lemma ShutdownStops(clean: Cleaner, idOf: string -> string, s: State, targets: seq<Client>, x: Client)
    requires Inv(clean, idOf, s) && AllTargets(s, targets) && x < s.clients.count
    ensures var r := ShutdownAll(s, targets); r.clients.stops[x] == 1 && forall id :: !LiveUnder(r, x, id)
    ensures ShutdownAll(s, targets).fused == s.fused && ShutdownAll(s, targets).snapshot == Snapshot(false, [])
  {
    ShutdownClients(s, targets);
    var r := ShutdownAll(s, targets);
    assert x in r.clients.home;
    forall id ensures r.clients.home[x] != InLoaded(id) && r.clients.home[x] != InRetired(id) {
      assert !IsAt(r.clients.home, x, InLoaded(id)) && !IsAt(r.clients.home, x, InRetired(id));
    }
    assert IsAt(r.clients.home, x, Stopped);
  }

  // ---------- gathering the targets of a shutdown ----------

  function Place(retired: bool, id: string): Home {
    if retired then InRetired(id) else InLoaded(id)
  }

  // The clients at the places of the given ids, each once
  ghost predicate Gathered(home: map<Client, Home>, retired: bool, ids: set<string>, targets: seq<Client>) {
    Distinct(targets) &&
    forall c: Client :: c in targets <==> exists id :: id in ids && IsAt(home, c, Place(retired, id))
  }

  lemma DistinctConcat(a: seq<Client>, b: seq<Client>)
    requires Distinct(a) && Distinct(b) && forall c :: c in a ==> c !in b
    ensures Distinct(a + b)
  {
    forall i, j | 0 <= i < j < |a + b| ensures (a + b)[i] != (a + b)[j] {
      if i < |a| <= j {
        assert a[i] in a && b[j - |a|] in b;
      }
    }
  }

  lemma GatherMore(home: map<Client, Home>, retired: bool, ids: set<string>, targets: seq<Client>,
                   id: string, more: seq<Client>)
    requires Gathered(home, retired, ids, targets) && id !in ids
    requires Distinct(more) && forall c: Client :: c in more <==> IsAt(home, c, Place(retired, id))
    ensures Gathered(home, retired, ids + {id}, targets + more)
  {
    forall c | c in targets ensures c !in more {
      var i :| i in ids && IsAt(home, c, Place(retired, i));
    }
    DistinctConcat(targets, more);
    forall c: Client ensures c in targets + more <==> exists i :: i in ids + {id} && IsAt(home, c, Place(retired, i)) {
      assert c in more ==> id in ids + {id} && IsAt(home, c, Place(retired, id));
      if c in targets {
        var i :| i in ids && IsAt(home, c, Place(retired, i));
        assert i in ids + {id};
      }
    }
  }

  lemma GatheredAll(s: State, loaded: seq<Client>, retired: seq<Client>)
    requires ClientsInv(s.loaded, s.retired, s.clients)
    requires Gathered(s.clients.home, false, s.loaded.Keys, loaded)
    requires Gathered(s.clients.home, true, s.retired.Keys, retired)
    ensures AllTargets(s, loaded + retired)
    ensures forall c :: c in loaded + retired ==> c in s.clients.home
  {
    var home := s.clients.home;
    forall c | c in loaded ensures c !in retired && exists id :: id in s.loaded && s.loaded[id].client == c {
      var id :| id in s.loaded.Keys && IsAt(home, c, Place(false, id));
      assert forall other :: !IsAt(home, c, Place(true, other));
    }
    forall c | c in retired ensures exists id :: id in s.retired && c in ClientsOf(s.retired[id]) {
      var id :| id in s.retired.Keys && IsAt(home, c, Place(true, id));
      assert IsAt(home, c, InRetired(id));
    }
    forall id | id in s.loaded ensures s.loaded[id].client in loaded {
      assert id in s.loaded.Keys && IsAt(home, s.loaded[id].client, Place(false, id));
    }
    forall id, c | id in s.retired && c in ClientsOf(s.retired[id]) ensures c in retired {
      assert IsAt(home, c, InRetired(id));
      assert id in s.retired.Keys && IsAt(home, c, Place(true, id));
    }
    DistinctConcat(loaded, retired);
  }
}
