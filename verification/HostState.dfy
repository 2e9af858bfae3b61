// The life of plugin clients under the plugin host: loading, hot replacement, unloading and shutdown, and the
// identity maps that tell which plugin version is active. The host's operations are serialised by one mutex, so
// each is a step; Host.dfy has the same operations on an object whose fields are updated in place.
module HostState {
  import opened StableSort
  import opened Text

  // ---------- data ----------

  // Clients are numbered in the order in which they were opened.
  type Client = nat

  datatype LoadedPlugin =
    LoadedPlugin(id: string, path: string, version: string, name: string, registered: bool, client: Client)

  datatype PluginFile = PluginFile(id: string, path: string, version: string)

  datatype Item = Item(enabled: bool, priority: int)

  datatype Record = Record(id: string, path: string, version: string, priority: int, name: string)

  datatype Snapshot = Snapshot(enabled: bool, records: seq<Record>)

  // pluginFileVersions, activePluginVersions and activePluginPaths
  datatype Identities = Identities(fileVersions: map<string, string>, versions: map<string, string>, paths: map<string, string>)

  // The runtime configuration, with the result of the file selection (none when it failed) and the ids that have
  // a desired version, in their order.
  datatype Config =
    Config(enabled: bool, selection: Option<seq<PluginFile>>, items: map<string, Item>, desired: seq<string>)

  // How the call of plugin.register or plugin.reconfigure ends: in a panic, not made as the context is done, with
  // an error or an unusable plugin, or with a plugin.
  datatype Registration = Panicked | NotCalled | Unusable | Plugin(name: string, version: string)

  // What the outside world answers when a plugin file is applied.
  datatype Answer = Answer(opens: bool, registration: Registration)

  // Where a client is.
  datatype Home = InLoaded(id: string) | InRetired(id: string) | Stopped

  // The fields of the host, and then the history of the clients, which no operation reads.
  datatype State = State(
    loaded: map<string, LoadedPlugin>,
    retired: map<string, seq<LoadedPlugin>>,
    loading: set<string>,
    fused: set<string>,
    identities: Identities,
    snapshot: Snapshot,
    clients: Clients)

  // How many clients were opened, how often each was shut down, and where each is.
  datatype Clients = Clients(count: nat, stops: multiset<Client>, home: map<Client, Home>)

  // filepath.Clean
  type Cleaner = string -> string

  // ---------- paths and identities ----------

  function CleanPath(clean: Cleaner, path: string): string {
    var p := TrimSpace(path);
    if p == "" then "" else clean(p)
  }

  // Reading a Go map: a missing key reads as the empty string.
  function Get(m: map<string, string>, key: string): string {
    if key in m then m[key] else ""
  }

  const NONE := Identities(map[], map[], map[])

  function Identify(clean: Cleaner, m: Identities, r: Record): Identities {
    var id, path, version := TrimSpace(r.id), CleanPath(clean, r.path), TrimSpace(r.version);
    if id == "" || path == "" then m
    else Identities(m.fileVersions[path := version], m.versions[id := version], m.paths[id := path])
  }

  // The maps that rebuildActivePluginMapsLocked makes.
  function Rebuilt(clean: Cleaner, records: seq<Record>): Identities {
    if records == [] then NONE
    else Identify(clean, Rebuilt(clean, records[..|records| - 1]), records[|records| - 1])
  }

  predicate IdentityCurrent(clean: Cleaner, m: Identities, id: string, path: string, version: string) {
    var trimmed, p, v := TrimSpace(id), CleanPath(clean, path), TrimSpace(version);
    trimmed != "" && p != "" && Get(m.paths, trimmed) == p &&
    p in m.fileVersions && m.fileVersions[p] == v && Get(m.versions, trimmed) == v
  }

  // ---------- sorting ----------

  predicate Before(a: Record, b: Record) {
    if a.priority == b.priority then Less(a.id, b.id) else a.priority > b.priority
  }

  // Go's order of strings
  predicate Less(a: string, b: string) {
    b != [] && (a == [] || a[0] < b[0] || (a[0] == b[0] && Less(a[1..], b[1..])))
  }

  function SortRecords(records: seq<Record>): seq<Record> {
    Sort(Before, records)
  }

  // ---------- ApplyConfig ----------

  function ItemOf(items: map<string, Item>, id: string): Item {
    if id in items then items[id] else Item(false, 0)
  }

  function Ids(files: seq<PluginFile>): set<string> {
    set f | f in files :: f.id
  }

  // withLoadedPluginFallbacks: the plugins that stay loaded although no file of the desired version was found.
  function WithFallbacks(loaded: map<string, LoadedPlugin>, files: seq<PluginFile>, items: map<string, Item>,
                         desired: seq<string>): seq<PluginFile>
  {
    if desired == [] then files
    else
      var before := WithFallbacks(loaded, files, items, desired[..|desired| - 1]);
      var id := desired[|desired| - 1];
      if FallsBack(loaded, Selected(files, before), items, id) then before + [Fallback(loaded[id], id)] else before
  }

  // The ids that are selected: those of the files found, trimmed, and of the fallbacks added to them.
  function Selected(files: seq<PluginFile>, all: seq<PluginFile>): set<string> {
    (set f | f in files && TrimSpace(f.id) != "" :: TrimSpace(f.id)) + if |files| <= |all| then Ids(all[|files|..]) else {}
  }

  predicate FallsBack(loaded: map<string, LoadedPlugin>, selected: set<string>, items: map<string, Item>, id: string) {
    id !in selected && !(id in items && !items[id].enabled) && id in loaded && TrimSpace(loaded[id].path) != ""
  }

  function Fallback(lp: LoadedPlugin, id: string): PluginFile {
    PluginFile(id, lp.path, TrimSpace(lp.version))
  }

  function Retired(retired: map<string, seq<LoadedPlugin>>, id: string): seq<LoadedPlugin> {
    if id in retired then retired[id] else []
  }

  // The plugin that a file is to replace: the loaded one, when it comes from another path.
  predicate Replaces(clean: Cleaner, s: State, file: PluginFile) {
    file.id in s.loaded && CleanPath(clean, s.loaded[file.id].path) != CleanPath(clean, file.path)
  }

  predicate NeedsLoad(clean: Cleaner, s: State, file: PluginFile) {
    file.id !in s.loaded || Replaces(clean, s, file)
  }

  function Opened(file: PluginFile, client: Client): LoadedPlugin {
    LoadedPlugin(file.id, file.path, file.version, "", false, client)
  }

  // A file opened for an id that has nothing loaded
  function Loaded(s: State, file: PluginFile): State {
    var c := s.clients;
    s.(loaded := s.loaded[file.id := Opened(file, c.count)],
       clients := c.(count := c.count + 1, home := c.home[c.count := InLoaded(file.id)]))
  }

  // The loaded plugin moved to the retired ones: its client is not shut down
  function RetireLoaded(s: State, id: string): State
    requires id in s.loaded
  {
    var lp, c := s.loaded[id], s.clients;
    s.(loaded := s.loaded - {id},
       retired := s.retired[lp.id := Retired(s.retired, lp.id) + [lp]],
       fused := s.fused - {id},
       clients := c.(home := c.home[lp.client := InRetired(lp.id)]))
  }

  function LoadFile(clean: Cleaner, s: State, file: PluginFile): State {
    Loaded(if Replaces(clean, s, file) then RetireLoaded(s, file.id) else s, file)
  }

  function Registered(s: State, id: string, registration: Registration): State
    requires id in s.loaded
  {
    var lp := s.loaded[id];
    match registration
    case Panicked => s.(fused := s.fused + {lp.id})
    case NotCalled => s
    case Unusable => s.(loaded := s.loaded[id := lp.(registered := true)])
    case Plugin(name, version) =>
      s.(loaded := s.loaded[id := lp.(registered := true, name := TrimSpace(name),
                                      version := if TrimSpace(lp.version) == "" then TrimSpace(version) else lp.version)])
  }

  function RecordOf(file: PluginFile, item: Item, registration: Registration): Option<Record> {
    match registration
    case Plugin(name, _) => Some(Record(file.id, file.path, file.version, item.priority, name))
    case _ => None
  }

  // One turn of the loop of ApplyConfig
  function ApplyFile(clean: Cleaner, s: State, file: PluginFile, item: Item, answer: Answer): (State, Option<Record>) {
    if !item.enabled || (file.id in s.fused && !Replaces(clean, s, file)) then (s, None)
    else if NeedsLoad(clean, s, file) && !answer.opens then (s, None)
    else
      var ready := if NeedsLoad(clean, s, file) then LoadFile(clean, s, file) else s;
      (Registered(ready, file.id, answer.registration), RecordOf(file, item, answer.registration))
  }

  function Listed(records: seq<Record>, r: Option<Record>): seq<Record> {
    if r.Some? then records + [r.value] else records
  }

  function ApplyFiles(clean: Cleaner, s: State, files: seq<PluginFile>, items: map<string, Item>,
                      world: string -> Answer): (State, seq<Record>)
  {
    if files == [] then (s, [])
    else
      var file := files[|files| - 1];
      var (before, records) := ApplyFiles(clean, s, files[..|files| - 1], items, world);
      var (after, record) := ApplyFile(clean, before, file, ItemOf(items, file.id), world(file.id));
      (after, Listed(records, record))
  }

  function Install(clean: Cleaner, s: State, snapshot: Snapshot): State {
    s.(identities := Rebuilt(clean, snapshot.records), snapshot := snapshot)
  }

  function ApplyConfig(clean: Cleaner, s: State, config: Config, world: string -> Answer): State {
    if !config.enabled || config.selection.None? then Install(clean, s, Snapshot(false, []))
    else
      var files := WithFallbacks(s.loaded, config.selection.value, config.items, config.desired);
      var (after, records) := ApplyFiles(clean, s, files, config.items, world);
      Install(clean, after, Snapshot(true, SortRecords(records)))
  }

  // ---------- UnloadPlugin, ShutdownAll ----------

  function Targets(s: State, id: string): seq<LoadedPlugin> {
    (if id in s.loaded then [s.loaded[id]] else []) + Retired(s.retired, id)
  }

  function ClientsOf(plugins: seq<LoadedPlugin>): seq<Client> {
    seq(|plugins|, i requires 0 <= i < |plugins| => plugins[i].client)
  }

  function CleanPaths(clean: Cleaner, plugins: seq<LoadedPlugin>): set<string> {
    set lp | lp in plugins :: CleanPath(clean, lp.path)
  }

  function Without(records: seq<Record>, id: string): seq<Record> {
    if records == [] then []
    else
      var before, last := Without(records[..|records| - 1], id), records[|records| - 1];
      if last.id == id then before else before + [last]
  }

  function StopAll(c: Clients, stopped: seq<Client>): Clients {
    c.(stops := c.stops + multiset(stopped),
       home := map x | x in c.home :: if x in stopped then Stopped else c.home[x])
  }

  function Forgotten(m: Identities, id: string, paths: set<string>): Identities {
    Identities(m.fileVersions - paths, m.versions - {id}, m.paths - {id})
  }

  function Unload(clean: Cleaner, s: State, rawId: string): State {
    var id := TrimSpace(rawId);
    var targets := Targets(s, id);
    if id == "" || targets == [] then s
    else
      s.(loaded := s.loaded - {id},
         retired := s.retired - {id},
         fused := s.fused - {id},
         identities := Forgotten(s.identities, id, CleanPaths(clean, targets)),
         snapshot := s.snapshot.(records := Without(s.snapshot.records, id)),
         clients := StopAll(s.clients, ClientsOf(targets)))
  }

  // ShutdownAll visits the loaded and then the retired plugins, each map in an order of its own; targets is the
  // resulting list of clients.
  function ShutdownAll(s: State, targets: seq<Client>): State {
    s.(loaded := map[], retired := map[], loading := {},
       identities := NONE, snapshot := Snapshot(false, []),
       clients := StopAll(s.clients, targets))
  }

  // The clients that ShutdownAll shuts down, in any order
  ghost predicate AllTargets(s: State, targets: seq<Client>) {
    Distinct(targets) &&
    forall c: Client :: c in targets <==>
      (exists id :: id in s.loaded && s.loaded[id].client == c) ||
      (exists id :: id in s.retired && c in ClientsOf(s.retired[id]))
  }

  predicate Distinct(s: seq<Client>) {
    forall i, j :: 0 <= i < j < |s| ==> s[i] != s[j]
  }

  predicate PluginBusy(s: State, rawId: string) {
    var id := TrimSpace(rawId);
    id != "" && (id in s.loaded || Retired(s.retired, id) != [] || id in s.loading)
  }

  // ---------- runs ----------

  datatype Op =
    | Apply(config: Config, world: string -> Answer)
    | Unloading(id: string)
    | ShuttingDown(targets: seq<Client>)
    | Fusing(id: string)                       // a panic of a plugin in a call outside these operations

  function Step(clean: Cleaner, s: State, op: Op): State {
    match op
    case Apply(config, world) => ApplyConfig(clean, s, config, world)
    case Unloading(id) => Unload(clean, s, id)
    case ShuttingDown(targets) => ShutdownAll(s, targets)
    case Fusing(id) => s.(fused := s.fused + {id})
  }

  function Start(): State {
    State(map[], map[], {}, {}, NONE, Snapshot(false, []), Clients(0, multiset{}, map[]))
  }
}
