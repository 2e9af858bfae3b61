// Registering plugin models and executors. What was computed from a snapshot is committed only if that snapshot
// is still installed; then the registry and the executor manager are brought from the host's previous entries to
// the new ones.
module Registrations {
  import opened Text
  import opened Executors

  // ---------- the model registry and the executor manager ----------

  // An executor is an adapter of this host, or somebody else's.
  datatype Executor = Own(adapter: Adapter) | Native(name: string)

  class Registry {
    var clients: map<string, ModelClient>

    constructor ()
      ensures clients == map[]
    {
      clients := map[];
    }

    // A client without any model id is unregistered.
    method RegisterClient(c: ModelClient)
      modifies this
      ensures clients == Registered(old(clients), c)
      ensures clients == if exists m :: m in c.models && m.id != "" then old(clients)[c.id := c] else old(clients) - {c.id}
    {
      if NoModels(c) {
        clients := clients - {c.id};
      } else {
        clients := clients[c.id := c];
      }
    }

    method UnregisterClient(id: string)
      modifies this
      ensures clients == old(clients) - {id}
    {
      clients := clients - {id};
    }
  }

  predicate NoModels(c: ModelClient) {
    forall m :: m in c.models ==> m.id == ""
  }

  function Registered(clients: map<string, ModelClient>, c: ModelClient): map<string, ModelClient> {
    if NoModels(c) then clients - {c.id} else clients[c.id := c]
  }

  function RegisteredAll(clients: map<string, ModelClient>, more: seq<ModelClient>): map<string, ModelClient> {
    if more == [] then clients
    else Registered(RegisteredAll(clients, more[..|more| - 1]), more[|more| - 1])
  }

  // Keys are normalised providers.
  class Manager {
    var executors: map<string, Executor>

    constructor ()
      ensures executors == map[]
    {
      executors := map[];
    }

    method RegisterExecutor(a: Adapter)
      modifies this
      ensures executors == Installed(old(executors), a)
    {
      if a.provider != "" {
        executors := executors[a.provider := Own(a)];
      }
    }

    method UnregisterExecutor(provider: string)
      modifies this
      ensures executors == old(executors) - {provider}
    {
      executors := executors - {provider};
    }
  }

  function Installed(executors: map<string, Executor>, a: Adapter): map<string, Executor> {
    if a.provider == "" then executors else executors[a.provider := Own(a)]
  }

  function WithAdapters(executors: map<string, Executor>, adapters: seq<Adapter>): map<string, Executor> {
    if adapters == [] then executors
    else Installed(WithAdapters(executors, adapters[..|adapters| - 1]), adapters[|adapters| - 1])
  }

  // Of the stale providers, those whose executor is the host's own are unregistered.
  function WithoutOwn(executors: map<string, Executor>, stale: set<string>): map<string, Executor> {
    map p | p in executors && !(p in stale && executors[p].Own?) :: executors[p]
  }

  // ---------- RegisterModels ----------

  // What a plugin answers when asked for its models
  datatype Response = Response(provider: string, models: seq<Model>)

  // A record as RegisterModels sees it: offering tells that it has static models; the answer is none when the
  // call fails.
  datatype ModelRecord =
    ModelRecord(id: string, priority: int, offering: bool, hasExecutor: bool, answer: Option<Response>)

  datatype Registration =
    Registration(pluginId: string, provider: string, priority: int, models: seq<Model>, hasExecutor: bool)

  // The models with an id, their ids trimmed
  function Kept(models: seq<Model>): (r: seq<Model>)
    ensures forall m :: m in r ==> m.id == ModelId(m) != ""
    ensures ModelIds(r) == ModelIds(models) - {""}
  {
    if models == [] then []
    else
      var init, last := models[..|models| - 1], models[|models| - 1];
      assert models == init + [last];
      IdsPlus(init, last);
      if ModelId(last) == "" then Kept(init)
      else
        TrimTwice(last.id);
        IdsPlus(Kept(init), last.(id := ModelId(last)));
        Kept(init) + [last.(id := ModelId(last))]
  }

  function RegistrationOf(r: ModelRecord): Option<Registration> {
    if !r.offering || r.answer.None? then None
    else
      var provider, models := Normal(r.answer.value.provider), Kept(r.answer.value.models);
      if provider == "" || models == [] then None
      else Some(Registration(r.id, provider, r.priority, models, r.hasExecutor))
  }

  // A plugin without an executor is registered in the registry at once.
  function DirectClient(r: Registration): ModelClient {
    ModelClient("plugin:" + r.pluginId + ":" + r.provider, r.provider, r.models)
  }

  function RegistrationsOf(records: seq<ModelRecord>): map<string, Registration> {
    if records == [] then map[]
    else
      var before, last := RegistrationsOf(records[..|records| - 1]), RegistrationOf(records[|records| - 1]);
      if last.None? then before else before[last.value.pluginId := last.value]
  }

  function DirectClients(records: seq<ModelRecord>): seq<ModelClient> {
    if records == [] then []
    else
      var before, last := DirectClients(records[..|records| - 1]), RegistrationOf(records[|records| - 1]);
      if last.None? || last.value.hasExecutor then before else before + [DirectClient(last.value)]
  }

  function ProvidersByPlugin(registrations: map<string, Registration>): map<string, string> {
    map id | id in registrations :: registrations[id].provider
  }

  method KeepModels(models: seq<Model>) returns (kept: seq<Model>)
    ensures kept == Kept(models)
  {
    kept := [];
    for i := 0 to |models|
      invariant kept == Kept(models[..i])
    {
      assert models[..i + 1][..i] == models[..i];
      if ModelId(models[i]) != "" {
        kept := kept + [models[i].(id := ModelId(models[i]))];
      }
    }
    assert models[..|models|] == models;
  }

  method Register(r: ModelRecord) returns (registration: Option<Registration>)
    ensures registration == RegistrationOf(r)
  {
    if !r.offering || r.answer.None? {
      return None;
    }
    var provider := Normal(r.answer.value.provider);
    if provider == "" || |r.answer.value.models| == 0 {
      return None;
    }
    var models := KeepModels(r.answer.value.models);
    if |models| == 0 {
      return None;
    }
    registration := Some(Registration(r.id, provider, r.priority, models, r.hasExecutor));
  }

  lemma ProvidersMore(registrations: map<string, Registration>, r: Registration)
    ensures ProvidersByPlugin(registrations[r.pluginId := r]) == ProvidersByPlugin(registrations)[r.pluginId := r.provider]
  {
  }

  lemma CollectMore(records: seq<ModelRecord>, i: nat)
    requires i < |records|
    ensures var last := RegistrationOf(records[i]);
      RegistrationsOf(records[..i + 1]) ==
        (if last.None? then RegistrationsOf(records[..i]) else RegistrationsOf(records[..i])[last.value.pluginId := last.value]) &&
      DirectClients(records[..i + 1]) ==
        if last.None? || last.value.hasExecutor then DirectClients(records[..i])
        else DirectClients(records[..i]) + [DirectClient(last.value)]
  {
    assert records[..i + 1][..i] == records[..i];
  }

  // The loop of RegisterModels
  method CollectRegistrations(records: seq<ModelRecord>)
    returns (clients: seq<ModelClient>, nextClients: set<string>, nextProviders: map<string, string>,
             nextRegistrations: map<string, Registration>)
    ensures clients == DirectClients(records) && nextClients == IdsOf(clients)
    ensures nextRegistrations == RegistrationsOf(records) && nextProviders == ProvidersByPlugin(nextRegistrations)
  {
    clients, nextClients, nextProviders, nextRegistrations := [], {}, map[], map[];
    for i := 0 to |records|
      invariant clients == DirectClients(records[..i]) && nextClients == IdsOf(clients)
      invariant nextRegistrations == RegistrationsOf(records[..i])
      invariant nextProviders == ProvidersByPlugin(nextRegistrations)
    {
      CollectMore(records, i);
      var registration := Register(records[i]);
      if registration.None? {
        continue;
      }
      var r := registration.value;
      ProvidersMore(nextRegistrations, r);
      nextRegistrations, nextProviders := nextRegistrations[r.pluginId := r], nextProviders[r.pluginId := r.provider];
      if !r.hasExecutor {
        clients, nextClients := clients + [DirectClient(r)], nextClients + {DirectClient(r).id};
      }
    }
    assert records[..|records|] == records;
  }

  // ---------- the host ----------

  class RegistrationHost {
    // stands for the snapshot installed: equal numbers, same snapshot
    var snapshot: nat
    var modelClientIds: set<string>
    var modelProviders: map<string, string>
    var modelRegistrations: map<string, Registration>
    var providerModels: map<string, seq<Model>>
    var executorProviders: set<string>
    var executorModelClientIds: set<string>

    constructor (snapshot: nat)
      ensures this.snapshot == snapshot && modelClientIds == {} && executorProviders == {} && executorModelClientIds == {}
    {
      this.snapshot := snapshot;
      modelClientIds, modelProviders, modelRegistrations := {}, map[], map[];
      providerModels, executorProviders, executorModelClientIds := map[], {}, {};
    }

    // RegisterModels: from the records of the snapshot it started with to the commit
    method RegisterModels(snap: nat, registry: Registry, records: seq<ModelRecord>)
      modifies this, registry
      ensures snapshot == old(snapshot)
      ensures snap != snapshot ==> unchanged(this) && unchanged(registry)
      ensures snap == snapshot ==>
        var clients := DirectClients(records);
        registry.clients == Brought(old(registry.clients), old(modelClientIds), clients) &&
        modelClientIds == IdsOf(clients) && modelRegistrations == RegistrationsOf(records) &&
        modelProviders == ProvidersByPlugin(RegistrationsOf(records))
    {
      var clients, nextClients, nextProviders, nextRegistrations := CollectRegistrations(records);
      CommitModelClients(snap, registry, clients, nextClients, nextProviders, nextRegistrations);
    }

    method CommitModelClients(snap: nat, registry: Registry, clients: seq<ModelClient>, nextClients: set<string>,
                              nextProviders: map<string, string>, nextRegistrations: map<string, Registration>)
      requires nextClients == IdsOf(clients)
      modifies this, registry
      ensures snapshot == old(snapshot)
      ensures snap != snapshot ==> unchanged(this) && unchanged(registry)
      ensures snap == snapshot ==>
        registry.clients == Brought(old(registry.clients), old(modelClientIds), clients) &&
        modelClientIds == nextClients && modelProviders == nextProviders && modelRegistrations == nextRegistrations
    {
      if snapshot != snap {
        return;
      }
      var stale := modelClientIds - nextClients;
      modelClientIds, modelProviders, modelRegistrations := nextClients, nextProviders, nextRegistrations;
      Bring(registry, clients, stale);
    }

    // The clients that a snapshot's own registrations list per provider, before the executors are looked at
    method DirectModels(direct: seq<Registration>) returns (listed: map<string, seq<Model>>)
      ensures NoneTwice(listed) && listed == Listed(map[], DirectEntries(direct, |direct|))
    {
      listed := map[];
      for i := 0 to |direct|
        invariant NoneTwice(listed) && listed == Listed(map[], DirectEntries(direct, i))
      {
        DirectMore(direct, i);
        if !direct[i].hasExecutor {
          AppendKeeps(listed, direct[i].provider, direct[i].models);
          listed := AppendModelsForProvider(listed, direct[i].provider, direct[i].models);
        }
      }
    }

    // RegisterExecutors: direct are the registrations in their order, cands the records with an executor, and
    // providersOf is the registry's answer to which providers a model has
    method RegisterExecutors(snap: nat, manager: Manager, registry: Registry?, direct: seq<Registration>,
                             cands: seq<Candidate>, providersOf: string -> set<string>)
      requires DistinctPlugins(cands) && ProvidersNormal(cands)
      modifies this, manager, registry
      ensures snapshot == old(snapshot)
      ensures snap != snapshot ==> unchanged(this) && unchanged(manager) && (registry != null ==> unchanged(registry))
      ensures snap == snapshot ==>
        var natives := NativesOf(old(manager.executors), if registry == null then _ => {} else providersOf);
        var chosen := AllChosen(cands, natives);
        var adapters := Adapters(cands, natives, chosen, |cands|);
        var clients := Clients(cands, natives, chosen, |cands|);
        executorProviders == ProvidersOf(adapters) && executorModelClientIds == IdsOf(clients) &&
        manager.executors == Replaced(old(manager.executors), old(executorProviders), adapters) &&
        (registry != null ==>
          registry.clients == Brought(old(registry.clients), old(executorModelClientIds), clients)) &&
        NoneTwice(providerModels) && AllListed(providerModels, clients) &&
        providerModels == Listed(map[], AllEntries(direct, cands, natives, chosen))
      ensures snap == snapshot ==>
        NativesKept(old(manager.executors), manager.executors) &&
        AdaptersGiven(old(manager.executors), manager.executors, cands) &&
        UnrivalledServed(old(manager.executors), if registry == null then _ => {} else providersOf, cands, manager.executors) &&
        AdaptersBringModels(manager.executors, cands, executorProviders, executorModelClientIds) &&
        AllOfThem(direct, old(manager.executors), cands, providerModels)
      ensures snap == snapshot && registry != null ==>
        ModelsSpared(old(manager.executors), providersOf, old(registry.clients), registry.clients)
    {
      var natives := NativesOf(manager.executors, if registry == null then _ => {} else providersOf);
      ghost var chosen := AllChosen(cands, natives);
      Spared(manager.executors, executorProviders, if registry == null then _ => {} else providersOf, direct, cands);
      if registry != null {
        ClientsSpared(manager.executors, providersOf, cands, registry.clients, executorModelClientIds);
      }
      var before := DirectModels(direct);
      var selected, withNative := SelectModels(cands, natives, before);
      var s := AssignProviders(cands, natives, selected, chosen, withNative);
      ListedInThree(direct, cands, natives, chosen);
      CommitExecutorState(snap, manager, registry, s.listed, s.adapters, s.providers, s.clients, s.ids);
    }

    method CommitExecutorState(snap: nat, manager: Manager, registry: Registry?, listed: map<string, seq<Model>>,
                               adapters: seq<Adapter>, nextProviders: set<string>,
                               clients: seq<ModelClient>, nextClients: set<string>)
      requires nextProviders == ProvidersOf(adapters) && nextClients == IdsOf(clients)
      modifies this, manager, registry
      ensures snapshot == old(snapshot)
      ensures snap != snapshot ==> unchanged(this) && unchanged(manager) && (registry != null ==> unchanged(registry))
      ensures snap == snapshot ==>
        executorProviders == nextProviders && executorModelClientIds == nextClients && providerModels == listed &&
        manager.executors == Replaced(old(manager.executors), old(executorProviders), adapters) &&
        (registry != null ==> registry.clients == Brought(old(registry.clients), old(executorModelClientIds), clients))
    {
      if snapshot != snap {
        return;
      }
      providerModels := listed;
      var staleProviders := executorProviders - nextProviders;
      executorProviders := nextProviders;
      var staleClients := executorModelClientIds - nextClients;
      executorModelClientIds := nextClients;
      Replace(manager, adapters, staleProviders);
      if registry != null {
        Bring(registry, clients, staleClients);
      }
    }
  }

  // What the registrations of plugins without an executor list
  function DirectEntries(direct: seq<Registration>, n: nat): seq<Entry>
    requires n <= |direct|
  {
    if n == 0 then []
    else
      DirectEntries(direct, n - 1) +
      if direct[n - 1].hasExecutor then [] else [Entry(direct[n - 1].provider, direct[n - 1].models)]
  }

  lemma DirectMore(direct: seq<Registration>, n: nat)
    requires n < |direct|
    ensures var before := Listed(map[], DirectEntries(direct, n));
      Listed(map[], DirectEntries(direct, n + 1)) ==
      if direct[n].hasExecutor then before else WithModels(before, direct[n].provider, direct[n].models)
  {
    var entries := DirectEntries(direct, n);
    if direct[n].hasExecutor {
      assert entries + [] == entries;
    } else {
      ListedOne(map[], entries, Entry(direct[n].provider, direct[n].models));
    }
  }

  // All that a pass lists per provider: the plugins without an executor, then those whose provider has a native
  // executor, then those that serve their provider.
  function AllEntries(direct: seq<Registration>, cands: seq<Candidate>, natives: Natives,
                      chosen: seq<seq<Model>>): seq<Entry>
    requires |chosen| == |cands|
  {
    DirectEntries(direct, |direct|) + NativeEntries(cands, natives, |cands|) + ServedEntries(cands, natives, chosen, |cands|)
  }

  lemma ListedInThree(direct: seq<Registration>, cands: seq<Candidate>, natives: Natives, chosen: seq<seq<Model>>)
    requires |chosen| == |cands|
    ensures Listed(map[], AllEntries(direct, cands, natives, chosen)) ==
      Listed(Listed(Listed(map[], DirectEntries(direct, |direct|)), NativeEntries(cands, natives, |cands|)),
             ServedEntries(cands, natives, chosen, |cands|))
  {
    var d, n, s := DirectEntries(direct, |direct|), NativeEntries(cands, natives, |cands|), ServedEntries(cands, natives, chosen, |cands|);
    ListedMore(map[], d, n);
    ListedMore(map[], d + n, s);
  }

  // A native executor: one that is registered for the provider and is not the host's own
  function NativesOf(executors: map<string, Executor>, providersOf: string -> set<string>): Natives {
    var provider := (p: string) => p in executors && executors[p].Native?;
    Natives(provider, m => exists p :: p in providersOf(m) && provider(p))
  }

  // The executors after the adapters were registered and the host's own stale ones unregistered
  function Replaced(executors: map<string, Executor>, previous: set<string>, adapters: seq<Adapter>): map<string,
                    Executor> {
    WithoutOwn(WithAdapters(executors, adapters), previous - ProvidersOf(adapters))
  }

  method Replace(manager: Manager, adapters: seq<Adapter>, stale: set<string>)
    modifies manager
    ensures manager.executors == WithoutOwn(WithAdapters(old(manager.executors), adapters), stale)
  {
    for i := 0 to |adapters|
      invariant manager.executors == WithAdapters(old(manager.executors), adapters[..i])
    {
      assert adapters[..i + 1][..i] == adapters[..i];
      if adapters[i].provider != "" {
        manager.RegisterExecutor(adapters[i]);
      }
    }
    assert adapters[..|adapters|] == adapters;
    var left := stale;
    ghost var all := manager.executors;
    while left != {}
      invariant left <= stale && manager.executors == WithoutOwn(all, stale - left)
    {
      var p :| p in left;
      if p in manager.executors && manager.executors[p].Own? {
        manager.UnregisterExecutor(p);
      }
      left := left - {p};
    }
    assert stale - {} == stale;
  }

  // The registry after the new clients were registered and the stale ones unregistered
  function Brought(clients: map<string, ModelClient>, previous: set<string>, next: seq<ModelClient>): map<string,
                   ModelClient> {
    RegisteredAll(clients, next) - (previous - IdsOf(next))
  }

  method Bring(registry: Registry, clients: seq<ModelClient>, stale: set<string>)
    modifies registry
    ensures registry.clients == RegisteredAll(old(registry.clients), clients) - stale
  {
    for i := 0 to |clients|
      invariant registry.clients == RegisteredAll(old(registry.clients), clients[..i])
    {
      assert clients[..i + 1][..i] == clients[..i];
      registry.RegisterClient(clients[i]);
    }
    assert clients[..|clients|] == clients;
    var left := stale;
    ghost var all := registry.clients;
    while left != {}
      invariant left <= stale && registry.clients == all - (stale - left)
    {
      var id :| id in left;
      registry.UnregisterClient(id);
      assert stale - (left - {id}) == stale - left + {id};
      left := left - {id};
    }
    assert stale - {} == stale;
  }

  // ---------- what a commit leaves ----------

  predicate DistinctClients(clients: seq<ModelClient>) {
    forall i, j :: 0 <= i < j < |clients| ==> clients[i].id != clients[j].id
  }

  lemma {:induction false} RegisteredEach(clients: map<string, ModelClient>, next: seq<ModelClient>)
    requires DistinctClients(next) && forall c :: c in next ==> !NoModels(c)
    ensures var r := RegisteredAll(clients, next);
      r.Keys == clients.Keys + IdsOf(next) &&
      (forall c :: c in next ==> r[c.id] == c) &&
      forall id :: id in clients && id !in IdsOf(next) ==> r[id] == clients[id]
  {
    if next != [] {
      var init, last := next[..|next| - 1], next[|next| - 1];
      RegisterLast(next);
      RegisteredEach(clients, init);
    }
  }

  lemma RegisterLast(next: seq<ModelClient>)
    requires DistinctClients(next) && next != []
    ensures var init, last := next[..|next| - 1], next[|next| - 1];
      IdsOf(next) == IdsOf(init) + {last.id} && last.id !in IdsOf(init) && forall c :: c in next <==> c in init || c == last
  {
    var init, last := next[..|next| - 1], next[|next| - 1];
    assert next == init + [last];
  }

  // If the registry held the host's previous clients and others, it holds exactly the new ones and those others.
  lemma RegistryExact(clients: map<string, ModelClient>, previous: set<string>, next: seq<ModelClient>)
    requires DistinctClients(next) && forall c :: c in next ==> !NoModels(c)
    ensures var r := Brought(clients, previous, next);
      r.Keys == (clients.Keys - previous) + IdsOf(next) &&
      (forall c :: c in next ==> r[c.id] == c) &&
      forall id :: id in clients && id !in previous && id !in IdsOf(next) ==> r[id] == clients[id]
  {
    RegisteredEach(clients, next);
    assert forall c :: c in next ==> c.id in IdsOf(next);
  }

  lemma {:induction false} InstalledEach(executors: map<string, Executor>, adapters: seq<Adapter>)
    requires OnePerProvider(adapters) && forall a :: a in adapters ==> a.provider != ""
    ensures var r := WithAdapters(executors, adapters);
      r.Keys == executors.Keys + ProvidersOf(adapters) &&
      (forall a :: a in adapters ==> r[a.provider] == Own(a)) &&
      forall p :: p in executors && p !in ProvidersOf(adapters) ==> r[p] == executors[p]
  {
    if adapters != [] {
      var init, last := adapters[..|adapters| - 1], adapters[|adapters| - 1];
      InstalledEach(executors, init);
      InstallLast(adapters);
    }
  }

  lemma InstallLast(adapters: seq<Adapter>)
    requires OnePerProvider(adapters) && adapters != [] && forall a :: a in adapters ==> a.provider != ""
    ensures var init, last := adapters[..|adapters| - 1], adapters[|adapters| - 1];
      ProvidersOf(adapters) == ProvidersOf(init) + {last.provider} && last.provider !in ProvidersOf(init) && last.provider != "" &&
      forall a :: a in adapters <==> a in init || a == last
  {
    var init, last := adapters[..|adapters| - 1], adapters[|adapters| - 1];
    assert adapters == init + [last];
    assert last in adapters;
  }

  // After a commit each new provider has its adapter; of the others only stale ones that were the host's own are
  // gone, and everything else is as it was.
  lemma ExecutorsExact(executors: map<string, Executor>, previous: set<string>, adapters: seq<Adapter>, p: string)
    requires OnePerProvider(adapters) && forall a :: a in adapters ==> a.provider != ""
    ensures var r := Replaced(executors, previous, adapters);
      if p in ProvidersOf(adapters) then p in r && r[p].Own? && r[p].adapter in adapters && r[p].adapter.provider == p
      else if p in executors && !(p in previous && executors[p].Own?) then p in r && r[p] == executors[p]
      else p !in r
  {
    InstalledEach(executors, adapters);
  }

  lemma CutAtColon(a: string, b: string, x: string, y: string)
    requires ':' !in a && ':' !in b && a + [':'] + x == b + [':'] + y
    ensures a == b
  {
    var s := a + [':'] + x;
    assert s[|a|] == ':' && s[|b|] == ':';
    assert forall i | 0 <= i < |a| :: s[i] == a[i] != ':';
    assert forall i | 0 <= i < |b| :: s[i] == b[i] != ':';
    assert |a| == |b|;
    assert a == s[..|a|] && b == s[..|b|];
  }

  // The ids of model clients differ when the plugins do: a plugin id holds no colon.
  lemma ClientIdsDiffer(a: string, b: string, p: string, q: string)
    requires ':' !in a && ':' !in b && a != b
    ensures ClientId(a, p) != ClientId(b, q)
  {
    if ClientId(a, p) == ClientId(b, q) {
      assert ClientId(a, p)[7..] == a + [':'] + (p + ":executor");
      assert ClientId(b, q)[7..] == b + [':'] + (q + ":executor");
      CutAtColon(a, b, p + ":executor", q + ":executor");
    }
  }

  lemma ArbitrationHasModels(cands: seq<Candidate>, natives: Natives)
    ensures forall c :: c in Clients(cands, natives, AllChosen(cands, natives), |cands|) ==> !NoModels(c)
  {
    var chosen := AllChosen(cands, natives);
    ClientsAre(cands, natives, chosen, |cands|);
    forall c | c in Clients(cands, natives, chosen, |cands|) ensures !NoModels(c) {
      var i: nat :| i < |cands| && Serves(cands, natives, chosen, i) && chosen[i] != [] && c == ClientOf(cands[i], chosen[i]);
      ChosenHaveIds(cands, natives, i);
      assert chosen[i][0] in c.models;
    }
  }

  // The model clients of an arbitration have ids of their own and models, as a commit needs them.
  lemma ArbitrationCommits(cands: seq<Candidate>, natives: Natives, n: nat)
    requires n <= |cands| && DistinctPlugins(cands) && forall c :: c in cands ==> ':' !in c.pluginId
    ensures DistinctClients(Clients(cands, natives, AllChosen(cands, natives), n))
  {
    ClientsCommit(cands, natives, AllChosen(cands, natives), n);
  }

  lemma {:induction false} ClientsCommit(cands: seq<Candidate>, natives: Natives, chosen: seq<seq<Model>>, n: nat)
    requires n <= |cands| == |chosen| && DistinctPlugins(cands) && forall c :: c in cands ==> ':' !in c.pluginId
    ensures DistinctClients(Clients(cands, natives, chosen, n))
  {
    if n > 0 {
      ClientsCommit(cands, natives, chosen, n - 1);
      NextCommits(cands, natives, chosen, n - 1);
    }
  }

  lemma NextCommits(cands: seq<Candidate>, natives: Natives, chosen: seq<seq<Model>>, n: nat)
    requires n < |cands| == |chosen| && DistinctPlugins(cands) && forall c :: c in cands ==> ':' !in c.pluginId
    requires DistinctClients(Clients(cands, natives, chosen, n))
    ensures DistinctClients(Clients(cands, natives, chosen, n + 1))
  {
    if Serves(cands, natives, chosen, n) && chosen[n] != [] {
      NextIsNew(cands, natives, chosen, n);
      DistinctMore(Clients(cands, natives, chosen, n), ClientOf(cands[n], chosen[n]));
    }
  }

  lemma NextIsNew(cands: seq<Candidate>, natives: Natives, chosen: seq<seq<Model>>, n: nat)
    requires n < |cands| == |chosen| && DistinctPlugins(cands) && forall c :: c in cands ==> ':' !in c.pluginId
    requires cands[n].second.Some?
    ensures forall b :: b in Clients(cands, natives, chosen, n) ==> b.id != ClientOf(cands[n], chosen[n]).id
  {
    ClientsAre(cands, natives, chosen, n);
    forall b | b in Clients(cands, natives, chosen, n) ensures b.id != ClientOf(cands[n], chosen[n]).id {
      NewClientId(cands, natives, chosen, n, b);
    }
  }

  lemma DistinctMore(clients: seq<ModelClient>, c: ModelClient)
    requires DistinctClients(clients) && forall b :: b in clients ==> b.id != c.id
    ensures DistinctClients(clients + [c])
  {
    forall k | 0 <= k < |clients| ensures clients[k].id != c.id {
      assert clients[k] in clients;
    }
  }

  lemma NewClientId(cands: seq<Candidate>, natives: Natives, chosen: seq<seq<Model>>, n: nat, c: ModelClient)
    requires n < |cands| == |chosen| && DistinctPlugins(cands) && forall x :: x in cands ==> ':' !in x.pluginId
    requires ClientOfOne(cands, natives, chosen, n, c) && cands[n].second.Some?
    ensures c.id != ClientId(cands[n].pluginId, cands[n].second.value)
  {
    var i: nat :| i < n && Serves(cands, natives, chosen, i) && chosen[i] != [] && c == ClientOf(cands[i], chosen[i]);
    assert cands[i] in cands && cands[n] in cands;
    ClientIdsDiffer(cands[i].pluginId, cands[n].pluginId, cands[i].second.value, cands[n].second.value);
  }

  lemma ChosenHaveIds(cands: seq<Candidate>, natives: Natives, i: nat)
    requires i < |cands|
    ensures forall m :: m in Chosen(cands, natives, i) ==> m.id != ""
  {
    NoneChosen(cands, natives, i);
    forall m | m in Chosen(cands, natives, i) ensures m.id != "" {
      assert Wins(cands, natives, i, ModelId(m));
    }
  }

  predicate DistinctRecords(records: seq<ModelRecord>) {
    (forall i, j :: 0 <= i < j < |records| ==> records[i].id != records[j].id) &&
    forall r :: r in records ==> ':' !in r.id
  }

  // Client c is that of a record without an executor.
  predicate DirectlyOf(r: ModelRecord, c: ModelClient) {
    RegistrationOf(r).Some? && !r.hasExecutor && c == DirectClient(RegistrationOf(r).value)
  }

  // A record is registered if it offers models and answers with a provider and a model that has an id.
  predicate Registers(r: ModelRecord) {
    r.offering && r.answer.Some? && TrimSpace(r.answer.value.provider) != "" &&
    exists m :: m in r.answer.value.models && TrimSpace(m.id) != ""
  }

  lemma LowerBlank(s: string)
    ensures ToLower(s) == "" <==> s == ""
  {
    assert |ToLower(s)| == |s|;
  }

  lemma KeptSome(models: seq<Model>)
    ensures Kept(models) != [] <==> exists m :: m in models && TrimSpace(m.id) != ""
  {
    var kept := Kept(models);
    if kept != [] {
      assert kept[0] in kept && ModelId(kept[0]) != "";
      assert ModelId(kept[0]) in ModelIds(kept);
      assert ModelId(kept[0]) in ModelIds(models);
    }
    if m :| m in models && TrimSpace(m.id) != "" {
      assert ModelId(m) in ModelIds(models);
      assert ModelId(m) in ModelIds(kept);
    }
  }

  lemma RegistersIff(r: ModelRecord)
    ensures RegistrationOf(r).Some? <==> Registers(r)
    ensures Registers(r) ==>
      var n := RegistrationOf(r).value;
      n.pluginId == r.id && n.priority == r.priority && n.hasExecutor == r.hasExecutor &&
      n.provider == ToLower(TrimSpace(r.answer.value.provider)) && ModelIds(n.models) == ModelIds(r.answer.value.models) - {""}
  {
    if r.answer.Some? {
      LowerBlank(TrimSpace(r.answer.value.provider));
      KeptSome(r.answer.value.models);
    }
  }

  // The table of a pass has exactly the records that register, each under its id.
  lemma {:induction false} RegistrationsExact(records: seq<ModelRecord>, id: string)
    requires DistinctRecords(records)
    ensures id in RegistrationsOf(records) <==> exists r :: r in records && r.id == id && Registers(r)
    ensures forall r :: r in records && r.id == id && Registers(r) ==>
      id in RegistrationsOf(records) && Some(RegistrationsOf(records)[id]) == RegistrationOf(r)
  {
    if records != [] {
      var init, last := records[..|records| - 1], records[|records| - 1];
      assert records == init + [last];
      RegistrationsExact(init, id);
      RegistersIff(last);
      assert forall r :: r in init ==> r.id != last.id;
    }
  }

  // The direct clients belong to the records without an executor, one each, and meet what a commit needs.
  lemma {:induction false} DirectClientsSound(records: seq<ModelRecord>)
    requires DistinctRecords(records)
    ensures forall c :: c in DirectClients(records) <==> exists r :: r in records && DirectlyOf(r, c)
    ensures DistinctClients(DirectClients(records)) && forall c :: c in DirectClients(records) ==> !NoModels(c)
  {
    if records != [] {
      var init, last := records[..|records| - 1], records[|records| - 1];
      assert records == init + [last];
      DirectClientsSound(init);
      var before := DirectClients(init);
      if RegistrationOf(last).Some? && !last.hasExecutor {
        var c := DirectClient(RegistrationOf(last).value);
        forall k | 0 <= k < |before| ensures before[k].id != c.id {
          assert before[k] in before;
          var r :| r in init && DirectlyOf(r, before[k]);
          DirectIdsDiffer(r, last, before[k], c);
        }
        assert c.models[0] in c.models;
        assert DirectlyOf(last, c);
      }
      forall c ensures c in DirectClients(records) <==> exists r :: r in records && DirectlyOf(r, c) {
        assert c in before <==> exists r :: r in init && DirectlyOf(r, c);
      }
    }
  }

  lemma DirectIdsDiffer(r: ModelRecord, s: ModelRecord, c: ModelClient, d: ModelClient)
    requires r.id != s.id && ':' !in r.id && ':' !in s.id && DirectlyOf(r, c) && DirectlyOf(s, d)
    ensures c.id != d.id
  {
    AfterPrefix(r.id, c.provider);
    AfterPrefix(s.id, d.provider);
    if c.id == d.id {
      CutAtColon(r.id, s.id, c.provider, d.provider);
    }
  }

  lemma AfterPrefix(pluginId: string, provider: string)
    ensures ("plugin:" + pluginId + ":" + provider)[7..] == pluginId + [':'] + provider
  {
  }

  // ---------- what a pass spares and what it gives, in terms of the executors it found ----------

  // Every executor that is not the host's own is still there.
  predicate NativesKept(was: map<string, Executor>, now: map<string, Executor>) {
    forall p | p in was && was[p].Native? :: p in now && now[p] == was[p]
  }

  // An executor that is new is the adapter of a record for its provider.
  predicate AdaptersGiven(was: map<string, Executor>, now: map<string, Executor>, cands: seq<Candidate>) {
    forall p | p in now && !(p in was && was[p] == now[p]) ::
      exists c :: c in cands && c.second == Some(p) && now[p] == Own(Adapter(p, c.pluginId))
  }

  // No model of a new client has a provider whose executor is not the host's own.
  predicate ModelsSpared(executors: map<string, Executor>, providersOf: string -> set<string>,
                         was: map<string, ModelClient>, now: map<string, ModelClient>)
  {
    forall id | id in now && !(id in was && was[id] == now[id]) ::
      forall m | m in now[id].models :: forall p | p in providersOf(ModelId(m)) :: p in executors ==> executors[p].Own?
  }

  // Record i is the only one so far for its provider, and brings no model, or one that no earlier record could take
  // and for which no foreign executor stands.
  predicate Unrivalled(executors: map<string, Executor>, providersOf: string -> set<string>, cands: seq<Candidate>,
                       i: nat)
    requires i < |cands|
  {
    cands[i].second.Some? && cands[i].first == cands[i].second &&
    (forall j | 0 <= j < i :: cands[j].first != cands[i].first && cands[j].second != cands[i].second) &&
    (cands[i].second.value in executors ==> executors[cands[i].second.value].Own?) &&
    (cands[i].models == [] || exists m :: m in cands[i].models && FreeModel(executors, providersOf, cands, i, ModelId(m)))
  }

  predicate FreeModel(executors: map<string, Executor>, providersOf: string -> set<string>, cands: seq<Candidate>,
                      i: nat, id: string)
    requires i < |cands|
  {
    id != "" &&
    (forall j | 0 <= j < i && id in ModelIds(cands[j].models) ::
      cands[j].first.None? || (cands[j].first.value in executors && executors[cands[j].first.value].Native?)) &&
    forall p | p in providersOf(id) :: p in executors ==> executors[p].Own?
  }

  predicate UnrivalledServed(executors: map<string, Executor>, providersOf: string -> set<string>,
                             cands: seq<Candidate>, now: map<string, Executor>) {
    forall i: nat | i < |cands| && Unrivalled(executors, providersOf, cands, i) ::
      cands[i].second.value in now && now[cands[i].second.value] == Own(Adapter(cands[i].second.value, cands[i].pluginId))
  }

  // Each provider now served has the adapter of a record for it, and that record has no models, or a client with those
  // that it won.
  predicate AdaptersBringModels(now: map<string, Executor>, cands: seq<Candidate>, providers: set<string>,
                                clientIds: set<string>) {
    forall p | p in providers ::
      p in now && now[p].Own? && now[p].adapter.provider == p &&
      exists c :: c in cands && Brings(c, now[p].adapter, clientIds)
  }

  predicate Brings(c: Candidate, a: Adapter, clientIds: set<string>) {
    c.second == Some(a.provider) && c.pluginId == a.pluginId &&
    (c.models == [] || ("plugin:" + c.pluginId + ":" + a.provider + ":executor") in clientIds)
  }

  lemma ServedBringModels(executors: map<string, Executor>, previous: set<string>, natives: Natives,
                          cands: seq<Candidate>)
    requires ProvidersNormal(cands)
    ensures var chosen := AllChosen(cands, natives);
      var adapters := Adapters(cands, natives, chosen, |cands|);
      AdaptersBringModels(Replaced(executors, previous, adapters), cands, ProvidersOf(adapters),
                          IdsOf(Clients(cands, natives, chosen, |cands|)))
  {
    var chosen := AllChosen(cands, natives);
    var adapters := Adapters(cands, natives, chosen, |cands|);
    var now := Replaced(executors, previous, adapters);
    AdaptersSound(cands, natives, chosen, |cands|);
    ClientsAre(cands, natives, chosen, |cands|);
    NormalProviders(cands, natives, chosen);
    forall p | p in ProvidersOf(adapters)
      ensures p in now && now[p].Own? && now[p].adapter.provider == p
      ensures exists c :: c in cands && Brings(c, now[p].adapter, IdsOf(Clients(cands, natives, chosen, |cands|)))
    {
      ExecutorsExact(executors, previous, adapters, p);
      ServedHasModels(cands, natives, chosen, now[p].adapter);
    }
  }

  lemma ServedHasModels(cands: seq<Candidate>, natives: Natives, chosen: seq<seq<Model>>, a: Adapter)
    requires |chosen| == |cands| && AdapterOfOne(cands, natives, chosen, |cands|, a)
    ensures exists c :: c in cands && Brings(c, a, IdsOf(Clients(cands, natives, chosen, |cands|)))
  {
    ClientsAre(cands, natives, chosen, |cands|);
    var i: nat :| i < |cands| && Serves(cands, natives, chosen, i) && a == Adapter(cands[i].second.value, cands[i].pluginId);
    assert cands[i] in cands;
    if cands[i].models != [] {
      assert ClientOfOne(cands, natives, chosen, |cands|, ClientOf(cands[i], chosen[i]));
    }
  }

  lemma NormalProviders(cands: seq<Candidate>, natives: Natives, chosen: seq<seq<Model>>)
    requires |chosen| == |cands| && ProvidersNormal(cands)
    ensures forall a :: a in Adapters(cands, natives, chosen, |cands|) ==> a.provider != ""
  {
    AdaptersSound(cands, natives, chosen, |cands|);
    forall a | a in Adapters(cands, natives, chosen, |cands|) ensures a.provider != "" {
      var i: nat :| i < |cands| && Serves(cands, natives, chosen, i) && a == Adapter(cands[i].second.value, cands[i].pluginId);
      assert cands[i] in cands;
      assert Normal("") == "";
    }
  }

  lemma NativesSpared(executors: map<string, Executor>, previous: set<string>, providersOf: string -> set<string>,
                      cands: seq<Candidate>)
    requires ProvidersNormal(cands)
    ensures var natives := NativesOf(executors, providersOf);
      NativesKept(executors, Replaced(executors, previous, Adapters(cands, natives, AllChosen(cands, natives), |cands|)))
  {
    var natives := NativesOf(executors, providersOf);
    var chosen := AllChosen(cands, natives);
    var adapters := Adapters(cands, natives, chosen, |cands|);
    var now := Replaced(executors, previous, adapters);
    AdaptersSound(cands, natives, chosen, |cands|);
    NormalProviders(cands, natives, chosen);
    forall p | p in executors && executors[p].Native? ensures p in now && now[p] == executors[p] {
      assert natives.provider(p);
      ExecutorsExact(executors, previous, adapters, p);
    }
  }

  lemma OneOfThem(cands: seq<Candidate>, natives: Natives, chosen: seq<seq<Model>>, a: Adapter)
    requires |chosen| == |cands| && AdapterOfOne(cands, natives, chosen, |cands|, a)
    ensures exists c :: c in cands && c.second == Some(a.provider) && a == Adapter(a.provider, c.pluginId)
  {
    var i: nat :| i < |cands| && Serves(cands, natives, chosen, i) && a == Adapter(cands[i].second.value, cands[i].pluginId);
    assert cands[i] in cands;
  }

  lemma OnlyAdaptersGiven(executors: map<string, Executor>, previous: set<string>,
                          providersOf: string -> set<string>, cands: seq<Candidate>)
    requires ProvidersNormal(cands)
    ensures var natives := NativesOf(executors, providersOf);
      AdaptersGiven(executors, Replaced(executors, previous, Adapters(cands, natives, AllChosen(cands, natives), |cands|)), cands)
  {
    var natives := NativesOf(executors, providersOf);
    var chosen := AllChosen(cands, natives);
    var adapters := Adapters(cands, natives, chosen, |cands|);
    var now := Replaced(executors, previous, adapters);
    AdaptersSound(cands, natives, chosen, |cands|);
    NormalProviders(cands, natives, chosen);
    forall p | p in now && !(p in executors && executors[p] == now[p])
      ensures exists c :: c in cands && c.second == Some(p) && now[p] == Own(Adapter(p, c.pluginId))
    {
      ExecutorsExact(executors, previous, adapters, p);
      OneOfThem(cands, natives, chosen, now[p].adapter);
    }
  }

  lemma {:induction false} RegisteredFrom(clients: map<string, ModelClient>, next: seq<ModelClient>, id: string)
    requires id in RegisteredAll(clients, next)
    ensures (id in clients && RegisteredAll(clients, next)[id] == clients[id]) || RegisteredAll(clients, next)[id] in next
  {
    if next != [] {
      var init := next[..|next| - 1];
      if id in RegisteredAll(clients, init) {
        RegisteredFrom(clients, init, id);
      }
    }
  }

  lemma ClientsSpared(executors: map<string, Executor>, providersOf: string -> set<string>, cands: seq<Candidate>,
                      was: map<string, ModelClient>, previous: set<string>)
    ensures var natives := NativesOf(executors, providersOf);
      ModelsSpared(executors, providersOf, was, Brought(was, previous, Clients(cands, natives, AllChosen(cands, natives), |cands|)))
  {
    var natives := NativesOf(executors, providersOf);
    var chosen := AllChosen(cands, natives);
    var clients := Clients(cands, natives, chosen, |cands|);
    var now := Brought(was, previous, clients);
    ClientsAre(cands, natives, chosen, |cands|);
    forall id | id in now && !(id in was && was[id] == now[id])
      ensures forall m | m in now[id].models :: forall p | p in providersOf(ModelId(m)) :: p in executors ==> executors[p].Own?
    {
      RegisteredFrom(was, clients, id);
      var i: nat :| i < |cands| && Serves(cands, natives, chosen, i) && chosen[i] != [] && now[id] == ClientOf(cands[i], chosen[i]);
      NoneChosen(cands, natives, i);
      forall m | m in now[id].models ensures !natives.model(ModelId(m)) {
        assert ModelId(m) in WonBy(cands, natives, i);
        assert Wins(cands, natives, i, ModelId(m));
      }
    }
  }

  lemma UnrivalledServes(executors: map<string, Executor>, providersOf: string -> set<string>,
                         cands: seq<Candidate>, i: nat)
    requires i < |cands| && Unrivalled(executors, providersOf, cands, i)
    ensures var natives := NativesOf(executors, providersOf); Serves(cands, natives, AllChosen(cands, natives), i)
  {
    var natives := NativesOf(executors, providersOf);
    if cands[i].models != [] {
      var m :| m in cands[i].models && FreeModel(executors, providersOf, cands, i, ModelId(m));
      assert Wins(cands, natives, i, ModelId(m)) by {
        forall j: nat | j < i ensures !Wins(cands, natives, j, ModelId(m)) {
          assert !Offers(natives, cands[j], ModelId(m));
        }
      }
      NoneChosen(cands, natives, i);
      assert ModelId(m) in WonBy(cands, natives, i);
    }
  }

  lemma UnrivalledGiven(executors: map<string, Executor>, previous: set<string>, providersOf: string -> set<string>,
                        cands: seq<Candidate>)
    requires ProvidersNormal(cands)
    ensures var natives := NativesOf(executors, providersOf);
      var adapters := Adapters(cands, natives, AllChosen(cands, natives), |cands|);
      UnrivalledServed(executors, providersOf, cands, Replaced(executors, previous, adapters))
  {
    var natives := NativesOf(executors, providersOf);
    var chosen := AllChosen(cands, natives);
    var adapters := Adapters(cands, natives, chosen, |cands|);
    AdaptersSound(cands, natives, chosen, |cands|);
    NormalProviders(cands, natives, chosen);
    forall i: nat | i < |cands| && Unrivalled(executors, providersOf, cands, i)
      ensures var p, now := cands[i].second.value, Replaced(executors, previous, adapters);
        p in now && now[p] == Own(Adapter(p, cands[i].pluginId))
    {
      var p := cands[i].second.value;
      UnrivalledServes(executors, providersOf, cands, i);
      assert AdapterOfOne(cands, natives, chosen, |cands|, Adapter(p, cands[i].pluginId));
      assert Adapter(p, cands[i].pluginId) in adapters && p in ProvidersOf(adapters);
      ExecutorsExact(executors, previous, adapters, p);
    }
  }

  // ---------- what a pass lists per provider ----------

  // All models of a plugin without an executor, and of a record whose provider has a foreign executor, are listed.
  predicate AllOfThem(direct: seq<Registration>, executors: map<string, Executor>, cands: seq<Candidate>,
                      listed: map<string, seq<Model>>) {
    (forall r | r in direct && !r.hasExecutor && Normal(r.provider) != "" ::
      Lists(listed, r.provider, ModelIds(r.models) - {""})) &&
    forall c | c in cands && c.first.Some? && Normal(c.first.value) != "" ::
      c.first.value in executors && executors[c.first.value].Native? ==> Lists(listed, c.first.value, ModelIds(c.models) - {""})
  }

  lemma {:induction false} EntryListed(entries: seq<Entry>, e: Entry)
    requires e in entries && Normal(e.provider) != ""
    ensures Lists(Listed(map[], entries), e.provider, ModelIds(e.models) - {""})
  {
    ListedIds(entries, Normal(e.provider));
    EntryAmong(entries, e);
  }

  lemma {:induction false} EntryAmong(entries: seq<Entry>, e: Entry)
    requires e in entries
    ensures ModelIds(e.models) <= ModelIds(ModelsFor(entries, Normal(e.provider)))
  {
    var init, last := entries[..|entries| - 1], entries[|entries| - 1];
    assert entries == init + [last];
    if e in init {
      EntryAmong(init, e);
    }
  }

  lemma {:induction false} DirectAmong(direct: seq<Registration>, n: nat, i: nat)
    requires i < n <= |direct| && !direct[i].hasExecutor
    ensures Entry(direct[i].provider, direct[i].models) in DirectEntries(direct, n)
  {
    if i < n - 1 {
      DirectAmong(direct, n - 1, i);
    }
  }

  lemma {:induction false} NativeAmong(cands: seq<Candidate>, natives: Natives, n: nat, i: nat)
    requires i < n <= |cands| && cands[i].first.Some? && natives.provider(cands[i].first.value)
    ensures Entry(cands[i].first.value, cands[i].models) in NativeEntries(cands, natives, n)
  {
    if i < n - 1 {
      NativeAmong(cands, natives, n - 1, i);
    }
  }

  lemma AllListedThere(direct: seq<Registration>, executors: map<string, Executor>,
                       providersOf: string -> set<string>, cands: seq<Candidate>)
    ensures var natives := NativesOf(executors, providersOf);
      AllOfThem(direct, executors, cands, Listed(map[], AllEntries(direct, cands, natives, AllChosen(cands, natives))))
  {
    var natives := NativesOf(executors, providersOf);
    var entries := AllEntries(direct, cands, natives, AllChosen(cands, natives));
    forall r | r in direct && !r.hasExecutor && Normal(r.provider) != ""
      ensures Lists(Listed(map[], entries), r.provider, ModelIds(r.models) - {""})
    {
      var i :| 0 <= i < |direct| && direct[i] == r;
      DirectAmong(direct, |direct|, i);
      EntryListed(entries, Entry(r.provider, r.models));
    }
    forall c | c in cands && c.first.Some? && Normal(c.first.value) != "" && natives.provider(c.first.value)
      ensures Lists(Listed(map[], entries), c.first.value, ModelIds(c.models) - {""})
    {
      var i :| 0 <= i < |cands| && cands[i] == c;
      NativeAmong(cands, natives, |cands|, i);
      EntryListed(entries, Entry(c.first.value, c.models));
    }
  }

  lemma Spared(executors: map<string, Executor>, previous: set<string>, providersOf: string -> set<string>,
               direct: seq<Registration>, cands: seq<Candidate>)
    requires ProvidersNormal(cands)
    ensures var natives := NativesOf(executors, providersOf);
      var adapters := Adapters(cands, natives, AllChosen(cands, natives), |cands|);
      var now := Replaced(executors, previous, adapters);
      NativesKept(executors, now) && AdaptersGiven(executors, now, cands) && UnrivalledServed(executors, providersOf, cands, now) &&
      AdaptersBringModels(now, cands, ProvidersOf(adapters), IdsOf(Clients(cands, natives, AllChosen(cands, natives), |cands|))) &&
      AllOfThem(direct, executors, cands, Listed(map[], AllEntries(direct, cands, natives, AllChosen(cands, natives))))
  {
    NativesSpared(executors, previous, providersOf, cands);
    OnlyAdaptersGiven(executors, previous, providersOf, cands);
    UnrivalledGiven(executors, previous, providersOf, cands);
    ServedBringModels(executors, previous, NativesOf(executors, providersOf), cands);
    AllListedThere(direct, executors, providersOf, cands);
  }
}
