// The model registry over runs: passes of the host over its plugins and over its executors, in any order, and what
// others register meanwhile.
module RegistryRuns {
  import opened Text
  import opened Executors
  import opened Registrations

  // The registry, and by id what the last pass of each kind, and others, have in it. The ids of the first two are
  // the host's modelClientIDs and executorModelClientIDs.
  datatype State = State(registry: map<string, ModelClient>, direct: map<string, ModelClient>,
                         executor: map<string, ModelClient>, foreign: map<string, ModelClient>)

  datatype Op =
    | Models(clients: seq<ModelClient>)       // the commit of RegisterModels
    | Served(clients: seq<ModelClient>)       // the commit of RegisterExecutors
    | Register(client: ModelClient)           // somebody else's
    | Unregister(id: string)

  const START := State(map[], map[], map[], map[])

  function ById(clients: seq<ModelClient>): map<string, ModelClient> {
    RegisteredAll(map[], clients)
  }

  function Step(s: State, op: Op): State {
    match op
    case Models(clients) => s.(registry := Brought(s.registry, s.direct.Keys, clients), direct := ById(clients))
    case Served(clients) => s.(registry := Brought(s.registry, s.executor.Keys, clients), executor := ById(clients))
    case Register(c) => s.(registry := Registered(s.registry, c), foreign := Registered(s.foreign, c))
    case Unregister(id) => s.(registry := s.registry - {id}, foreign := s.foreign - {id})
  }

  // What the host commits: clients with ids of their own, and with models
  ghost predicate Committed(op: Op) {
    match op
    case Models(clients) => DistinctClients(clients) && forall c :: c in clients ==> !NoModels(c)
    case Served(clients) => DistinctClients(clients) && forall c :: c in clients ==> !NoModels(c)
    case _ => true
  }

  // The clients that the two passes compute are such.
  lemma PassesCommit(records: seq<ModelRecord>, cands: seq<Candidate>, natives: Natives)
    requires DistinctRecords(records) && DistinctPlugins(cands) && forall c :: c in cands ==> ':' !in c.pluginId
    ensures Committed(Models(DirectClients(records)))
    ensures Committed(Served(Clients(cands, natives, AllChosen(cands, natives), |cands|)))
  {
    DirectClientsSound(records);
    ArbitrationCommits(cands, natives, |cands|);
    ArbitrationHasModels(cands, natives);
  }

  // The registry holds what each has in it, and nothing else, and no two have the same id.
  predicate Exact(s: State) {
    s.direct.Keys !! s.executor.Keys && s.direct.Keys !! s.foreign.Keys && s.executor.Keys !! s.foreign.Keys &&
    s.registry == s.direct + s.executor + s.foreign
  }

  // No id is one of another kind.
  predicate Apart(s: State, op: Op) {
    match op
    case Models(clients) => IdsOf(clients) !! s.executor.Keys + s.foreign.Keys
    case Served(clients) => IdsOf(clients) !! s.direct.Keys + s.foreign.Keys
    case Register(c) => c.id !in s.direct && c.id !in s.executor
    case Unregister(id) => id !in s.direct && id !in s.executor
  }

  lemma ByIdIs(clients: seq<ModelClient>)
    requires DistinctClients(clients) && forall c :: c in clients ==> !NoModels(c)
    ensures ById(clients).Keys == IdsOf(clients) && forall c :: c in clients ==> c.id in ById(clients) && ById(clients)[c.id] == c
  {
    RegisteredEach(map[], clients);
  }

  // A pass replaces its own clients by the new ones.
  lemma BroughtIs(registry: map<string, ModelClient>, previous: set<string>, clients: seq<ModelClient>, id: string)
    requires DistinctClients(clients) && forall c :: c in clients ==> !NoModels(c)
    ensures var r := Brought(registry, previous, clients);
      if id in IdsOf(clients) then id in r && id in ById(clients) && r[id] == ById(clients)[id]
      else if id in registry && id !in previous then id in r && r[id] == registry[id]
      else id !in r
  {
    RegistryExact(registry, previous, clients);
    ByIdIs(clients);
    if id in IdsOf(clients) {
      var c :| c in clients && c.id == id;
    }
  }

  lemma PassIs(registry: map<string, ModelClient>, own: map<string, ModelClient>, others: map<string, ModelClient>, clients: seq<ModelClient>)
    requires DistinctClients(clients) && forall c :: c in clients ==> !NoModels(c)
    requires own.Keys !! others.Keys && registry == own + others && IdsOf(clients) !! others.Keys
    ensures Brought(registry, own.Keys, clients) == ById(clients) + others
  {
    ByIdIs(clients);
    forall id ensures id in Brought(registry, own.Keys, clients) <==> id in ById(clients) + others {
      BroughtIs(registry, own.Keys, clients, id);
    }
    forall id | id in ById(clients) + others ensures Brought(registry, own.Keys, clients)[id] == (ById(clients) + others)[id] {
      BroughtIs(registry, own.Keys, clients, id);
    }
  }

  lemma ModelsExact(s: State, clients: seq<ModelClient>)
    requires Exact(s) && Committed(Models(clients)) && Apart(s, Models(clients))
    ensures Exact(Step(s, Models(clients)))
  {
    ByIdIs(clients);
    assert s.registry == s.direct + (s.executor + s.foreign);
    PassIs(s.registry, s.direct, s.executor + s.foreign, clients);
    assert ById(clients) + (s.executor + s.foreign) == ById(clients) + s.executor + s.foreign;
  }

  lemma ServedExact(s: State, clients: seq<ModelClient>)
    requires Exact(s) && Committed(Served(clients)) && Apart(s, Served(clients))
    ensures Exact(Step(s, Served(clients)))
  {
    ByIdIs(clients);
    assert s.registry == s.executor + (s.direct + s.foreign);
    PassIs(s.registry, s.executor, s.direct + s.foreign, clients);
    assert ById(clients) + (s.direct + s.foreign) == s.direct + ById(clients) + s.foreign;
  }

  // An operation keeps the registry exact if and only if it brings in no id of another kind.
  lemma StepExactIff(s: State, op: Op)
    requires Exact(s) && Committed(op)
    ensures Exact(Step(s, op)) <==> Apart(s, op)
  {
    match op
    case Models(clients) =>
      ByIdIs(clients);
      if Apart(s, op) {
        ModelsExact(s, clients);
      }
    case Served(clients) =>
      ByIdIs(clients);
      if Apart(s, op) {
        ServedExact(s, clients);
      }
    case Register(c) => RegisterExactIff(s, c);
    case Unregister(id) => UnregisterExactIff(s, id);
  }

  lemma RegisterExactIff(s: State, c: ModelClient)
    requires Exact(s)
    ensures Exact(Step(s, Register(c))) <==> Apart(s, Register(c))
  {
    var r := Step(s, Register(c));
    if Apart(s, Register(c)) {
      assert r.registry == r.direct + r.executor + r.foreign;
    } else {
      assert c.id in s.direct + s.executor + r.foreign;
    }
  }

  lemma UnregisterExactIff(s: State, id: string)
    requires Exact(s)
    ensures Exact(Step(s, Unregister(id))) <==> Apart(s, Unregister(id))
  {
    var r := Step(s, Unregister(id));
    if Apart(s, Unregister(id)) {
      assert r.registry == r.direct + r.executor + r.foreign;
    } else {
      assert id in r.direct + r.executor + r.foreign;
    }
  }

  // ---------- runs ----------

  function After(s: State, ops: seq<Op>): State {
    if ops == [] then s else Step(After(s, ops[..|ops| - 1]), ops[|ops| - 1])
  }

  predicate ExactAt(ops: seq<Op>, n: nat)
    requires n <= |ops|
  {
    Exact(After(START, ops[..n]))
  }

  predicate ApartAt(ops: seq<Op>, n: nat)
    requires n < |ops|
  {
    Apart(After(START, ops[..n]), ops[n])
  }

  lemma NextExact(ops: seq<Op>, n: nat, next: nat)
    requires n < |ops| && next == n + 1 && Committed(ops[n]) && ExactAt(ops, n)
    ensures ExactAt(ops, next) <==> ApartAt(ops, n)
  {
    assert ops[..next][..n] == ops[..n];
    StepExactIff(After(START, ops[..n]), ops[n]);
  }

  lemma {:induction false} ApartKeepsExact(ops: seq<Op>, n: nat)
    requires n <= |ops| && forall i: nat :: i < n ==> Committed(ops[i]) && ApartAt(ops, i)
    ensures ExactAt(ops, n)
    decreases n
  {
    if n > 0 {
      ApartKeepsExact(ops, n - 1);
      NextExact(ops, n - 1, n);
    }
  }

  // Over any run of passes, with others registering and unregistering in between, the registry holds at each point
  // exactly the host's clients of both kinds and those of others, if and only if no operation brings in an id of
  // another kind.
  lemma RunExactIff(ops: seq<Op>)
    requires forall i: nat :: i < |ops| ==> Committed(ops[i])
    ensures (forall n: nat :: n <= |ops| ==> ExactAt(ops, n)) <==> forall i: nat :: i < |ops| ==> ApartAt(ops, i)
  {
    if forall i: nat :: i < |ops| ==> ApartAt(ops, i) {
      forall n: nat | n <= |ops| ensures ExactAt(ops, n) {
        ApartKeepsExact(ops, n);
      }
    }
    if forall n: nat :: n <= |ops| ==> ExactAt(ops, n) {
      forall i: nat | i < |ops| ensures ApartAt(ops, i) {
        var next := i + 1;
        assert ExactAt(ops, i) && ExactAt(ops, next);
        NextExact(ops, i, next);
      }
    }
  }

  // ---------- ids ----------

  function DirectId(pluginId: string, provider: string): string {
    "plugin:" + pluginId + ":" + provider
  }

  // The id of a plugin's own client is that of an executor client if and only if it is the same plugin and the
  // provider is called like that of the executor with :executor behind it.
  lemma IdsCollideIff(a: string, p: string, b: string, q: string)
    requires ':' !in a && ':' !in b
    ensures DirectId(a, p) == ClientId(b, q) <==> a == b && p == q + ":executor"
  {
    assert DirectId(a, p)[7..] == a + [':'] + p;
    assert ClientId(b, q)[7..] == b + [':'] + (q + ":executor");
    if DirectId(a, p) == ClientId(b, q) {
      CutAtColon(a, b, p, q + ":executor");
      assert (a + [':'] + p)[|a| + 1..] == p;
      assert (b + [':'] + (q + ":executor"))[|b| + 1..] == q + ":executor";
    }
    if a == b && p == q + ":executor" {
      assert DirectId(a, p) == "plugin:" + (a + [':'] + p);
      assert ClientId(b, q) == "plugin:" + (b + [':'] + (q + ":executor"));
    }
  }

  predicate Ends(s: string, end: string) {
    |end| <= |s| && s[|s| - |end|..] == end
  }

  // The ids of the three kinds
  ghost predicate DirectKind(id: string) {
    exists a: string, p: string :: ':' !in a && !Ends(p, ":executor") && id == DirectId(a, p)
  }

  ghost predicate ExecutorKind(id: string) {
    exists b: string, q: string :: ':' !in b && id == ClientId(b, q)
  }

  lemma KindsApart(id: string)
    ensures DirectKind(id) ==> !ExecutorKind(id) && "plugin:" <= id
    ensures ExecutorKind(id) ==> "plugin:" <= id
  {
    if DirectKind(id) && ExecutorKind(id) {
      var a, p :| ':' !in a && !Ends(p, ":executor") && id == DirectId(a, p);
      var b, q :| ':' !in b && id == ClientId(b, q);
      IdsCollideIff(a, p, b, q);
      assert Ends(q + ":executor", ":executor");
    }
  }

  // Plugin ids hold no colon, no plugin without an executor has a provider that ends in :executor, and others keep
  // away from ids that start with plugin:.
  ghost predicate Proper(op: Op) {
    match op
    case Models(clients) => forall c :: c in clients ==> DirectKind(c.id)
    case Served(clients) => forall c :: c in clients ==> ExecutorKind(c.id)
    case Register(c) => !("plugin:" <= c.id)
    case Unregister(id) => !("plugin:" <= id)
  }

  ghost predicate Sorted(s: State) {
    (forall id :: id in s.direct ==> DirectKind(id)) && (forall id :: id in s.executor ==> ExecutorKind(id)) &&
    forall id :: id in s.foreign ==> !("plugin:" <= id)
  }

  lemma ProperIsApart(s: State, op: Op)
    requires Sorted(s) && Committed(op) && Proper(op)
    ensures Apart(s, op) && Sorted(Step(s, op))
  {
    forall id ensures (DirectKind(id) ==> !ExecutorKind(id) && "plugin:" <= id) && (ExecutorKind(id) ==> "plugin:" <= id) {
      KindsApart(id);
    }
    if op.Models? || op.Served? {
      ByIdIs(op.clients);
    }
  }

  lemma {:induction false} ProperSorted(ops: seq<Op>, n: nat)
    requires n <= |ops| && forall i: nat :: i < |ops| ==> Committed(ops[i]) && Proper(ops[i])
    ensures Sorted(After(START, ops[..n])) && forall i: nat :: i < n ==> ApartAt(ops, i)
    decreases n
  {
    if n > 0 {
      ProperSorted(ops, n - 1);
      assert ops[..n][..n - 1] == ops[..n - 1];
      ProperIsApart(After(START, ops[..n - 1]), ops[n - 1]);
    }
  }

  // Then the registry is exact over every run.
  lemma ProperRunExact(ops: seq<Op>)
    requires forall i: nat :: i < |ops| ==> Committed(ops[i]) && Proper(ops[i])
    ensures Exact(After(START, ops))
  {
    ProperSorted(ops, |ops|);
    ApartKeepsExact(ops, |ops|);
    assert ops[..|ops|] == ops;
  }

  // Otherwise it need not be: a plugin whose own client had the id of its executor client loses the latter when the
  // next pass finds its own client stale.
  lemma CollisionLoses(own: ModelClient, served: ModelClient)
    requires own.id == served.id && !NoModels(own) && !NoModels(served)
    ensures var s := After(START, [Models([own]), Served([served]), Models([])]);
      served.id in s.executor && served.id !in s.registry
  {
    var ops := [Models([own]), Served([served]), Models([])];
    assert ops[..2] == [Models([own]), Served([served])] && ops[..2][..1] == [Models([own])] && ops[..2][..1][..0] == [];
    assert [own][..0] == [] && [served][..0] == [];
    var one := Step(START, Models([own]));
    assert After(START, ops[..2][..1]) == one;
    var two := Step(one, Served([served]));
    assert After(START, ops[..2]) == two;
    assert IdsOf([]) == {};
  }
}
