// The client of the home cluster: which node it is connected to, and how it moves to another node after repeated
// failures. Every block under the client's mutex is one step.
module Failover {
  import opened StableSort
  import opened Text

  const THRESHOLD := 3

  datatype Node = Node(ip: string, port: int, clientCount: int, isMaster: bool)

  datatype Address = Address(host: string, port: int)

  // The client's fields; cmd and sub are the cached connections, by the address each was made for.
  datatype State = State(
    enabled: bool, discovery: bool, host: string, port: int, seedHost: string, seedPort: int,
    cmd: Option<Address>, sub: Option<Address>, nodes: seq<Node>, failures: nat)

  // ---------- the steps as functions ----------

  function Target(s: State): Address {
    Address(TrimSpace(s.host), s.port)
  }

  predicate Usable(a: Address) {
    a.host != "" && a.port > 0
  }

  function AddressOf(n: Node): Address {
    Address(TrimSpace(n.ip), n.port)
  }

  function Disconnected(s: State): State {
    s.(cmd := None, sub := None)
  }

  // ensureClients; the flags tell whether the options for each connection can be made
  function Ensured(s: State, cmdOptions: bool, subOptions: bool): State {
    if !s.enabled || !Usable(Target(s)) then s
    else if s.cmd.None? && !cmdOptions then s
    else
      var c := if s.cmd.None? then s.(cmd := Some(Target(s))) else s;
      if c.sub.None? && subOptions then c.(sub := Some(Target(s))) else c
  }

  predicate Moves(s: State, a: Address) {
    Usable(a) && a != Target(s)
  }

  // switchToNodeLocked
  function SwitchedTo(s: State, a: Address): State {
    if Moves(s, a) then Disconnected(s.(host := a.host, port := a.port)) else s
  }

  // The nodes known, and then the address the client was started with
  function Candidates(s: State): seq<Address> {
    seq(|s.nodes|, i requires 0 <= i < |s.nodes| => AddressOf(s.nodes[i])) +
    if Usable(Address(TrimSpace(s.seedHost), s.seedPort)) then [Address(TrimSpace(s.seedHost), s.seedPort)] else []
  }

  function FirstMove(s: State, candidates: seq<Address>): Option<Address> {
    if candidates == [] then None
    else if Moves(s, candidates[0]) then Some(candidates[0])
    else FirstMove(s, candidates[1..])
  }

  // switchToNextNodeLocked
  function Attempted(s: State): State {
    match FirstMove(s, Candidates(s))
    case None => s
    case Some(a) => SwitchedTo(s, a)
  }

  predicate Attempts(s: State) {
    s.discovery && s.failures + 1 >= THRESHOLD
  }

  // failoverAfterReconnectFailure
  function Failed(s: State): State {
    if !s.discovery then s.(failures := 0)
    else if s.failures + 1 < THRESHOLD then s.(failures := s.failures + 1)
    else Attempted(s.(failures := 0))
  }

  // failoverAfterSubscriptionTimeout
  function TimedOut(s: State): State {
    if !s.discovery then s.(failures := 0) else Attempted(s.(failures := 0))
  }

  // normalizeClusterNodes: the usable nodes, those with the fewest clients first
  function Kept(nodes: seq<Node>): seq<Node> {
    if nodes == [] then []
    else
      var before, n := Kept(nodes[..|nodes| - 1]), nodes[|nodes| - 1];
      if Usable(AddressOf(n)) then before + [Clean(n)] else before
  }

  function Clean(n: Node): Node {
    n.(ip := TrimSpace(n.ip), clientCount := if n.clientCount < 0 then 0 else n.clientCount)
  }

  predicate FewerClients(a: Node, b: Node) {
    a.clientCount < b.clientCount
  }

  function Normalized(nodes: seq<Node>): seq<Node> {
    Sort(FewerClients, Kept(nodes))
  }

  // refreshClusterNodes with the nodes of the reply
  function Refreshed(s: State, reply: seq<Node>): State {
    var nodes := Normalized(reply);
    if !s.discovery || nodes == [] then s
    else SwitchedTo(s.(nodes := nodes, failures := 0), AddressOf(nodes[0]))
  }

  // updateClusterNodesFromPayload
  function Updated(s: State, payload: seq<Node>): State {
    if s.discovery then s.(nodes := Normalized(payload)) else s
  }

  // ---------- the client ----------

  class Client {
    const enabled: bool
    const discovery: bool
    const seedHost: string
    const seedPort: int
    var host: string
    var port: int
    var cmd: Option<Address>
    var sub: Option<Address>
    var clusterNodes: seq<Node>
    var reconnectFailures: nat

    constructor (enabled: bool, discovery: bool, host: string, port: int)
      ensures Fields() == Start(enabled, discovery, host, port)
    {
      this.enabled, this.discovery, this.host, this.port := enabled, discovery, host, port;
      seedHost, seedPort := TrimSpace(host), port;
      cmd, sub, clusterNodes, reconnectFailures := None, None, [], 0;
    }

    ghost function Fields(): State
      reads this
    {
      State(enabled, discovery, host, port, seedHost, seedPort, cmd, sub, clusterNodes, reconnectFailures)
    }

    method Close()
      modifies this
      ensures Fields() == Disconnected(old(Fields()))
    {
      cmd, sub := None, None;
    }

    method EnsureClients(cmdOptions: bool, subOptions: bool) returns (ok: bool)
      modifies this
      ensures Fields() == Ensured(old(Fields()), cmdOptions, subOptions)
      ensures ok ==> cmd.Some? && sub.Some?
      ensures ok <==>
        enabled && TrimSpace(host) != "" && port > 0 && (old(cmd).Some? || cmdOptions) && (old(sub).Some? || subOptions)
    {
      var address := Address(TrimSpace(host), port);
      if !enabled || address.host == "" || address.port <= 0 {
        return false;
      }
      if cmd.None? {
        if !cmdOptions {
          return false;
        }
        cmd := Some(address);
      }
      if sub.None? {
        if !subOptions {
          return false;
        }
        sub := Some(address);
      }
      ok := true;
    }

    method SwitchToNode(a: Address) returns (moved: bool)
      modifies this
      ensures moved == Moves(old(Fields()), a)
      ensures Fields() == SwitchedTo(old(Fields()), a)
    {
      if a.host == "" || a.port <= 0 {
        return false;
      }
      if TrimSpace(host) == a.host && port == a.port {
        return false;
      }
      host, port := a.host, a.port;
      Close();
      moved := true;
    }

    method SwitchToNextNode() returns (moved: bool)
      modifies this
      ensures moved == FirstMove(old(Fields()), Candidates(old(Fields()))).Some?
      ensures Fields() == Attempted(old(Fields()))
      ensures moved <==> Target(Fields()) != Target(old(Fields()))
    {
      MovesIff(Fields());
      var nodes := clusterNodes;
      var candidates := seq(|nodes|, i requires 0 <= i < |nodes| => AddressOf(nodes[i]));
      if TrimSpace(seedHost) != "" && seedPort > 0 {
        candidates := candidates + [Address(TrimSpace(seedHost), seedPort)];
      }
      ghost var all := candidates;
      assert all == Candidates(old(Fields()));
      for i := 0 to |candidates|
        invariant Fields() == old(Fields())
        invariant FirstMove(old(Fields()), all) == FirstMove(old(Fields()), all[i..])
      {
        assert all[i..][1..] == all[i + 1..];
        moved := SwitchToNode(candidates[i]);
        if moved {
          return;
        }
      }
      moved := false;
    }

    method FailoverAfterReconnectFailure() returns (moved: bool)
      modifies this
      ensures Fields() == Failed(old(Fields()))
      ensures moved <==> Target(Fields()) != Target(old(Fields()))
      ensures moved ==> Attempts(old(Fields()))
    {
      if !discovery {
        reconnectFailures := 0;
        return false;
      }
      reconnectFailures := reconnectFailures + 1;
      if reconnectFailures < THRESHOLD {
        return false;
      }
      reconnectFailures := 0;
      moved := SwitchToNextNode();
    }

    method FailoverAfterSubscriptionTimeout() returns (moved: bool)
      modifies this
      ensures Fields() == TimedOut(old(Fields()))
      ensures moved <==> Target(Fields()) != Target(old(Fields()))
    {
      reconnectFailures := 0;
      if !discovery {
        return false;
      }
      moved := SwitchToNextNode();
    }

    method ResetReconnectFailures()
      modifies this
      ensures Fields() == old(Fields()).(failures := 0)
    {
      reconnectFailures := 0;
    }

    static method NormalizeClusterNodes(nodes: seq<Node>) returns (out: seq<Node>)
      ensures out == Normalized(nodes)
    {
      out := [];
      for i := 0 to |nodes|
        invariant out == Kept(nodes[..i])
      {
        assert nodes[..i + 1][..i] == nodes[..i];
        var node := nodes[i].(ip := TrimSpace(nodes[i].ip));
        if node.ip == "" || node.port <= 0 {
          continue;
        }
        if node.clientCount < 0 {
          node := node.(clientCount := 0);
        }
        out := out + [node];
      }
      assert nodes[..|nodes|] == nodes;
      out := Sort(FewerClients, out);
    }

    method RefreshClusterNodes(reply: seq<Node>) returns (moved: bool)
      modifies this
      ensures Fields() == Refreshed(old(Fields()), reply)
      ensures moved <==> Target(Fields()) != Target(old(Fields()))
    {
      if !discovery {
        return false;
      }
      var nodes := NormalizeClusterNodes(reply);
      if |nodes| == 0 {
        return false;
      }
      clusterNodes, reconnectFailures := nodes, 0;
      TrimTwice(nodes[0].ip);
      moved := SwitchToNode(AddressOf(nodes[0]));
    }

    method UpdateClusterNodes(payload: seq<Node>)
      modifies this
      ensures Fields() == Updated(old(Fields()), payload)
    {
      if discovery {
        clusterNodes := NormalizeClusterNodes(payload);
      }
    }
  }

  function Start(enabled: bool, discovery: bool, host: string, port: int): State {
    State(enabled, discovery, host, port, TrimSpace(host), port, None, None, [], 0)
  }

  // ---------- runs ----------

  datatype Op =
    | Ensure(cmdOptions: bool, subOptions: bool)
    | Refresh(reply: seq<Node>)
    | Update(payload: seq<Node>)
    | Fail
    | Timeout
    | Reset
    | CloseAll

  function Step(s: State, op: Op): State {
    match op
    case Ensure(cmdOptions, subOptions) => Ensured(s, cmdOptions, subOptions)
    case Refresh(reply) => Refreshed(s, reply)
    case Update(payload) => Updated(s, payload)
    case Fail => Failed(s)
    case Timeout => TimedOut(s)
    case Reset => s.(failures := 0)
    case CloseAll => Disconnected(s)
  }

  function After(s: State, ops: seq<Op>): State {
    if ops == [] then s else Step(After(s, ops[..|ops| - 1]), ops[|ops| - 1])
  }

  // The addresses that a client can be sent to: the one it was started with, and those of the nodes reported to it
  function Known(start: Address, ops: seq<Op>): set<Address> {
    if ops == [] then {start}
    else Known(start, ops[..|ops| - 1]) + Reported(ops[|ops| - 1])
  }

  function Reported(op: Op): set<Address> {
    match op
    case Refresh(reply) => set n | n in reply && Usable(AddressOf(n)) :: AddressOf(n)
    case Update(payload) => set n | n in payload && Usable(AddressOf(n)) :: AddressOf(n)
    case _ => {}
  }

  // What every step keeps: cached connections point at the target, the counter is below the threshold, and every
  // address the client may move to is a known one.
  ghost predicate Inv(s: State, known: set<Address>) {
    (s.cmd.Some? ==> s.cmd.value == Target(s)) && (s.sub.Some? ==> s.sub.value == Target(s)) &&
    s.failures < THRESHOLD &&
    Target(s) in known && (forall a :: a in Candidates(s) && Usable(a) ==> a in known)
  }

  lemma {:induction false} FirstMoveIs(s: State, candidates: seq<Address>)
    ensures FirstMove(s, candidates).Some? <==> exists i :: 0 <= i < |candidates| && Moves(s, candidates[i])
    ensures FirstMove(s, candidates).Some? ==>
      FirstMove(s, candidates).value in candidates && Moves(s, FirstMove(s, candidates).value)
  {
    if candidates != [] {
      FirstMoveIs(s, candidates[1..]);
      if Moves(s, candidates[0]) {
        assert 0 <= 0 < |candidates| && Moves(s, candidates[0]);
      } else {
        forall i | 0 <= i < |candidates| && Moves(s, candidates[i]) ensures FirstMove(s, candidates[1..]).Some? {
          assert candidates[1..][i - 1] == candidates[i];
        }
      }
    }
  }

  // An attempt moves the target if and only if some candidate with a host and a positive port differs from it, and
  // then to such a candidate; no connection to the old target is kept.
  lemma AttemptMoves(s: State)
    ensures var r := Attempted(s);
      (Target(r) != Target(s) <==> exists a :: a in Candidates(s) && a.host != "" && a.port > 0 && a != Target(s)) &&
      (Target(r) != Target(s) ==>
        Target(r) in Candidates(s) && Target(r).host != "" && Target(r).port > 0 && r.cmd.None? && r.sub.None?) &&
      (Target(r) == Target(s) ==> r == s)
  {
    FirstMoveIs(s, Candidates(s));
    TrimmedCandidates(s);
  }

  lemma MovesIff(s: State)
    ensures Target(Attempted(s)) != Target(s) <==> FirstMove(s, Candidates(s)).Some?
  {
    FirstMoveIs(s, Candidates(s));
    TrimmedCandidates(s);
  }

  lemma TrimmedCandidates(s: State)
    ensures forall a :: a in Candidates(s) ==> TrimSpace(a.host) == a.host
  {
    forall i | 0 <= i < |s.nodes| ensures TrimSpace(AddressOf(s.nodes[i]).host) == AddressOf(s.nodes[i]).host {
      TrimTwice(s.nodes[i].ip);
    }
    TrimTwice(s.seedHost);
  }

  // The candidates are the nodes known and the address of the start, if that one is usable.
  lemma CandidatesAre(s: State, a: Address)
    ensures a in Candidates(s) <==>
      (exists n :: n in s.nodes && a == Address(TrimSpace(n.ip), n.port))
      || (a == Address(TrimSpace(s.seedHost), s.seedPort) && TrimSpace(s.seedHost) != "" && s.seedPort > 0)
  {
    var first := seq(|s.nodes|, i requires 0 <= i < |s.nodes| => AddressOf(s.nodes[i]));
    if n :| n in s.nodes && a == Address(TrimSpace(n.ip), n.port) {
      var i :| 0 <= i < |s.nodes| && s.nodes[i] == n;
      assert first[i] == a;
    }
    if a in first {
      var i :| 0 <= i < |s.nodes| && first[i] == a;
      assert s.nodes[i] in s.nodes;
    }
  }

  // ---------- connecting ----------

  // The connection at hand, or one to the target
  function Connected(cached: Option<Address>, options: bool, target: Address): Option<Address> {
    if cached.None? && options then Some(target) else cached
  }

  // An enabled client with a host and a positive port gets the connections that are missing and whose options can be
  // made, the second one only with the first; nothing else changes.
  lemma EnsuredConnects(s: State, cmdOptions: bool, subOptions: bool)
    ensures var r, target := Ensured(s, cmdOptions, subOptions), Address(TrimSpace(s.host), s.port);
      if s.enabled && target.host != "" && target.port > 0 then
        r.cmd == Connected(s.cmd, cmdOptions, target) &&
        r.sub == (if r.cmd.Some? then Connected(s.sub, subOptions, target) else s.sub) &&
        r == s.(cmd := r.cmd, sub := r.sub)
      else r == s
  {
  }

  // After any run, an enabled client with a usable target that can make both options is connected to its target.
  lemma RunConnects(discovery: bool, host: string, port: int, ops: seq<Op>)
    requires var s := After(Start(true, discovery, host, port), ops); TrimSpace(s.host) != "" && s.port > 0
    ensures var s := After(Start(true, discovery, host, port), ops);
      Ensured(s, true, true).cmd == Some(Address(TrimSpace(s.host), s.port)) &&
      Ensured(s, true, true).sub == Some(Address(TrimSpace(s.host), s.port))
  {
    RunKeepsInv(true, discovery, host, port, ops);
    StaysEnabled(Start(true, discovery, host, port), ops);
    EnsuredConnects(After(Start(true, discovery, host, port), ops), true, true);
  }

  lemma {:induction false} StaysEnabled(s: State, ops: seq<Op>)
    ensures After(s, ops).enabled == s.enabled
    decreases |ops|
  {
    if ops != [] {
      StaysEnabled(s, ops[..|ops| - 1]);
      StepStaysEnabled(After(s, ops[..|ops| - 1]), ops[|ops| - 1]);
    }
  }

  lemma StepStaysEnabled(s: State, op: Op)
    ensures Step(s, op).enabled == s.enabled
  {
  }

  // ---------- the nodes reported ----------

  lemma {:induction false} KeptAre(nodes: seq<Node>)
    ensures forall k :: k in Kept(nodes) <==> exists n :: n in nodes && Usable(AddressOf(n)) && k == Clean(n)
  {
    if nodes != [] {
      var init, last := nodes[..|nodes| - 1], nodes[|nodes| - 1];
      assert nodes == init + [last];
      KeptAre(init);
      forall k ensures k in Kept(nodes) <==> exists n :: n in nodes && Usable(AddressOf(n)) && k == Clean(n) {
        assert k in Kept(init) <==> exists n :: n in init && Usable(AddressOf(n)) && k == Clean(n);
      }
    }
  }

  function CountOf(n: Node): int {
    if n.clientCount < 0 then 0 else n.clientCount
  }

  // The first of the normalised nodes is a usable one with the fewest clients.
  lemma BestOf(reply: seq<Node>) returns (best: Node)
    requires exists n :: n in reply && Usable(AddressOf(n))
    ensures Normalized(reply) != [] && AddressOf(Normalized(reply)[0]) == AddressOf(best)
    ensures best in reply && Usable(AddressOf(best))
    ensures forall n :: n in reply && Usable(AddressOf(n)) ==> CountOf(best) <= CountOf(n)
  {
    var nodes := Normalized(reply);
    KeptAre(reply);
    SortMembers(FewerClients, Kept(reply));
    SortSorts(FewerClients, Kept(reply));
    var some :| some in reply && Usable(AddressOf(some));
    assert Clean(some) in nodes && nodes[0] in nodes;
    best :| best in reply && Usable(AddressOf(best)) && nodes[0] == Clean(best);
    TrimTwice(best.ip);
    forall n | n in reply && Usable(AddressOf(n)) ensures CountOf(best) <= CountOf(n) {
      assert Clean(n) in nodes;
      var i :| 0 <= i < |nodes| && nodes[i] == Clean(n);
    }
  }

  lemma RefreshMoves(s: State, reply: seq<Node>, best: Node)
    requires s.discovery && Normalized(reply) != [] && AddressOf(Normalized(reply)[0]) == AddressOf(best) && Usable(AddressOf(best))
    ensures Target(Refreshed(s, reply)) == AddressOf(best) && Refreshed(s, reply).failures == 0
  {
    TrimTwice(best.ip);
  }

  // A refresh moves to a usable node of the reply with the fewest clients, and the count of failures begins anew.
  lemma RefreshTakesLeastLoaded(s: State, reply: seq<Node>)
    requires s.discovery && exists n :: n in reply && Usable(AddressOf(n))
    ensures Refreshed(s, reply).failures == 0
    ensures exists best :: best in reply && Usable(AddressOf(best)) && Target(Refreshed(s, reply)) == AddressOf(best) &&
              forall n :: n in reply && Usable(AddressOf(n)) ==> CountOf(best) <= CountOf(n)
  {
    var best := BestOf(reply);
    RefreshMoves(s, reply, best);
  }

  lemma NormalizedKnown(nodes: seq<Node>)
    ensures forall n :: n in Normalized(nodes) ==>
      exists o :: o in nodes && Usable(AddressOf(o)) && AddressOf(n) == AddressOf(o)
  {
    KeptAre(nodes);
    SortMembers(FewerClients, Kept(nodes));
    forall n | n in Normalized(nodes) ensures exists o :: o in nodes && Usable(AddressOf(o)) && AddressOf(n) == AddressOf(o) {
      var o :| o in nodes && Usable(AddressOf(o)) && n == Clean(o);
      TrimTwice(o.ip);
    }
  }

  // ---------- every step keeps the invariant ----------

  lemma AttemptKeeps(s: State, known: set<Address>)
    requires Inv(s, known)
    ensures Inv(Attempted(s), known)
  {
    AttemptMoves(s);
    FirstMoveIs(s, Candidates(s));
    assert Candidates(Attempted(s)) == Candidates(s);
  }

  lemma NodesKeep(s: State, nodes: seq<Node>, reported: set<Address>, known: set<Address>)
    requires Inv(s, known)
    requires forall n :: n in nodes ==> AddressOf(n) in reported
    ensures Inv(s.(nodes := nodes), known + reported)
  {
    var r := s.(nodes := nodes);
    forall a | a in Candidates(r) && Usable(a) ensures a in known + reported {
      assert a in Candidates(s) || exists i :: 0 <= i < |nodes| && a == AddressOf(nodes[i]);
    }
  }

  lemma SwitchKeeps(s: State, a: Address, known: set<Address>)
    requires Inv(s, known) && a in known && TrimSpace(a.host) == a.host
    ensures Inv(SwitchedTo(s, a), known)
  {
    assert Candidates(SwitchedTo(s, a)) == Candidates(s);
  }

  lemma RefreshKeeps(s: State, reply: seq<Node>, known: set<Address>)
    requires Inv(s, known)
    ensures Inv(Refreshed(s, reply), known + Reported(Refresh(reply)))
  {
    var nodes := Normalized(reply);
    if s.discovery && nodes != [] {
      NormalizedKnown(reply);
      forall n | n in nodes ensures AddressOf(n) in Reported(Refresh(reply)) {
      }
      assert Candidates(s.(failures := 0)) == Candidates(s);
      NodesKeep(s.(failures := 0), nodes, Reported(Refresh(reply)), known);
      TrimTwice(nodes[0].ip);
      SwitchKeeps(s.(nodes := nodes, failures := 0), AddressOf(nodes[0]), known + Reported(Refresh(reply)));
    }
  }

  lemma UpdateKeeps(s: State, payload: seq<Node>, known: set<Address>)
    requires Inv(s, known)
    ensures Inv(Updated(s, payload), known + Reported(Update(payload)))
  {
    NormalizedKnown(payload);
    forall n | n in Normalized(payload) ensures AddressOf(n) in Reported(Update(payload)) {
    }
    NodesKeep(s, Normalized(payload), Reported(Update(payload)), known);
  }

  lemma StepKeepsInv(s: State, op: Op, known: set<Address>)
    requires Inv(s, known)
    ensures Inv(Step(s, op), known + Reported(op))
  {
    match op
    case Refresh(reply) => RefreshKeeps(s, reply, known);
    case Update(payload) => UpdateKeeps(s, payload, known);
    case Fail =>
      CounterKeeps(s, known, s.failures + 1);
      AttemptKeeps(s.(failures := 0), known);
    case Timeout =>
      CounterKeeps(s, known, 0);
      AttemptKeeps(s.(failures := 0), known);
    case Reset => CounterKeeps(s, known, 0);
    case Ensure(cmdOptions, subOptions) => assert Candidates(Ensured(s, cmdOptions, subOptions)) == Candidates(s);
    case CloseAll => assert Candidates(Disconnected(s)) == Candidates(s);
  }

  lemma CounterKeeps(s: State, known: set<Address>, failures: nat)
    requires Inv(s, known)
    ensures failures < THRESHOLD ==> Inv(s.(failures := failures), known)
    ensures Inv(s.(failures := 0), known)
  {
    assert Candidates(s.(failures := failures)) == Candidates(s);
    assert Candidates(s.(failures := 0)) == Candidates(s);
  }

  // On every run the cached connections point at the current target, the failure counter is below the threshold, and
  // the target is the address of the start or of a usable node reported since.
  lemma {:induction false} RunKeepsInv(enabled: bool, discovery: bool, host: string, port: int, ops: seq<Op>)
    ensures Inv(After(Start(enabled, discovery, host, port), ops), Known(Address(TrimSpace(host), port), ops))
    decreases |ops|
  {
    if ops == [] {
      TrimTwice(host);
    } else {
      var before := ops[..|ops| - 1];
      RunKeepsInv(enabled, discovery, host, port, before);
      StepKeepsInv(After(Start(enabled, discovery, host, port), before), ops[|ops| - 1],
                   Known(Address(TrimSpace(host), port), before));
    }
  }

  // ---------- failures and attempts ----------

  function Failures(s: State, k: nat): State {
    if k == 0 then s else Failed(Failures(s, k - 1))
  }

  // How many of k failures in a row lead to an attempt to move
  function AttemptsIn(s: State, k: nat): nat {
    if k == 0 then 0 else AttemptsIn(s, k - 1) + if Attempts(Failures(s, k - 1)) then 1 else 0
  }

  // From a counter of r, k failures in a row lead to exactly (r + k) / 3 attempts.
  lemma {:induction false} ConsecutiveFailures(s: State, k: nat)
    requires s.discovery && s.failures < THRESHOLD
    ensures AttemptsIn(s, k) == (s.failures + k) / 3
    ensures Failures(s, k).failures == (s.failures + k) % 3 && Failures(s, k).discovery
  {
    if k > 0 {
      ConsecutiveFailures(s, k - 1);
    }
  }

  lemma StepFixed(s: State, op: Op)
    requires !s.discovery
    ensures Target(Step(s, op)) == Target(s) && !Step(s, op).discovery
  {
  }

  // Without discovery the target never changes.
  lemma {:induction false} TargetFixedWithoutDiscovery(s: State, ops: seq<Op>)
    requires !s.discovery
    ensures Target(After(s, ops)) == Target(s) && !After(s, ops).discovery
    decreases |ops|
  {
    if ops != [] {
      TargetFixedWithoutDiscovery(s, ops[..|ops| - 1]);
      StepFixed(After(s, ops[..|ops| - 1]), ops[|ops| - 1]);
    }
  }

  // ---------- which nodes failover visits ----------

  // The first usable address other than the one to avoid
  function First(candidates: seq<Address>, avoid: Option<Address>): Option<Address> {
    if candidates == [] then None
    else if Usable(candidates[0]) && avoid != Some(candidates[0]) then Some(candidates[0])
    else First(candidates[1..], avoid)
  }

  lemma {:induction false} FirstIs(candidates: seq<Address>, avoid: Option<Address>)
    ensures match First(candidates, avoid)
      case Some(a) => a in candidates && Usable(a) && avoid != Some(a)
      case None => forall a :: a in candidates && Usable(a) ==> avoid == Some(a)
  {
    if candidates != [] {
      FirstIs(candidates[1..], avoid);
    }
  }

  // No candidate before it has a host and a positive port and is another one than the one to avoid.
  lemma {:induction false} NoneBefore(candidates: seq<Address>, avoid: Option<Address>) returns (i: nat)
    requires First(candidates, avoid).Some?
    ensures i < |candidates| && First(candidates, avoid) == Some(candidates[i])
    ensures candidates[i].host != "" && candidates[i].port > 0 && avoid != Some(candidates[i])
    ensures forall j | 0 <= j < i :: candidates[j].host == "" || candidates[j].port <= 0 || avoid == Some(candidates[j])
  {
    if Usable(candidates[0]) && avoid != Some(candidates[0]) {
      i := 0;
    } else {
      var k := NoneBefore(candidates[1..], avoid);
      i := k + 1;
    }
  }

  lemma {:induction false} FirstMoveIsFirst(s: State, candidates: seq<Address>)
    ensures FirstMove(s, candidates) == First(candidates, Some(Target(s)))
  {
    if candidates != [] {
      FirstMoveIsFirst(s, candidates[1..]);
    }
  }

  // Avoiding anything but the first usable address leaves it the first.
  lemma {:induction false} FirstAvoiding(candidates: seq<Address>, a: Address)
    requires First(candidates, None) != Some(a)
    ensures First(candidates, Some(a)) == First(candidates, None)
  {
    if candidates != [] && !Usable(candidates[0]) {
      FirstAvoiding(candidates[1..], a);
    }
  }

  // Where an attempt leads from a target: to the first usable candidate, and from there to the second.
  function NextTarget(candidates: seq<Address>, a: Address): Address {
    match First(candidates, None)
    case None => a
    case Some(first) =>
      if a != first then first
      else match First(candidates, Some(first)) case Some(second) => second case None => a
  }

  lemma AttemptTarget(s: State)
    ensures Target(Attempted(s)) == NextTarget(Candidates(s), Target(s)) && Candidates(Attempted(s)) == Candidates(s)
  {
    FirstMoveIsFirst(s, Candidates(s));
    FirstIs(Candidates(s), Some(Target(s)));
    TrimmedCandidates(s);
    if First(Candidates(s), None) != Some(Target(s)) {
      FirstAvoiding(Candidates(s), Target(s));
    }
  }

  // The target after k attempts
  function Visit(candidates: seq<Address>, a: Address, k: nat): Address {
    if k == 0 then a else NextTarget(candidates, Visit(candidates, a, k - 1))
  }

  function Again(s: State, k: nat): State {
    if k == 0 then s else Attempted(Again(s, k - 1))
  }

  lemma {:induction false} AgainVisits(s: State, k: nat)
    ensures Target(Again(s, k)) == Visit(Candidates(s), Target(s), k) && Candidates(Again(s, k)) == Candidates(s)
    decreases k
  {
    if k > 0 {
      AgainVisits(s, k - 1);
      AttemptTarget(Again(s, k - 1));
    }
  }

  // The target of the start, the first usable candidate, and the first usable one that differs from it
  function Visited(candidates: seq<Address>, a: Address): set<Address> {
    match First(candidates, None)
    case None => {a}
    case Some(first) => match First(candidates, Some(first)) case None => {a, first} case Some(second) => {a, first, second}
  }

  lemma {:induction false} VisitWithin(candidates: seq<Address>, a: Address, k: nat)
    ensures Visit(candidates, a, k) in Visited(candidates, a)
    decreases k
  {
    if k > 0 {
      VisitWithin(candidates, a, k - 1);
    }
  }

  // All of these are visited, within two attempts.
  lemma VisitFirstTwo(candidates: seq<Address>, a: Address, b: Address) returns (k: nat)
    requires b in Visited(candidates, a)
    ensures k <= 2 && Visit(candidates, a, k) == b
  {
    var one := NextTarget(candidates, a);
    assert Visit(candidates, a, 0) == a;
    assert Visit(candidates, a, 1) == NextTarget(candidates, Visit(candidates, a, 0));
    assert Visit(candidates, a, 2) == NextTarget(candidates, Visit(candidates, a, 1));
    FirstIs(candidates, First(candidates, None));
    k := if b == a then 0 else if b == one then 1 else 2;
  }

  // After k attempts the target is b.
  predicate AgainAt(s: State, b: Address, k: nat) {
    Target(Again(s, k)) == b
  }

  ghost predicate Reaches(s: State, b: Address) {
    exists k: nat :: AgainAt(s, b, k)
  }

  // However often it is tried, failover visits the target it starts from and at most two more, all of them: the first
  // usable candidate, and the first usable one that differs from that.
  lemma VisitsExactly(s: State, b: Address)
    ensures Reaches(s, b) <==> b in Visited(Candidates(s), Target(s))
  {
    if k: nat :| AgainAt(s, b, k) {
      AgainVisits(s, k);
      VisitWithin(Candidates(s), Target(s), k);
    }
    if b in Visited(Candidates(s), Target(s)) {
      var k := VisitFirstTwo(Candidates(s), Target(s), b);
      AgainVisits(s, k);
      assert AgainAt(s, b, k);
    }
  }

  // Failover reaches every usable candidate if and only if there is none but these.
  lemma ReachesAllIff(s: State)
    ensures (forall b :: b in Candidates(s) && Usable(b) ==> Reaches(s, b)) <==>
      forall b :: b in Candidates(s) && Usable(b) ==> b in Visited(Candidates(s), Target(s))
  {
    forall b ensures Reaches(s, b) <==> b in Visited(Candidates(s), Target(s)) {
      VisitsExactly(s, b);
    }
  }

  // With no usable candidate the target stays; with a single one every attempt leads to it.
  lemma FewCandidates(s: State, k: nat)
    requires k > 0
    ensures (forall b :: b in Candidates(s) ==> !Usable(b)) ==> Target(Again(s, k)) == Target(s)
    ensures forall b :: b in Candidates(s) && Usable(b) && (forall c :: c in Candidates(s) && Usable(c) ==> c == b) ==>
      Target(Again(s, k)) == b
    decreases k
  {
    var cs := Candidates(s);
    AgainVisits(s, k);
    AgainVisits(s, k - 1);
    FirstIs(cs, None);
    FirstIs(cs, First(cs, None));
    if k > 1 {
      FewCandidates(s, k - 1);
    }
  }

  lemma NextOfTwo(candidates: seq<Address>, a: Address, b: Address, x: Address)
    requires First(candidates, None) == Some(a) && First(candidates, Some(a)) == Some(b)
    ensures NextTarget(candidates, x) == if x == a then b else a
    ensures a != b
  {
    FirstIs(candidates, Some(a));
  }

  lemma {:induction false} VisitAlternates(candidates: seq<Address>, x: Address, a: Address, b: Address, k: nat,
                                           even: bool)
    requires First(candidates, None) == Some(a) && First(candidates, Some(a)) == Some(b) && even == (k % 2 == 0)
    ensures x == a ==> Visit(candidates, x, k) == if even then a else b
    ensures x != a && k > 0 ==> Visit(candidates, x, k) == if even then b else a
    decreases k
  {
    if k > 0 {
      VisitAlternates(candidates, x, a, b, k - 1, !even);
      NextOfTwo(candidates, a, b, Visit(candidates, x, k - 1));
    }
  }

  // With two usable candidates it goes back and forth between the first two for good, whatever others there are.
  lemma FirstTwoAlternate(s: State, a: Address, b: Address, k: nat)
    requires First(Candidates(s), None) == Some(a) && First(Candidates(s), Some(a)) == Some(b) && k > 0
    ensures Target(Again(s, k)) == if (k % 2 == 0) == (Target(s) == a) then a else b
  {
    AgainVisits(s, k);
    VisitAlternates(Candidates(s), Target(s), a, b, k, k % 2 == 0);
  }

  lemma {:induction false} FailuresVisitAttempts(s: State, k: nat)
    requires s.discovery
    ensures Failures(s, k).discovery && Candidates(Failures(s, k)) == Candidates(s)
    ensures Target(Failures(s, k)) == Visit(Candidates(s), Target(s), AttemptsIn(s, k))
    decreases k
  {
    if k > 0 {
      FailuresVisitAttempts(s, k - 1);
      OneFailure(Failures(s, k - 1));
    }
  }

  // k failures in a row from a counter of r make the target the one that (r + k) / 3 attempts lead to.
  lemma FailuresVisit(s: State, k: nat)
    requires s.discovery && s.failures < THRESHOLD
    ensures Target(Failures(s, k)) == Visit(Candidates(s), Target(s), (s.failures + k) / 3)
  {
    FailuresVisitAttempts(s, k);
    ConsecutiveFailures(s, k);
  }

  lemma OneFailure(s: State)
    requires s.discovery
    ensures Failed(s).discovery && Candidates(Failed(s)) == Candidates(s)
    ensures Target(Failed(s)) == if Attempts(s) then NextTarget(Candidates(s), Target(s)) else Target(s)
  {
    assert Candidates(s.(failures := 0)) == Candidates(s);
    assert Candidates(s.(failures := s.failures + 1)) == Candidates(s);
    AttemptTarget(s.(failures := 0));
  }

  // A timeout leads where one attempt leads, and the count of failures begins anew.
  lemma TimeoutVisits(s: State)
    ensures Target(TimedOut(s)) == if s.discovery then NextTarget(Candidates(s), Target(s)) else Target(s)
    ensures TimedOut(s).failures == 0
  {
    assert Candidates(s.(failures := 0)) == Candidates(s);
    AttemptTarget(s.(failures := 0));
    FirstMoveIs(s.(failures := 0), Candidates(s));
  }

  // k is n cleaned, which has a host and a positive port.
  predicate CleanOf(k: Node, n: Node) {
    TrimSpace(n.ip) != "" && n.port > 0 &&
    k == n.(ip := TrimSpace(n.ip), clientCount := if n.clientCount < 0 then 0 else n.clientCount)
  }

  // What is taken from a list of nodes: those with a host and a positive port, cleaned, the least loaded ones first.
  lemma NormalizedExact(nodes: seq<Node>)
    ensures forall k :: k in Normalized(nodes) <==> exists n :: n in nodes && CleanOf(k, n)
    ensures forall i, j | 0 <= i < j < |Normalized(nodes)| :: Normalized(nodes)[i].clientCount <= Normalized(nodes)[j].clientCount
  {
    KeptAre(nodes);
    SortMembers(FewerClients, Kept(nodes));
    SortSorts(FewerClients, Kept(nodes));
    forall k, n ensures CleanOf(k, n) <==> Usable(AddressOf(n)) && k == Clean(n) {
    }
  }
}
