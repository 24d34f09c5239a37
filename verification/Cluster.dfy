/** The cluster and its version history (cluster/state.py). */
module Cluster {
  import opened Base
  import opened Events
  import opened Models

  type Servers = map<ServerId, Server>

  // ---------- Transitions of one server ----------

  function Deployed(s: Server, v: Version): Server {
    s.(previous := Some(s.version), version := v, status := Updating,
       history := s.history + [Record(v, s.version, Deploy)])
  }

  // The idempotency guard: the last change was a rollback and still stands.
  predicate AlreadyRolledBack(s: Server) {
    s.history != [] && Last(s.history).action == Rollback && s.version == Last(s.history).version
  }

  function Reverted(s: Server): Server {
    if s.previous == None || AlreadyRolledBack(s) then s
    else s.(version := s.previous.value, previous := Some(s.version), status := Healthy,
            history := s.history + [Record(s.previous.value, s.version, Rollback)])
  }

  function Clamped(x: real): real {
    if x > 100.0 then 100.0 else if x < 0.0 then 0.0 else x
  }

  // The nearest percentage.
  lemma ClampedIs(x: real)
    ensures 0.0 <= Clamped(x) <= 100.0 && (0.0 <= x <= 100.0 ==> Clamped(x) == x)
    ensures (x < 0.0 ==> Clamped(x) == 0.0) && (x > 100.0 ==> Clamped(x) == 100.0)
  {
  }

  ghost predicate WellKeyed(servers: Servers) {
    forall id | id in servers :: servers[id].id == id
  }

  // ---------- The class ----------

  class ClusterState {
    var servers: Servers

    ghost predicate Valid()
      reads this
    {
      WellKeyed(servers)
    }

    constructor (initial: seq<Server>)
      ensures Valid()
      ensures servers.Keys == set s | s in initial :: s.id
      ensures forall s | s in initial :: s.id in servers && servers[s.id] in initial
    {
      var m: Servers := map[];
      for i := 0 to |initial|
        invariant WellKeyed(m) && m.Keys == set s | s in initial[..i] :: s.id
        invariant forall id | id in m :: m[id] in initial
      {
        assert initial[..i + 1] == initial[..i] + [initial[i]];
        m := m[initial[i].id := initial[i]];
      }
      assert initial[..|initial|] == initial;
      servers := m;
    }

    function GetServer(id: ServerId): (s: Option<Server>)
      reads this
      ensures s.Some? <==> id in servers
      ensures s.Some? ==> s.value == servers[id]
    {
      if id in servers then Some(servers[id]) else None
    }

    // A snapshot list of all servers. The source lists them in insertion order;
    // nothing here depends on the order.
    method ListServers() returns (list: seq<Server>)
      requires Valid()
      ensures forall s :: s in list <==> s.id in servers && servers[s.id] == s
      ensures NoDup(list) && |list| == |servers|
    {
      list := [];
      var todo := servers.Keys;
      while todo != {}
        invariant todo <= servers.Keys && NoDup(list) && |list| + |todo| == |servers.Keys|
        invariant forall s :: s in list <==> s.id in servers.Keys - todo && servers[s.id] == s
      {
        var id :| id in todo;
        todo := todo - {id};
        assert Init(list + [servers[id]]) == list;
        list := list + [servers[id]];
      }
    }

    method UpdateServerStatus(id: ServerId, status: ServerStatus) returns (ok: bool)
      requires Valid()
      modifies this
      ensures Valid() && ok == (id in old(servers))
      ensures servers == if ok then old(servers)[id := old(servers)[id].(status := status)] else old(servers)
    {
      ok := id in servers;
      if ok { servers := servers[id := servers[id].(status := status)]; }
    }

    method UpdateServerResources(id: ServerId, cpu: real, memory: real) returns (ok: bool)
      requires Valid()
      modifies this
      ensures Valid() && ok == (id in old(servers))
      ensures servers == if ok then old(servers)[id := old(servers)[id].(cpu := Clamped(cpu), memory := Clamped(memory))]
                         else old(servers)
    {
      ok := id in servers;
      if ok { servers := servers[id := servers[id].(cpu := Clamped(cpu), memory := Clamped(memory))]; }
    }

    method UpdateServerVersion(id: ServerId, version: Version) returns (ok: bool)
      requires Valid()
      modifies this
      ensures Valid() && ok == (id in old(servers))
      ensures servers == if ok then old(servers)[id := Deployed(old(servers)[id], version)] else old(servers)
      ensures ok ==> var was, now := old(servers)[id], servers[id];
                && now.version == version && now.previous == Some(was.version) && now.status == Updating
                && now.history == was.history + [Record(version, was.version, Deploy)]
                && now.region == was.region && now.cpu == was.cpu && now.memory == was.memory
    {
      if id !in servers { return false; }
      var server := servers[id];
      var oldVersion := server.version;
      server := server.(previous := Some(oldVersion));
      server := server.(version := version);
      server := server.(status := Updating);
      server := server.(history := server.history + [Record(version, oldVersion, Deploy)]);
      servers := servers[id := server];
      ok := true;
    }

    // Drift: a version applied out of band, without a history record.
    method OverrideVersion(id: ServerId, version: Version) returns (ok: bool)
      requires Valid()
      modifies this
      ensures Valid() && ok == (id in old(servers))
      ensures servers == if ok then old(servers)[id := old(servers)[id].(version := version)] else old(servers)
    {
      ok := id in servers;
      if ok { servers := servers[id := servers[id].(version := version)]; }
    }

    method RollbackServer(id: ServerId) returns (ok: bool)
      requires Valid()
      modifies this
      ensures Valid() && ok == (id in old(servers) && old(servers)[id].previous.Some?)
      ensures servers == if id in old(servers) then old(servers)[id := Reverted(old(servers)[id])] else old(servers)
      ensures ok ==> var was, now := old(servers)[id], servers[id];
                if was.history != [] && Last(was.history).action == Rollback && Last(was.history).version == was.version
                then now == was
                else
                  && Some(now.version) == was.previous && now.previous == Some(was.version) && now.status == Healthy
                  && now.history == was.history + [Record(now.version, was.version, Rollback)]
                  && now.region == was.region && now.cpu == was.cpu && now.memory == was.memory
    {
      if id !in servers { return false; }
      var server := servers[id];
      if server.previous == None {
        assert servers == servers[id := server];
        return false;
      }
      if server.history != [] && Last(server.history).action == Rollback && server.version == Last(server.history).version {
        assert servers == servers[id := server];
        return true;
      }
      var rolledBackFrom := server.version;
      server := server.(version := server.previous.value);
      server := server.(previous := Some(rolledBackFrom));
      server := server.(status := Healthy);
      server := server.(history := server.history + [Record(server.version, rolledBackFrom, Rollback)]);
      servers := servers[id := server];
      ok := true;
    }
  }

  // ---------- Histories ----------

  datatype Op = DeployOp(version: Version) | RollbackOp | StatusOp(status: ServerStatus) | ResourceOp(cpu: real, memory: real)

  function Step(s: Server, op: Op): Server {
    match op
    case DeployOp(v) => Deployed(s, v)
    case RollbackOp => Reverted(s)
    case StatusOp(status) => s.(status := status)
    case ResourceOp(cpu, memory) => s.(cpu := Clamped(cpu), memory := Clamped(memory))
  }

  function Run(s: Server, ops: seq<Op>): Server {
    if ops == [] then s else Step(Run(s, Init(ops)), Last(ops))
  }

  // As the generator makes them.
  predicate Generated(s: Server) {
    s.previous == None && s.history == []
  }

  function VersionAfter(history: seq<Record>, first: Version): Version {
    if history == [] then first else Last(history).version
  }

  // Each record starts from the version that the one before it left.
  ghost predicate Linked(history: seq<Record>, first: Version) {
    history == [] ||
    (Linked(Init(history), first) && Last(history).previousVersion == VersionAfter(Init(history), first))
  }

  // The history tells the version now and each version before.
  ghost predicate HistoryAgrees(s: Server, first: Version) {
    && Linked(s.history, first)
    && s.version == VersionAfter(s.history, first)
    && s.previous == (if s.history == [] then None else Some(Last(s.history).previousVersion))
  }

  lemma StepAgrees(s: Server, op: Op, first: Version)
    requires HistoryAgrees(s, first)
    ensures HistoryAgrees(Step(s, op), first)
  {
    var s' := Step(s, op);
    if s'.history != s.history {
      assert Init(s'.history) == s.history;
    }
  }

  // Whatever is done to a generated server, short of overriding its version.
  lemma {:induction false} HistoryInvariant(s: Server, ops: seq<Op>)
    requires Generated(s)
    ensures HistoryAgrees(Run(s, ops), s.version)
  {
    if ops != [] {
      HistoryInvariant(s, Init(ops));
      StepAgrees(Run(s, Init(ops)), Last(ops), s.version);
    }
  }

  function RollBackTimes(s: Server, k: nat): Server {
    if k == 0 then s else Reverted(RollBackTimes(s, k - 1))
  }

  // Rolling back again changes nothing, whatever the server went through.
  lemma {:induction false} RollbacksCollapse(s: Server, k: nat)
    requires k >= 1
    ensures RollBackTimes(s, k) == Reverted(s)
  {
    if k > 1 {
      RollbacksCollapse(s, k - 1);
      assert Reverted(Reverted(s)) == Reverted(s);
    } else {
      assert RollBackTimes(s, 0) == s;
    }
  }

  // A rollback after a deploy brings back the version before it.
  lemma RollbackUndoesDeploy(s: Server, v: Version, k: nat)
    requires k >= 1
    ensures RollBackTimes(Deployed(s, v), k).version == s.version
  {
    RollbacksCollapse(Deployed(s, v), k);
    assert Last(Deployed(s, v).history).action == Deploy;
  }

  // Operations on a whole cluster, each addressed to one server.
  datatype Addressed = Addressed(id: ServerId, op: Op)

  function RunAll(servers: Servers, ops: seq<Addressed>): Servers {
    if ops == [] then servers else
    var before := RunAll(servers, Init(ops));
    var a := Last(ops);
    if a.id in before then before[a.id := Step(before[a.id], a.op)] else before
  }

  function For(id: ServerId, ops: seq<Addressed>): seq<Op> {
    if ops == [] then [] else
    For(id, Init(ops)) + if Last(ops).id == id then [Last(ops).op] else []
  }

  // Servers do not interfere: each sees exactly the operations addressed to it.
  lemma {:induction false} RunsApart(servers: Servers, ops: seq<Addressed>, id: ServerId)
    requires id in servers
    ensures id in RunAll(servers, ops) && RunAll(servers, ops)[id] == Run(servers[id], For(id, ops))
  {
    if ops != [] {
      RunsApart(servers, Init(ops), id);
      var rest := For(id, Init(ops));
      if Last(ops).id == id {
        assert Init(For(id, ops)) == rest;
      } else {
        assert For(id, ops) == rest;
      }
    }
  }

  lemma ClusterHistoryInvariant(servers: Servers, ops: seq<Addressed>, id: ServerId)
    requires id in servers && Generated(servers[id])
    ensures id in RunAll(servers, ops) && HistoryAgrees(RunAll(servers, ops)[id], servers[id].version)
  {
    RunsApart(servers, ops, id);
    HistoryInvariant(servers[id], For(id, ops));
  }
}
