/**
 * Snapshots of the cluster and of a deployment, and their restoration
 * (resilience/snapshots.py).
 */
module Snapshots {
  import opened Base
  import opened Events
  import opened Models
  import opened Cluster
  import opened Deployment

  // A field that is converted when it is read: absent, malformed, or a value. Reading
  // it raises in the first two cases; a field that is only copied raises if absent.
  datatype Field<+T> = Missing | Malformed | Good(value: T)

  // The value of the last health check is not kept, only whether it can be read.
  datatype ServerRecord = ServerRecord(
    id: Option<ServerId>,
    hostname: Option<string>,
    ipAddress: Option<string>,
    region: Option<Region>,
    status: Field<ServerStatus>,
    version: Option<Version>,
    previous: Option<Option<Version>>,
    cpu: Option<real>,
    memory: Option<real>,
    lastCheck: Field<int>,
    history: Field<seq<Record>>)

  datatype Section = Section(
    id: Option<string>,
    status: Field<DeploymentStatus>,
    currentStage: Option<int>,
    updated: seq<ServerId>,
    pending: seq<ServerId>,
    errorMessage: Option<string>,
    stages: seq<Field<StageResult>>)

  datatype Snapshot = Snapshot(servers: seq<ServerRecord>, section: Section)

  // What a run of steps comes to that may stop half-way.
  datatype Partial<T> = Partial(state: T, ok: bool)

  // ---------- Writing one record ----------

  // Fields are set one by one, up to the first that cannot be read.
  function Written(s: Server, r: ServerRecord): Partial<Server> {
    if !r.status.Good? then Partial(s, false) else
    var s := s.(status := r.status.value);
    if !r.version.Some? then Partial(s, false) else
    var s := s.(version := r.version.value);
    if !r.previous.Some? then Partial(s, false) else
    var s := s.(previous := r.previous.value);
    if !r.cpu.Some? then Partial(s, false) else
    var s := s.(cpu := r.cpu.value);
    if !r.memory.Some? then Partial(s, false) else
    var s := s.(memory := r.memory.value);
    if !r.lastCheck.Good? || !r.history.Good? then Partial(s, false) else
    Partial(s.(history := r.history.value), true)
  }

  // A server that is not there is made from the record, if that can be read so far.
  predicate Creatable(r: ServerRecord) {
    r.hostname.Some? && r.ipAddress.Some? && r.region.Some? && r.version.Some? && r.status.Good?
  }

  function Created(id: ServerId, r: ServerRecord): Server
    requires Creatable(r)
  {
    Server(id, r.hostname.value, r.ipAddress.value, r.region.value, r.version.value, None, r.status.value, 0.0, 0.0, [])
  }

  function WriteOne(servers: Servers, r: ServerRecord): Partial<Servers>
    requires r.id.Some?
  {
    var id := r.id.value;
    if id !in servers && !Creatable(r) then Partial(servers, false) else
    var p := Written(if id in servers then servers[id] else Created(id, r), r);
    Partial(servers[id := p.state], p.ok)
  }

  function WriteAll(servers: Servers, rs: seq<ServerRecord>): Partial<Servers>
    requires forall r | r in rs :: r.id.Some?
  {
    if rs == [] then Partial(servers, true) else
    assert forall r | r in Init(rs) :: r in rs;
    var p := WriteAll(servers, Init(rs));
    if !p.ok then p else assert Last(rs) in rs; WriteOne(p.state, Last(rs))
  }

  predicate Named(rs: seq<ServerRecord>) {
    forall r | r in rs :: r.id.Some?
  }

  function Ids(rs: seq<ServerRecord>): set<ServerId> {
    set r | r in rs && r.id.Some? :: r.id.value
  }

  function Kept(servers: Servers, ids: set<ServerId>): Servers {
    map id | id in servers && id in ids :: servers[id]
  }

  // What the cluster comes to before a failure is made good.
  function Applied(servers: Servers, rs: seq<ServerRecord>): Partial<Servers> {
    if !Named(rs) then Partial(servers, false) else WriteAll(Kept(servers, Ids(rs)), rs)
  }

  // Making a failure good: servers that are still there get their fields back.
  function Rewound(now: Servers, before: Servers): Servers {
    map id | id in now ::
      if id in before
      then now[id].(status := before[id].status, version := before[id].version, previous := before[id].previous,
                    cpu := before[id].cpu, memory := before[id].memory, history := before[id].history)
      else now[id]
  }

  // ---------- The deployment ----------

  datatype Progress = Progress(
    status: DeploymentStatus,
    currentStage: int,
    updated: set<ServerId>,
    pending: set<ServerId>,
    errorMessage: Option<string>,
    stages: seq<StageResult>)

  function ProgressOf(d: DeploymentState): Progress
    reads d
  {
    Progress(d.status, d.currentStage, d.updated, d.pending, d.errorMessage, d.stages)
  }

  predicate Readable(stages: seq<Field<StageResult>>) {
    forall s | s in stages :: s.Good?
  }

  function Values(stages: seq<Field<StageResult>>): seq<StageResult>
    requires Readable(stages)
  {
    seq(|stages|, i requires 0 <= i < |stages| => assert stages[i] in stages; stages[i].value)
  }

  function Resumed(p: Progress, s: Section): Partial<Progress> {
    if !s.status.Good? then Partial(p, false) else
    var p := p.(status := s.status.value,
                currentStage := if s.currentStage == None then -1 else s.currentStage.value,
                updated := (set id | id in s.updated),
                pending := (set id | id in s.pending),
                errorMessage := s.errorMessage);
    if !Readable(s.stages) then Partial(p, false) else Partial(p.(stages := Values(s.stages)), true)
  }

  // ---------- The snapshot system ----------

  function RecordOf(s: Server, checked: int): ServerRecord {
    ServerRecord(Some(s.id), Some(s.hostname), Some(s.ipAddress), Some(s.region), Good(s.status), Some(s.version),
                 Some(s.previous), Some(s.cpu), Some(s.memory), Good(checked), Good(s.history))
  }

  // The records of all servers, in any order.
  ghost predicate Captures(rs: seq<ServerRecord>, servers: Servers) {
    && (forall r | r in rs :: r.id.Some? && r.id.value in servers
                           && exists checked :: r == RecordOf(servers[r.id.value], checked))
    && (forall id | id in servers :: exists r :: r in rs && r.id == Some(id))
  }

  ghost predicate CapturesProgress(s: Section, p: Progress) {
    && s.status == Good(p.status) && s.currentStage == Some(p.currentStage)
    && Elems(s.updated) == p.updated && Elems(s.pending) == p.pending
    && s.errorMessage == p.errorMessage
    && |s.stages| == |p.stages| && forall i | 0 <= i < |p.stages| :: s.stages[i] == Good(p.stages[i])
  }

  class ClusterSnapshotSystem {
    const cluster: ClusterState

    constructor (cluster: ClusterState)
      ensures this.cluster == cluster
    {
      this.cluster := cluster;
    }

    method CaptureServers(lastCheck: ServerId -> int) returns (rs: seq<ServerRecord>)
      requires cluster.Valid()
      ensures Captures(rs, cluster.servers)
    {
      var list := cluster.ListServers();
      rs := [];
      for i := 0 to |list|
        invariant |rs| == i && forall j | 0 <= j < i :: rs[j] == RecordOf(list[j], lastCheck(list[j].id))
      {
        rs := rs + [RecordOf(list[i], lastCheck(list[i].id))];
      }
      forall r | r in rs
        ensures r.id.Some? && r.id.value in cluster.servers
             && exists checked :: r == RecordOf(cluster.servers[r.id.value], checked)
      {
        var j :| 0 <= j < |rs| && rs[j] == r;
        assert list[j] in list;
      }
      forall id | id in cluster.servers ensures exists r :: r in rs && r.id == Some(id) {
        assert cluster.servers[id] in list;
        var j :| 0 <= j < |list| && list[j] == cluster.servers[id];
        assert rs[j] in rs;
      }
    }

    method CreateSnapshot(deployment: DeploymentState?, lastCheck: ServerId -> int) returns (snapshot: Snapshot)
      requires cluster.Valid()
      ensures Captures(snapshot.servers, cluster.servers)
      ensures if deployment == null then snapshot.section.id == None
              else snapshot.section.id == Some(deployment.deploymentId) && CapturesProgress(snapshot.section, ProgressOf(deployment))
    {
      var rs := CaptureServers(lastCheck);
      if deployment == null {
        return Snapshot(rs, Section(None, Missing, None, [], [], None, []));
      }
      var updated := Listed(deployment.updated);
      var pending := Listed(deployment.pending);
      var done := deployment.stages;
      var stages := seq(|done|, i requires 0 <= i < |done| => Good(done[i]));
      snapshot := Snapshot(rs, Section(Some(deployment.deploymentId), Good(deployment.status), Some(deployment.currentStage),
                                       updated, pending, deployment.errorMessage, stages));
    }

    method Listed(ids: set<ServerId>) returns (list: seq<ServerId>)
      ensures Elems(list) == ids
    {
      list := [];
      var todo := ids;
      while todo != {}
        invariant todo <= ids && Elems(list) == ids - todo
      {
        var id :| id in todo;
        todo := todo - {id};
        AppendOne(list, id);
        list := list + [id];
      }
    }

    method Put(s: Server)
      requires cluster.Valid() && s.id in cluster.servers
      modifies cluster
      ensures cluster.Valid() && cluster.servers == old(cluster.servers)[s.id := s]
    {
      cluster.servers := cluster.servers[s.id := s];
    }

    // One server, field by field.
    method WriteFields(id: ServerId, r: ServerRecord) returns (ok: bool)
      requires cluster.Valid() && id in cluster.servers
      modifies cluster
      ensures cluster.Valid()
      ensures var p := Written(old(cluster.servers)[id], r);
              ok == p.ok && cluster.servers == old(cluster.servers)[id := p.state]
    {
      ghost var before := cluster.servers;
      assert before == before[id := before[id]];
      if !r.status.Good? { return false; }
      Put(cluster.servers[id].(status := r.status.value));
      if !r.version.Some? { return false; }
      Put(cluster.servers[id].(version := r.version.value));
      if !r.previous.Some? { return false; }
      Put(cluster.servers[id].(previous := r.previous.value));
      if !r.cpu.Some? { return false; }
      Put(cluster.servers[id].(cpu := r.cpu.value));
      if !r.memory.Some? { return false; }
      Put(cluster.servers[id].(memory := r.memory.value));
      if !r.lastCheck.Good? { return false; }
      if !r.history.Good? { return false; }
      Put(cluster.servers[id].(history := r.history.value));
      ok := true;
    }

    method WriteServer(r: ServerRecord) returns (ok: bool)
      requires cluster.Valid() && r.id.Some?
      modifies cluster
      ensures cluster.Valid()
      ensures Partial(cluster.servers, ok) == WriteOne(old(cluster.servers), r)
    {
      var id := r.id.value;
      if id !in cluster.servers {
        if !Creatable(r) { return false; }
        cluster.servers := cluster.servers[id := Created(id, r)];
        ghost var t := Written(Created(id, r), r).state;
        assert cluster.servers[id := t] == old(cluster.servers)[id := t];
      }
      ok := WriteFields(id, r);
    }

    // Servers that the snapshot does not know are deleted first.
    method Reconcile(ids: set<ServerId>)
      requires cluster.Valid()
      modifies cluster
      ensures cluster.Valid() && cluster.servers == Kept(old(cluster.servers), ids)
    {
      ghost var before := cluster.servers;
      var todo := cluster.servers.Keys;
      while todo != {}
        invariant todo <= before.Keys && cluster.Valid()
        invariant cluster.servers == Kept(before, ids + todo)
      {
        var id :| id in todo;
        todo := todo - {id};
        if id !in ids {
          cluster.servers := cluster.servers - {id};
        }
        assert ids + todo == if id in ids then ids + (todo + {id}) else ids + todo;
      }
      assert ids + {} == ids;
    }

    method Apply(rs: seq<ServerRecord>) returns (ok: bool)
      requires cluster.Valid()
      modifies cluster
      ensures cluster.Valid()
      ensures Partial(cluster.servers, ok) == Applied(old(cluster.servers), rs)
    {
      ghost var before := cluster.servers;
      if !Named(rs) { return false; }
      Reconcile(Ids(rs));
      ok := true;
      for i := 0 to |rs|
        invariant cluster.Valid() && ok
        invariant Partial(cluster.servers, true) == WriteAll(Kept(before, Ids(rs)), rs[..i])
      {
        assert rs[i] in rs;
        assert Init(rs[..i + 1]) == rs[..i] && Last(rs[..i + 1]) == rs[i];
        ok := WriteServer(rs[i]);
        if !ok {
          StopsEarly(Kept(before, Ids(rs)), rs, i + 1);
          return;
        }
      }
      assert rs[..|rs|] == rs;
    }

    method Rewind(backup: Servers)
      requires cluster.Valid()
      modifies cluster
      ensures cluster.Valid() && cluster.servers == Rewound(old(cluster.servers), backup)
    {
      ghost var before := cluster.servers;
      var todo := backup.Keys;
      while todo != {}
        invariant todo <= backup.Keys && cluster.Valid()
        invariant cluster.servers == Rewound(before, Kept(backup, backup.Keys - todo))
      {
        var id :| id in todo;
        todo := todo - {id};
        if id in cluster.servers {
          var b := backup[id];
          Put(cluster.servers[id].(status := b.status, version := b.version, previous := b.previous, cpu := b.cpu,
                                   memory := b.memory, history := b.history));
        }
      }
      assert Kept(backup, backup.Keys - {}) == backup;
    }

    method Resume(deployment: DeploymentState, s: Section) returns (ok: bool)
      modifies deployment
      ensures Partial(ProgressOf(deployment), ok) == Resumed(old(ProgressOf(deployment)), s)
    {
      if !s.status.Good? { return false; }
      deployment.status := s.status.value;
      deployment.currentStage := if s.currentStage == None then -1 else s.currentStage.value;
      deployment.updated := set id | id in s.updated;
      deployment.pending := set id | id in s.pending;
      deployment.errorMessage := s.errorMessage;
      var stages: seq<StageResult> := [];
      for i := 0 to |s.stages|
        invariant |stages| == i && forall j | 0 <= j < i :: s.stages[j] == Good(stages[j])
      {
        if !s.stages[i].Good? {
          assert s.stages[i] in s.stages;
          return false;
        }
        stages := stages + [s.stages[i].value];
      }
      assert stages == Values(s.stages);
      deployment.stages := stages;
      ok := true;
    }

    method PutBack(deployment: DeploymentState, p: Progress)
      modifies deployment
      ensures ProgressOf(deployment) == p
    {
      deployment.status, deployment.currentStage := p.status, p.currentStage;
      deployment.updated, deployment.pending := p.updated, p.pending;
      deployment.errorMessage, deployment.stages := p.errorMessage, p.stages;
    }

    // Whether the snapshot is one of this deployment.
    predicate Concerns(s: Section, deployment: DeploymentState?) {
      deployment != null && s.id == Some(deployment.deploymentId)
    }

    method Restore(snapshot: Snapshot, deployment: DeploymentState?) returns (ok: bool)
      requires cluster.Valid()
      modifies cluster, deployment
      ensures cluster.Valid()
      ensures var before, a := old(cluster.servers), Applied(old(cluster.servers), snapshot.servers);
              && (ok ==> a.ok && cluster.servers == a.state)
              && (!ok ==> cluster.servers == Rewound(a.state, before))
              && (ok <==> a.ok && (Concerns(snapshot.section, deployment) ==>
                                     Resumed(old(ProgressOf(deployment)), snapshot.section).ok))
      ensures deployment != null ==>
                ProgressOf(deployment) == if ok && Concerns(snapshot.section, deployment)
                                          then Resumed(old(ProgressOf(deployment)), snapshot.section).state
                                          else old(ProgressOf(deployment))
    {
      var backup := cluster.servers;
      ok := Apply(snapshot.servers);
      if deployment == null {
        if !ok { Rewind(backup); }
        return;
      }
      var progress := ProgressOf(deployment);
      if ok && snapshot.section.id == Some(deployment.deploymentId) {
        ok := Resume(deployment, snapshot.section);
      }
      if !ok {
        Rewind(backup);
        PutBack(deployment, progress);
      }
    }
  }

  // ---------- Round trip ----------

  // A restored server keeps the host name, address and region of the live one.
  function Overlaid(live: Server, stored: Server): Server {
    stored.(hostname := live.hostname, ipAddress := live.ipAddress, region := live.region)
  }

  lemma WrittenCaptured(live: Server, stored: Server, checked: int)
    requires live.id == stored.id
    ensures Written(live, RecordOf(stored, checked)) == Partial(Overlaid(live, stored), true)
    ensures Creatable(RecordOf(stored, checked))
    ensures Overlaid(Created(stored.id, RecordOf(stored, checked)), stored) == stored
  {
  }

  ghost predicate AllCaptured(rs: seq<ServerRecord>, captured: Servers) {
    forall r | r in rs :: r.id.Some? && r.id.value in captured
                       && exists checked :: r == RecordOf(captured[r.id.value], checked)
  }

  // What writing captured records makes of a live cluster.
  function Overlay(live: Servers, captured: Servers, ids: set<ServerId>): Servers
    requires ids <= captured.Keys
  {
    map id | id in live.Keys + ids ::
      if id !in ids then live[id] else if id in live then Overlaid(live[id], captured[id]) else captured[id]
  }

  lemma OverlayOne(live: Servers, captured: Servers, ids: set<ServerId>, r: ServerRecord, checked: int)
    requires WellKeyed(live) && WellKeyed(captured) && ids <= captured.Keys
    requires r.id.Some? && r.id.value in captured && r == RecordOf(captured[r.id.value], checked)
    ensures WriteOne(Overlay(live, captured, ids), r) == Partial(Overlay(live, captured, ids + {r.id.value}), true)
  {
    var id, mid := r.id.value, Overlay(live, captured, ids);
    var base := if id in mid then mid[id] else Created(id, r);
    WrittenCaptured(base, captured[id], checked);
    assert Overlaid(base, captured[id]) == if id in live then Overlaid(live[id], captured[id]) else captured[id];
    assert mid[id := Overlaid(base, captured[id])] == Overlay(live, captured, ids + {id});
  }

  lemma {:induction false} WriteCaptured(live: Servers, captured: Servers, rs: seq<ServerRecord>)
    requires WellKeyed(live) && WellKeyed(captured) && AllCaptured(rs, captured)
    ensures Named(rs) && Ids(rs) <= captured.Keys
    ensures WriteAll(live, rs) == Partial(Overlay(live, captured, Ids(rs)), true)
  {
    if rs == [] {
      assert Overlay(live, captured, {}) == live;
      assert Ids(rs) == {};
    } else {
      SplitLast(rs);
      WriteCaptured(live, captured, Init(rs));
      var r := Last(rs);
      assert r in rs;
      assert Ids(rs) == Ids(Init(rs)) + {r.id.value};
      var checked :| r == RecordOf(captured[r.id.value], checked);
      OverlayOne(live, captured, Ids(Init(rs)), r, checked);
    }
  }

  ghost predicate SameStatics(live: Servers, captured: Servers) {
    forall id | id in live && id in captured ::
      && live[id].hostname == captured[id].hostname && live[id].ipAddress == captured[id].ipAddress
      && live[id].region == captured[id].region
  }

  // Restoring a capture never fails on the servers, brings back exactly the captured
  // ids with all that is stored of them, and is the captured cluster exactly if no
  // live server of the same id differs in what a restore leaves alone.
  lemma RoundTrip(live: Servers, captured: Servers, rs: seq<ServerRecord>)
    requires WellKeyed(live) && WellKeyed(captured) && Captures(rs, captured)
    ensures Applied(live, rs) == Partial(Overlay(Kept(live, captured.Keys), captured, captured.Keys), true)
    ensures Applied(live, rs).state.Keys == captured.Keys
    ensures Applied(live, rs).state == captured <==> SameStatics(live, captured)
  {
    CapturedIds(rs, captured);
    WriteCaptured(Kept(live, captured.Keys), captured, rs);
    var after := Applied(live, rs).state;
    if after == captured {
      forall id | id in live && id in captured
        ensures && live[id].hostname == captured[id].hostname && live[id].ipAddress == captured[id].ipAddress
                && live[id].region == captured[id].region
      {
        assert after[id] == Overlaid(live[id], captured[id]);
      }
    }
    if SameStatics(live, captured) {
      forall id | id in captured ensures after[id] == captured[id] {
        assert id in live ==> after[id] == Overlaid(live[id], captured[id]);
      }
    }
  }

  lemma CapturedIds(rs: seq<ServerRecord>, captured: Servers)
    requires Captures(rs, captured)
    ensures Named(rs) && Ids(rs) == captured.Keys
  {
    forall id | id in captured ensures id in Ids(rs) {
      var r :| r in rs && r.id == Some(id);
      assert r.id.value == id;
    }
  }

  lemma DeploymentRoundTrip(s: Section, captured: Progress, live: Progress)
    requires CapturesProgress(s, captured)
    ensures Resumed(live, s) == Partial(captured, true)
  {
    assert (set id | id in s.updated) == Elems(s.updated) && (set id | id in s.pending) == Elems(s.pending);
    assert Readable(s.stages) by {
      forall x | x in s.stages ensures x.Good? {
        var i :| 0 <= i < |s.stages| && s.stages[i] == x;
      }
    }
    assert Values(s.stages) == captured.stages;
  }

  // What may happen between a capture and its restoration.
  datatype Churn = Operate(action: Addressed) | Override(id: ServerId, version: Version) | Remove(id: ServerId) | Add(server: Server)

  function ChurnOne(servers: Servers, c: Churn): Servers {
    match c
    case Operate(a) => if a.id in servers then servers[a.id := Step(servers[a.id], a.op)] else servers
    case Override(id, version) => if id in servers then servers[id := servers[id].(version := version)] else servers
    case Remove(id) => servers - {id}
    case Add(server) => servers[server.id := server]
  }

  function ChurnAll(servers: Servers, cs: seq<Churn>): Servers {
    if cs == [] then servers else ChurnOne(ChurnAll(servers, Init(cs)), Last(cs))
  }

  // A server that comes back under a captured id is the same host.
  ghost predicate SameHosts(cs: seq<Churn>, captured: Servers) {
    forall c | c in cs && c.Add? && c.server.id in captured ::
      var t := captured[c.server.id];
      c.server.hostname == t.hostname && c.server.ipAddress == t.ipAddress && c.server.region == t.region
  }

  lemma {:induction false} ChurnKeepsStatics(captured: Servers, cs: seq<Churn>)
    requires WellKeyed(captured) && SameHosts(cs, captured)
    ensures WellKeyed(ChurnAll(captured, cs)) && SameStatics(ChurnAll(captured, cs), captured)
  {
    if cs != [] {
      SplitLast(cs);
      assert Last(cs) in cs;
      ChurnKeepsStatics(captured, Init(cs));
    }
  }

  // Whatever is done to the cluster meanwhile, restoring brings back the capture.
  lemma RestoredAfterChurn(captured: Servers, cs: seq<Churn>, rs: seq<ServerRecord>)
    requires WellKeyed(captured) && Captures(rs, captured) && SameHosts(cs, captured)
    ensures Applied(ChurnAll(captured, cs), rs) == Partial(captured, true)
  {
    ChurnKeepsStatics(captured, cs);
    RoundTrip(ChurnAll(captured, cs), captured, rs);
  }

  // ---------- Failed restores ----------

  predicate Complete(r: ServerRecord) {
    && r.status.Good? && r.version.Some? && r.previous.Some? && r.cpu.Some? && r.memory.Some?
    && r.lastCheck.Good? && r.history.Good?
  }

  // Which servers there are after the records have been gone through up to the first
  // that fails: told from the ids there are now and from what can be read.
  function Gone(ids: set<ServerId>, rs: seq<ServerRecord>): Partial<set<ServerId>>
    requires Named(rs)
  {
    if rs == [] then Partial(ids, true) else
    assert forall r | r in Init(rs) :: r in rs;
    var p := Gone(ids, Init(rs));
    var r := Last(rs);
    assert r in rs;
    if !p.ok || (r.id.value !in p.state && !Creatable(r)) then Partial(p.state, false)
    else Partial(p.state + {r.id.value}, Complete(r))
  }

  // Writing leaves a server's identity alone.
  lemma WrittenKeeps(s: Server, r: ServerRecord)
    ensures Written(s, r).ok == Complete(r)
    ensures var t := Written(s, r).state;
            t.(status := s.status, version := s.version, previous := s.previous, cpu := s.cpu, memory := s.memory,
               history := s.history) == s
  {
  }

  ghost predicate SameIdentity(now: Servers, before: Servers) {
    forall id | id in now && id in before ::
      now[id].(status := before[id].status, version := before[id].version, previous := before[id].previous,
               cpu := before[id].cpu, memory := before[id].memory, history := before[id].history) == before[id]
  }

  lemma {:induction false} WriteAllKeeps(servers: Servers, before: Servers, rs: seq<ServerRecord>)
    requires Named(rs) && SameIdentity(servers, before) && before.Keys * Ids(rs) <= servers.Keys
    ensures var p := WriteAll(servers, rs);
            && p.state.Keys == Gone(servers.Keys, rs).state && p.ok == Gone(servers.Keys, rs).ok
            && SameIdentity(p.state, before) && servers.Keys <= p.state.Keys
  {
    if rs != [] {
      SplitLast(rs);
      var r := Last(rs);
      assert r in rs && Named(Init(rs));
      WriteAllKeeps(servers, before, Init(rs));
      var p := WriteAll(servers, Init(rs));
      var id := r.id.value;
      if p.ok && (id in p.state || Creatable(r)) {
        WrittenKeeps(if id in p.state then p.state[id] else Created(id, r), r);
        assert id in before ==> id in servers;
      }
    }
  }

  // Record `i` can be written: all that is set on the server can be read, and if there
  // is no server by then, also what makes one.
  ghost predicate Writable(ids: set<ServerId>, rs: seq<ServerRecord>, i: nat)
    requires i < |rs|
  {
    var r := rs[i];
    && r.status.Good? && r.version.Some? && r.previous.Some? && r.cpu.Some? && r.memory.Some?
    && r.lastCheck.Good? && r.history.Good?
    && ((r.id.Some? && r.id.value in ids) || (exists j :: 0 <= j < i && rs[j].id == r.id)
        || (r.hostname.Some? && r.ipAddress.Some? && r.region.Some?))
  }

  lemma IdBefore(rs: seq<ServerRecord>, n: nat)
    requires Named(rs) && n < |rs| && rs[n].id.Some?
    ensures rs[n].id.value in Ids(rs[..n]) <==> exists j :: 0 <= j < n && rs[j].id == rs[n].id
  {
    var id := rs[n].id.value;
    if id in Ids(rs[..n]) {
      var x :| x in rs[..n] && x.id.Some? && x.id.value == id;
      var j :| 0 <= j < n && rs[..n][j] == x;
      assert rs[j].id == rs[n].id;
    }
    if j :| 0 <= j < n && rs[j].id == rs[n].id { assert rs[..n][j] in rs[..n]; }
  }

  lemma WriteLast(servers: Servers, rs: seq<ServerRecord>)
    requires rs != [] && Named(rs) && Named(Init(rs)) && Last(rs).id.Some?
    requires WriteAll(servers, Init(rs)).ok && WriteAll(servers, Init(rs)).state.Keys == servers.Keys + Ids(Init(rs))
    ensures WriteAll(servers, rs).ok <==> Writable(servers.Keys, rs, |rs| - 1)
    ensures WriteAll(servers, rs).ok ==> WriteAll(servers, rs).state.Keys == servers.Keys + Ids(Init(rs)) + {Last(rs).id.value}
  {
    var r, p := Last(rs), WriteAll(servers, Init(rs));
    IdBefore(rs, |rs| - 1);
    assert Init(rs) == rs[..|rs| - 1];
    if r.id.value in p.state || Creatable(r) {
      WrittenKeeps(if r.id.value in p.state then p.state[r.id.value] else Created(r.id.value, r), r);
    }
  }

  lemma WritableBefore(ids: set<ServerId>, rs: seq<ServerRecord>, i: nat)
    requires i < |rs| - 1
    ensures Writable(ids, Init(rs), i) <==> Writable(ids, rs, i)
  {
    forall j | 0 <= j <= i ensures Init(rs)[j] == rs[j] {}
  }

  lemma {:induction false} WritesExactly(servers: Servers, rs: seq<ServerRecord>)
    requires Named(rs)
    ensures WriteAll(servers, rs).ok <==> forall i | 0 <= i < |rs| :: Writable(servers.Keys, rs, i)
    ensures WriteAll(servers, rs).ok ==> WriteAll(servers, rs).state.Keys == servers.Keys + Ids(rs)
  {
    if rs != [] {
      SplitLast(rs);
      var n := |rs| - 1;
      assert rs[n] in rs && Named(Init(rs));
      WritesExactly(servers, Init(rs));
      forall i | 0 <= i < n ensures Writable(servers.Keys, Init(rs), i) <==> Writable(servers.Keys, rs, i) {
        WritableBefore(servers.Keys, rs, i);
      }
      assert Ids(rs) == Ids(Init(rs)) + {Last(rs).id.value};
      if WriteAll(servers, Init(rs)).ok { WriteLast(servers, rs); }
    }
  }

  // A restore gets through exactly if each record is named and can be written, and, if
  // the snapshot is of this deployment, its status and all its stages can be read.
  lemma RestoresExactly(live: Servers, rs: seq<ServerRecord>, p: Progress, s: Section)
    ensures Applied(live, rs).ok <==>
              (forall r | r in rs :: r.id.Some?) && forall i | 0 <= i < |rs| :: Writable(live.Keys, rs, i)
    ensures Resumed(p, s).ok <==> s.status.Good? && forall x | x in s.stages :: x.Good?
  {
    if Named(rs) {
      var kept := Kept(live, Ids(rs));
      WritesExactly(kept, rs);
      forall i | 0 <= i < |rs| ensures Writable(kept.Keys, rs, i) <==> Writable(live.Keys, rs, i) {
        assert rs[i] in rs;
      }
    }
  }

  // The ids after a restore, before a failure is made good.
  function IdsAfter(ids: set<ServerId>, rs: seq<ServerRecord>): set<ServerId> {
    if Named(rs) then Gone(ids * Ids(rs), rs).state else ids
  }

  // A failed restore leaves the cluster as it was exactly if it has deleted nothing
  // and made nothing by the time it fails.
  lemma RestoreAtomic(before: Servers, rs: seq<ServerRecord>)
    ensures Applied(before, rs).state.Keys == IdsAfter(before.Keys, rs)
    ensures Rewound(Applied(before, rs).state, before) == before <==> IdsAfter(before.Keys, rs) == before.Keys
  {
    var after := Applied(before, rs).state;
    if Named(rs) {
      WriteAllKeeps(Kept(before, Ids(rs)), before, rs);
      assert Kept(before, Ids(rs)).Keys == before.Keys * Ids(rs);
    }
    assert SameIdentity(after, before);
    if after.Keys == before.Keys {
      assert Rewound(after, before) == before;
    }
  }

  lemma {:induction false} GoneWithin(ids: set<ServerId>, rs: seq<ServerRecord>)
    requires Named(rs) && Ids(rs) <= ids
    ensures Gone(ids, rs).state == ids
  {
    if rs != [] {
      SplitLast(rs);
      assert Last(rs) in rs && Named(Init(rs));
      assert Last(rs).id.value in Ids(rs);
      assert Ids(Init(rs)) <= Ids(rs);
      GoneWithin(ids, Init(rs));
    }
  }

  // With equal ids it always is.
  lemma EqualIdsAtomic(before: Servers, rs: seq<ServerRecord>)
    requires Ids(rs) == before.Keys || !Named(rs)
    ensures Rewound(Applied(before, rs).state, before) == before
  {
    RestoreAtomic(before, rs);
    if Named(rs) {
      assert before.Keys * Ids(rs) == before.Keys;
      GoneWithin(before.Keys, rs);
    }
  }

  lemma {:induction false} GoneGrows(ids: set<ServerId>, rs: seq<ServerRecord>)
    requires Named(rs)
    ensures ids <= Gone(ids, rs).state <= ids + Ids(rs)
  {
    if rs != [] {
      SplitLast(rs);
      assert Last(rs) in rs && Named(Init(rs));
      assert Last(rs).id.value in Ids(rs) && Ids(Init(rs)) <= Ids(rs);
      GoneGrows(ids, Init(rs));
    }
  }

  // A server that the snapshot does not know is gone for good, however the restore ends.
  lemma DeletedForGood(before: Servers, rs: seq<ServerRecord>, id: ServerId)
    requires Named(rs) && id in before && id !in Ids(rs)
    ensures id !in Applied(before, rs).state && id !in Rewound(Applied(before, rs).state, before)
  {
    RestoreAtomic(before, rs);
    GoneGrows(before.Keys * Ids(rs), rs);
  }

  lemma {:induction false} StopsEarly(servers: Servers, rs: seq<ServerRecord>, n: nat)
    requires Named(rs) && n <= |rs|
    requires Named(rs[..n]) && !WriteAll(servers, rs[..n]).ok
    ensures WriteAll(servers, rs) == WriteAll(servers, rs[..n])
    decreases |rs| - n
  {
    if n == |rs| {
      assert rs[..n] == rs;
    } else {
      assert Init(rs[..n + 1]) == rs[..n];
      assert Named(rs[..n + 1]);
      StopsEarly(servers, rs, n + 1);
    }
  }
}
