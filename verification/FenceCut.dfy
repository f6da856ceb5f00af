/** A run after which a revoked key stays on the interface of a gateway at the
    current version: its address is given to the next session, and the apply that
    moves it is cut before it reaches the removal. */
module FenceCut {
  import opened Text
  import opened Cidr
  import opened Tables
  import opened Fence
  import opened FenceRuns
  import R = Reconcile

  const EXPIRY := 1000

  function RowOf(site: Site): (row: Session)
  {
    Session(0, 0, site.gateway, site.network, 0, Active, EXPIRY)
  }

  function PeerOf(site: Site, key: Key, ip: nat): (row: PeerRow)
  {
    PeerRow(site.gateway, 0, key, ip, EXPIRY)
  }

  lemma Then(site: Site, run: seq<State>, step: Step, s': State) returns (longer: seq<State>)
    requires IsRun(site, run)
    requires ControlStep(site, run[|run| - 1], step, s') || GatewayStep(site, run[|run| - 1], step, s')
    ensures IsRun(site, longer) && run <= longer && longer[|longer| - 1] == s'
  {
    longer := run + [s'];
    assert Next(site, run[|run| - 1], s');
  }

  /** The tables after a whole creation that is given `ip`. */
  function CreatedDb(site: Site, db: Db, sid: Id, key: Key, ip: nat): (db': Db)
  {
    Bump(db.(sessions := db.sessions[sid := RowOf(site).(ip := ip)], peers := db.peers[sid := PeerOf(site, key, ip)],
             allocations := db.allocations[(site.network, ip) := Some(sid)]), site.gateway)
  }

  lemma Creates(site: Site, run: seq<State>, sid: Id, key: Key, ip: nat) returns (longer: seq<State>)
    requires IsRun(site, run) && |key| >= 40
    requires var s := run[|run| - 1];
             && s.tasks == map[] && sid !in s.db.sessions && site.network in s.db.networks
             && Allocate(InsertSession(s.db, sid, RowOf(site)), site.network, sid)
                == (InsertSession(s.db, sid, RowOf(site)).(allocations := s.db.allocations[(site.network, ip) := Some(sid)]), Some(ip))
    ensures IsRun(site, longer) && run <= longer
    ensures var s := run[|run| - 1];
            longer[|longer| - 1] == s.(db := CreatedDb(site, s.db, sid, key, ip), keys := s.keys[sid := key], given := s.given[sid := ip])
  {
    var s := run[|run| - 1];
    var task := Creating(sid, site.gateway, site.network, 0, key, EXPIRY, Inserted);
    var s1 := s.(db := InsertSession(s.db, sid, RowOf(site)), keys := s.keys[sid := key], tasks := map[0 := task]);
    assert s.tasks[0 := task] == map[0 := task];
    longer := Then(site, run, StartCreate(0, sid, RowOf(site), key), s1);
    var s2 := AdvanceCreate(s1, 0);
    longer := Then(site, longer, ContinueCreate(0), s2);
    var s3 := AdvanceCreate(s2, 0);
    longer := Then(site, longer, ContinueCreate(0), s3);
    var s4 := AdvanceCreate(s3, 0);
    longer := Then(site, longer, ContinueCreate(0), s4);
    var s5 := AdvanceCreate(s4, 0);
    longer := Then(site, longer, ContinueCreate(0), s5);
    CreatedEnd(site, s, sid, key, ip, s1, s2, s3, s4, s5);
  }

  lemma CreatedEnd(site: Site, s: State, sid: Id, key: Key, ip: nat, s1: State, s2: State, s3: State, s4: State, s5: State)
    requires s.tasks == map[] && sid !in s.db.sessions
    requires s1 == s.(db := InsertSession(s.db, sid, RowOf(site)), keys := s.keys[sid := key],
                      tasks := map[0 := Creating(sid, site.gateway, site.network, 0, key, EXPIRY, Inserted)])
    requires Allocate(s1.db, site.network, sid) == (s1.db.(allocations := s.db.allocations[(site.network, ip) := Some(sid)]), Some(ip))
    requires s2 == AdvanceCreate(s1, 0) && 0 in s2.tasks && s2.tasks[0].Creating? && s3 == AdvanceCreate(s2, 0)
    requires 0 in s3.tasks && s3.tasks[0].Creating? && s4 == AdvanceCreate(s3, 0)
    requires 0 in s4.tasks && s4.tasks[0].Creating? && s5 == AdvanceCreate(s4, 0)
    ensures s5 == s.(db := CreatedDb(site, s.db, sid, key, ip), keys := s.keys[sid := key], given := s.given[sid := ip])
  {
    assert s4.db == s.db.(sessions := s.db.sessions[sid := RowOf(site).(ip := ip)], peers := s.db.peers[sid := PeerOf(site, key, ip)],
                          allocations := s.db.allocations[(site.network, ip) := Some(sid)]);
    assert s5.tasks == map[];
  }

  function RevokedDb(db: Db, sid: Id): (db': Db)
  {
    BumpFor(Release(DeletePeer(MarkRevoked(db, sid), sid), sid), sid)
  }

  lemma RevokesWhole(site: Site, run: seq<State>, sid: Id) returns (longer: seq<State>)
    requires IsRun(site, run)
    requires var s := run[|run| - 1]; s.tasks == map[] && CanRevoke(s.db, sid)
    ensures IsRun(site, longer) && run <= longer
    ensures var s := run[|run| - 1]; longer[|longer| - 1] == s.(db := RevokedDb(s.db, sid))
  {
    var s := run[|run| - 1];
    var s1 := s.(db := MarkRevoked(s.db, sid), tasks := map[0 := Revoking(sid, Marked)]);
    assert s.tasks[0 := Revoking(sid, Marked)] == map[0 := Revoking(sid, Marked)];
    longer := Then(site, run, StartRevoke(0, sid), s1);
    var s2 := AdvanceRevoke(s1, 0);
    longer := Then(site, longer, ContinueRevoke(0), s2);
    var s3 := AdvanceRevoke(s2, 0);
    longer := Then(site, longer, ContinueRevoke(0), s3);
    var s4 := AdvanceRevoke(s3, 0);
    longer := Then(site, longer, ContinueRevoke(0), s4);
    assert s4.tasks == map[];
  }

  /** Nothing has run out. */
  predicate Fresh(s: State)
  {
    && (forall sid | sid in s.db.sessions :: s.db.sessions[sid].expiresAt >= s.now)
    && (forall sid | sid in s.db.peers :: s.db.peers[sid].expiresAt >= s.now)
  }

  lemma ReadsVersion(site: Site, run: seq<State>) returns (longer: seq<State>)
    requires IsRun(site, run)
    requires var s := run[|run| - 1]; s.phase == Idle && Fresh(s)
    ensures IsRun(site, longer) && run <= longer
    ensures var s := run[|run| - 1]; longer[|longer| - 1] == s.(phase := PeersDeleted(Version(site, s)))
  {
    var s := run[|run| - 1];
    var v := Version(site, s);
    NothingExpires(s.db, site.gateway, s.now);
    longer := Then(site, run, Heartbeat, s.(phase := VersionRead(v)));
    longer := Then(site, longer, ExpireOwn, s.(phase := SessionsExpired(v)));
    longer := Then(site, longer, DeleteOwn, s.(phase := PeersDeleted(v)));
  }

  lemma Answers(site: Site, run: seq<State>, p: R.Peer) returns (longer: seq<State>)
    requires IsRun(site, run)
    requires var s := run[|run| - 1]; s.phase == Idle && Fresh(s) && IsSelection([p], site, s)
    ensures IsRun(site, longer) && run <= longer
    ensures var s := run[|run| - 1]; longer[|longer| - 1] == s.(phase := Answered(ConfigOf(site, s, p)))
  {
    var s := run[|run| - 1];
    longer := ReadsVersion(site, run);
    var read := longer[|longer| - 1];
    assert IsSelection([p], site, read);
    assert Selects(site, read, s.(phase := Answered(ConfigOf(site, s, p))));
    longer := Then(site, longer, Select, s.(phase := Answered(ConfigOf(site, s, p))));
  }

  /** A heartbeat up to its plan: one peer selected, and the commands for it. */
  lemma Plans(site: Site, run: seq<State>, p: R.Peer, live: seq<R.LivePeer>) returns (longer: seq<State>)
    requires IsRun(site, run)
    requires var s := run[|run| - 1];
             && s.phase == Idle && Fresh(s) && s.lastVersion != Version(site, s) && IsSelection([p], site, s)
             && R.Acceptable(p, s.now) && R.IsDump(live, s.wire)
    ensures IsRun(site, longer) && run <= longer
    ensures var s := run[|run| - 1];
            longer[|longer| - 1] == s.(phase := Applying(ConfigOf(site, s, p), [], Planned(site, ConfigOf(site, s, p), live)))
  {
    hide Fresh, IsSelection, R.IsDump, Planned, Version, R.Acceptable;
    var s := run[|run| - 1];
    longer := Answers(site, run, p);
    var c := ConfigOf(site, s, p);
    assert forall q | q in c.peers :: q == p;
    var next := s.(phase := Applying(c, [], Planned(site, c, live)));
    assert Begins(site, longer[|longer| - 1], next);
    longer := Then(site, longer, BeginApply, next);
  }

  function ConfigOf(site: Site, s: State, p: R.Peer): (c: R.GatewayConfig)
  {
    R.GatewayConfig(Version(site, s), s.now + LIFETIME, 51820, Some(site.cidr), [p])
  }

  lemma NothingExpires(db: Db, gateway: Id, now: int)
    requires forall sid | sid in db.sessions :: db.sessions[sid].expiresAt >= now
    requires forall sid | sid in db.peers :: db.peers[sid].expiresAt >= now
    ensures ExpireSessions(db, gateway, now) == db && DeleteExpired(db, gateway, now) == db
  {
    assert ExpireSessions(db, gateway, now).sessions == db.sessions;
    assert DeleteExpired(db, gateway, now).peers == db.peers;
  }

  lemma OneSelected(site: Site, s: State, sid: Id)
    requires s.db.peers.Keys == {sid} && LiveRow(site, s, sid)
    ensures IsSelection([AsPeer(sid, s.db.peers[sid])], site, s)
  {
    var p := AsPeer(sid, s.db.peers[sid]);
    assert [p][0] in [p];
  }

  // ---- The three applies ----

  lemma Runs(site: Site, run: seq<State>) returns (longer: seq<State>)
    requires IsRun(site, run)
    requires var s := run[|run| - 1];
             s.phase.Applying? && s.phase.todo != [] && s.phase.todo[0].SetPeer? && R.Accepts(site.isKey, s.phase.todo[0])
    ensures IsRun(site, longer) && run <= longer
    ensures var s, e := run[|run| - 1], longer[|longer| - 1];
            var c := s.phase.todo[0];
            e == s.(wire := R.Exec1(s.wire, c), phase := Applying(s.phase.config, s.phase.ran + [c], s.phase.todo[1..]),
                    written := s.written + {c.key}, cut := s.cut - {c.key})
  {
    var s := run[|run| - 1];
    var c := s.phase.todo[0];
    longer := Then(site, run, RunCommand,
                   s.(wire := R.Exec1(s.wire, c), phase := Applying(s.phase.config, s.phase.ran + [c], s.phase.todo[1..]),
                      written := s.written + {c.key}, cut := s.cut - {c.key}));
  }

  lemma Ends(site: Site, run: seq<State>) returns (longer: seq<State>)
    requires IsRun(site, run)
    requires var s := run[|run| - 1]; s.phase.Applying? && s.phase.todo == []
    ensures IsRun(site, longer) && run <= longer
    ensures var s := run[|run| - 1];
            longer[|longer| - 1] == s.(lastVersion := s.phase.config.version, applied := s.phase.config.peers,
                                       selectedAt := s.phase.config.expiresAt - LIFETIME, phase := Idle)
  {
    var s := run[|run| - 1];
    longer := Then(site, run, FinishApply,
                   s.(lastVersion := s.phase.config.version, applied := s.phase.config.peers,
                      selectedAt := s.phase.config.expiresAt - LIFETIME, phase := Idle));
  }

  /** On an empty interface a plan is one command. */
  lemma FirstPlan(p: R.Peer, managed: Option<Net>)
    ensures R.IsDump([], R.Interface({}, map[]))
    ensures R.Commands(R.PlanOf([p], [], managed)) == [R.SetPeer(p.key, p.allowed)]
  {
    R.OneFate(p, R.ByKey([]), R.Add);
    R.OneFate(p, R.ByKey([]), R.Update);
    OneSet(p, R.PlanOf([p], [], managed));
  }

  lemma OneSet(p: R.Peer, plan: R.ReconcilePlan)
    requires plan.add + plan.update == [p] && plan.remove == []
    ensures R.Commands(plan) == [R.SetPeer(p.key, p.allowed)]
  {
    assert R.Changed(plan) == [p];
    assert R.Commands(plan) == R.Sets([p]) + R.Removes([]);
  }

  lemma FirstWire(k: Key, host: Net)
    requires host.prefix == Width(host.family)
    ensures R.Exec1(R.Interface({}, map[]), R.SetPeer(k, [R.Block(host)])) == R.Interface({k}, map[host := k])
  {
    R.OneBlock(host);
  }

  lemma FirstApply(site: Site, run: seq<State>, p: R.Peer, host: Net) returns (longer: seq<State>)
    requires IsRun(site, run) && site.isKey(p.key) && host.prefix == Width(host.family) && p.allowed == [R.Block(host)]
    requires var s := run[|run| - 1];
             && s.phase == Idle && Fresh(s) && s.lastVersion != Version(site, s) && IsSelection([p], site, s)
             && R.Acceptable(p, s.now) && s.wire == R.Interface({}, map[])
    ensures IsRun(site, longer) && run <= longer
    ensures var s := run[|run| - 1];
            longer[|longer| - 1] == s.(wire := R.Interface({p.key}, map[host := p.key]), written := s.written + {p.key},
                                       cut := s.cut - {p.key}, lastVersion := Version(site, s), applied := [p], selectedAt := s.now)
  {
    var s := run[|run| - 1];
    var c := ConfigOf(site, s, p);
    FirstPlan(p, site.settings.Managed(c.cidr));
    FirstWire(p.key, host);
    longer := Plans(site, run, p, []);
    longer := Runs(site, longer);
    longer := Ends(site, longer);
  }

  /** The apply that is cut: the address of `a` has gone to `p`, `a` is still there. */
  lemma TakesAddress(site: Site, run: seq<State>, a: Key, p: R.Peer, host: Net) returns (longer: seq<State>)
    requires IsRun(site, run) && site.Valid() && site.isKey(p.key) && p.key != a && p.allowed == [R.Block(host)]
    requires ContainsNetwork(site.Range().value, host)
    requires var s := run[|run| - 1];
             && s.phase == Idle && Fresh(s) && s.lastVersion != Version(site, s) && IsSelection([p], site, s)
             && R.Acceptable(p, s.now) && s.wire == R.Interface({a}, map[host := a])
    ensures IsRun(site, longer) && run <= longer
    ensures var s := run[|run| - 1];
            longer[|longer| - 1] == s.(wire := CutWireOf(a, p.key, host), written := s.written + {p.key}, cut := s.cut - {p.key},
                                       phase := Applying(ConfigOf(site, s, p), [R.SetPeer(p.key, p.allowed)], [R.RemovePeer(a)]))
  {
    R.OneDump(a, host);
    R.OnePlan(p, a, [R.Block(host)], site.Range().value);
    var s := run[|run| - 1];
    var cs := [R.SetPeer(p.key, p.allowed), R.RemovePeer(a)];
    longer := Plans(site, run, p, [R.LivePeer(a, [R.Block(host)])]);
    assert Planned(site, ConfigOf(site, s, p), [R.LivePeer(a, [R.Block(host)])]) == cs;
    longer := Runs(site, longer);
    assert [] + [cs[0]] == [R.SetPeer(p.key, p.allowed)] && cs[1..] == [R.RemovePeer(a)];
  }

  lemma Loses(site: Site, run: seq<State>, a: Key) returns (longer: seq<State>)
    requires IsRun(site, run)
    requires var s := run[|run| - 1];
             && s.phase.Applying? && s.phase.todo == [R.RemovePeer(a)] && a in s.written && a in s.wire.peers && R.Owned(s.wire, a) == {}
    ensures IsRun(site, longer) && run <= longer
    ensures var s := run[|run| - 1]; longer[|longer| - 1] == s.(phase := Idle, cut := s.cut + {a})
  {
    var s := run[|run| - 1];
    assert s.phase.todo[0] in s.phase.todo;
    assert CutAt(s) == s.cut + {a};
    longer := Then(site, run, Lose, s.(phase := Idle, cut := CutAt(s)));
  }

  lemma CutApply(site: Site, run: seq<State>, a: Key, p: R.Peer, host: Net) returns (longer: seq<State>)
    requires IsRun(site, run) && site.Valid() && site.isKey(p.key) && p.key != a && p.allowed == [R.Block(host)]
    requires host.prefix == Width(host.family) && ContainsNetwork(site.Range().value, host)
    requires var s := run[|run| - 1];
             && s.phase == Idle && Fresh(s) && s.lastVersion != Version(site, s) && IsSelection([p], site, s)
             && R.Acceptable(p, s.now) && s.wire == R.Interface({a}, map[host := a]) && a in s.written
    ensures IsRun(site, longer) && run <= longer
    ensures var s := run[|run| - 1];
            longer[|longer| - 1] == s.(wire := CutWireOf(a, p.key, host), written := s.written + {p.key}, cut := s.cut - {p.key} + {a})
  {
    R.CutWire(a, p.key, host);
    longer := TakesAddress(site, run, a, p, host);
    longer := Loses(site, longer, a);
  }

  function CutWireOf(a: Key, b: Key, host: Net): (w: R.Interface)
  {
    R.Exec1(R.Interface({a}, map[host := a]), R.SetPeer(b, [R.Block(host)]))
  }

  /** The apply after it finds nothing to do. */
  lemma NextApply(site: Site, run: seq<State>, a: Key, p: R.Peer, host: Net) returns (longer: seq<State>)
    requires IsRun(site, run) && site.Valid() && p == R.Peer(p.key, [R.Block(host)], p.session, p.expiresAt) && p.key != a
    requires host.prefix == Width(host.family)
    requires var s := run[|run| - 1];
             && s.phase == Idle && Fresh(s) && s.lastVersion != Version(site, s) && IsSelection([p], site, s)
             && R.Acceptable(p, s.now) && s.wire == CutWireOf(a, p.key, host)
    ensures IsRun(site, longer) && run <= longer
    ensures var s := run[|run| - 1];
            longer[|longer| - 1] == s.(lastVersion := Version(site, s), applied := [p], selectedAt := s.now)
  {
    hide Fresh, IsSelection, R.IsDump, Version, R.Acceptable, R.Exec1;
    var live := [R.LivePeer(a, []), R.LivePeer(p.key, [R.Block(host)])];
    R.CutWire(a, p.key, host);
    R.CutIsNoop(a, p, host, site.Range().value);
    longer := Plans(site, run, p, live);
    var e := longer[|longer| - 1];
    assert e.phase.todo == [];
    longer := Ends(site, longer);
  }

  // ---- The run ----

  /** The lowest address the network has to give. */
  function LowestFree(site: Site): (ip: Option<nat>)
  {
    FirstFree(Bounds(site.cidr).0, Bounds(site.cidr).1, {})
  }

  lemma AllocatesLowest(site: Site, db: Db, sid: Id, ip: nat)
    requires site.network in db.networks && db.networks[site.network] == site.cidr && db.allocations == map[]
    requires LowestFree(site) == Some(ip)
    ensures Allocate(db, site.network, sid) == (db.(allocations := map[(site.network, ip) := Some(sid)]), Some(ip))
  {
    assert Held(db, site.network) == {};
    assert db.allocations[(site.network, ip) := Some(sid)] == map[(site.network, ip) := Some(sid)];
  }

  /** The tables once session 1 has been made, then revoked, then session 2 made. */
  ghost predicate FirstMade(site: Site, s: State, a: Key, ip: nat)
  {
    && s.db.sessions == map[1 := RowOf(site).(ip := ip)] && s.db.peers == map[1 := PeerOf(site, a, ip)]
    && s.db.allocations == map[(site.network, ip) := Some(1)] && s.keys == map[1 := a] && Common(site, s)
  }

  ghost predicate FirstRevoked(site: Site, s: State, a: Key, ip: nat)
  {
    && s.db.sessions == map[1 := RowOf(site).(ip := ip, status := Revoked)] && s.db.peers == map[]
    && s.db.allocations == map[] && s.keys == map[1 := a] && Common(site, s)
  }

  ghost predicate SecondMade(site: Site, s: State, a: Key, b: Key, ip: nat)
  {
    && s.db.sessions == map[1 := RowOf(site).(ip := ip, status := Revoked), 2 := RowOf(site).(ip := ip)]
    && s.db.peers == map[2 := PeerOf(site, b, ip)] && s.keys == map[1 := a, 2 := b] && Common(site, s)
  }

  ghost predicate Common(site: Site, s: State)
  {
    && s.tasks == map[] && s.now == 0 && s.phase == Idle && site.network in s.db.networks && s.db.networks[site.network] == site.cidr
    && site.gateway in s.db.gateways
  }

  lemma Starts(site: Site) returns (run: seq<State>)
    requires site.Valid()
    ensures IsRun(site, run)
    ensures var s := run[|run| - 1];
            && Common(site, s) && s.db.sessions == map[] && s.db.peers == map[] && s.db.allocations == map[] && s.keys == map[]
            && s.wire == R.Interface({}, map[]) && s.lastVersion == -1 && s.written == {}
  {
    var db := EMPTY.(networks := map[site.network := site.cidr],
                     gateways := map[site.gateway := GatewayRow(Some(site.network), 0)]);
    run := [State(db, 0, map[], Idle, -1, R.Interface({}, map[]), map[], map[], {}, [], 0, {})];
  }

  lemma MakesFirst(site: Site, run: seq<State>, a: Key, ip: nat) returns (longer: seq<State>)
    requires IsRun(site, run) && |a| >= 40 && LowestFree(site) == Some(ip)
    requires var s := run[|run| - 1];
             && Common(site, s) && s.db.sessions == map[] && s.db.peers == map[] && s.db.allocations == map[] && s.keys == map[]
    ensures IsRun(site, longer) && run <= longer
    ensures var s, e := run[|run| - 1], longer[|longer| - 1];
            FirstMade(site, e, a, ip) && e.wire == s.wire && e.lastVersion == s.lastVersion && e.written == s.written
            && Version(site, e) == Version(site, s) + 1
  {
    var s := run[|run| - 1];
    AllocatesLowest(site, InsertSession(s.db, 1, RowOf(site)), 1, ip);
    longer := Creates(site, run, 1, a, ip);
  }

  lemma RevokesFirst(site: Site, run: seq<State>, a: Key, ip: nat) returns (longer: seq<State>)
    requires IsRun(site, run) && FirstMade(site, run[|run| - 1], a, ip)
    ensures IsRun(site, longer) && run <= longer
    ensures var s, e := run[|run| - 1], longer[|longer| - 1];
            FirstRevoked(site, e, a, ip) && e.wire == s.wire && e.lastVersion == s.lastVersion && e.written == s.written
            && Version(site, e) == Version(site, s) + 1
  {
    longer := RevokesWhole(site, run, 1);
    var s, e := run[|run| - 1], longer[|longer| - 1];
    assert e.db.peers == map[] && e.db.allocations == map[];
  }

  lemma MakesSecond(site: Site, run: seq<State>, a: Key, b: Key, ip: nat) returns (longer: seq<State>)
    requires IsRun(site, run) && |b| >= 40 && LowestFree(site) == Some(ip) && FirstRevoked(site, run[|run| - 1], a, ip)
    ensures IsRun(site, longer) && run <= longer
    ensures var s, e := run[|run| - 1], longer[|longer| - 1];
            SecondMade(site, e, a, b, ip) && e.wire == s.wire && e.lastVersion == s.lastVersion && e.written == s.written
            && Version(site, e) == Version(site, s) + 1
  {
    var s := run[|run| - 1];
    AllocatesLowest(site, InsertSession(s.db, 2, RowOf(site)), 2, ip);
    longer := Creates(site, run, 2, b, ip);
    var e := longer[|longer| - 1];
    assert e.db.peers == map[2 := PeerOf(site, b, ip)];
  }

  function Asked(site: Site, sid: Id, key: Key, ip: nat): (p: R.Peer)
  {
    AsPeer(sid, PeerOf(site, key, ip))
  }

  lemma AskedIsGood(site: Site, sid: Id, key: Key, ip: nat)
    requires site.Valid() && LowestFree(site) == Some(ip) && |key| >= 40
    ensures var host := Host(IpAddress(V4, ip));
            && ValidNetwork(host) && Asked(site, sid, key, ip) == R.Peer(key, [R.Block(host)], sid, EXPIRY)
            && ContainsNetwork(site.Range().value, host) && R.Acceptable(Asked(site, sid, key, ip), 0)
  {
    FirstFreeIsFirst(Bounds(site.cidr).0, Bounds(site.cidr).1, {});
    BoundsContain(site.cidr, ip);
    var a := IpAddress(V4, ip);
    InsideIsValid(site.cidr, a);
    ContainsThrough(site.Range().value, site.cidr, a);
    HostContained(site.Range().value, a);
  }

  /** Session 1 comes, is applied, and goes. */
  lemma FirstLife(site: Site, a: Key, ip: nat) returns (run: seq<State>)
    requires site.Valid() && LowestFree(site) == Some(ip) && |a| >= 40 && site.isKey(a)
    requires ValidNetwork(Host(IpAddress(V4, ip)))
    ensures IsRun(site, run)
    ensures var e := run[|run| - 1];
            && FirstRevoked(site, e, a, ip) && e.wire == R.Interface({a}, map[Host(IpAddress(V4, ip)) := a]) && a in e.written
            && e.lastVersion == Version(site, e) - 1
  {
    hide R.Exec1;
    AskedIsGood(site, 1, a, ip);
    run := Starts(site);
    run := MakesFirst(site, run, a, ip);
    OneSelected(site, run[|run| - 1], 1);
    run := FirstApply(site, run, Asked(site, 1, a, ip), Host(IpAddress(V4, ip)));
    run := RevokesFirst(site, run, a, ip);
  }

  /** Session 2 gets its address, and the apply for it is cut. */
  lemma SecondLife(site: Site, run: seq<State>, a: Key, b: Key, ip: nat) returns (longer: seq<State>)
    requires site.Valid() && LowestFree(site) == Some(ip) && a != b && |b| >= 40 && site.isKey(b)
    requires ValidNetwork(Host(IpAddress(V4, ip))) && IsRun(site, run)
    requires var s := run[|run| - 1];
             && FirstRevoked(site, s, a, ip) && s.wire == R.Interface({a}, map[Host(IpAddress(V4, ip)) := a]) && a in s.written
             && s.lastVersion == Version(site, s) - 1
    ensures IsRun(site, longer)
    ensures var e := longer[|longer| - 1];
            && SecondMade(site, e, a, b, ip) && e.wire == CutWireOf(a, b, Host(IpAddress(V4, ip))) && a in e.written
            && e.lastVersion == Version(site, e) - 2
  {
    hide R.Exec1;
    AskedIsGood(site, 2, b, ip);
    longer := MakesSecond(site, run, a, b, ip);
    OneSelected(site, longer[|longer| - 1], 2);
    longer := CutApply(site, longer, a, Asked(site, 2, b, ip), Host(IpAddress(V4, ip)));
  }

  /** The apply after that makes the gateway current. */
  lemma LastApply(site: Site, run: seq<State>, a: Key, b: Key, ip: nat) returns (longer: seq<State>)
    requires site.Valid() && LowestFree(site) == Some(ip) && a != b && |b| >= 40
    requires ValidNetwork(Host(IpAddress(V4, ip))) && IsRun(site, run)
    requires var s := run[|run| - 1];
             && SecondMade(site, s, a, b, ip) && s.wire == CutWireOf(a, b, Host(IpAddress(V4, ip))) && a in s.written
             && s.lastVersion == Version(site, s) - 2
    ensures IsRun(site, longer)
    ensures var e := longer[|longer| - 1];
            && SecondMade(site, e, a, b, ip) && e.wire == CutWireOf(a, b, Host(IpAddress(V4, ip))) && a in e.written
            && e.lastVersion == Version(site, e)
  {
    hide R.Exec1;
    AskedIsGood(site, 2, b, ip);
    OneSelected(site, run[|run| - 1], 2);
    longer := NextApply(site, run, a, Asked(site, 2, b, ip), Host(IpAddress(V4, ip)));
  }

  /** The removal half of a fence cannot be had in full: for every site with an
      address to give and any two keys `wg` takes, there is a run at whose end the
      gateway is at the current version and still carries a key whose only session
      was revoked to the end. It carries it without addresses. */
  lemma RevokedKeyMayStay(site: Site, a: Key, b: Key, ip: nat) returns (run: seq<State>)
    requires site.Valid() && LowestFree(site) == Some(ip)
    requires a != b && |a| >= 40 && |b| >= 40 && site.isKey(a) && site.isKey(b)
    ensures IsRun(site, run)
    ensures var e := run[|run| - 1];
            && e.lastVersion == Version(site, e) && a in e.written && a in e.wire.peers && R.Owned(e.wire, a) == {}
            && e.tasks == map[] && e.keys == map[1 := a, 2 := b] && 1 in e.db.sessions && e.db.sessions[1].status == Revoked
  {
    hide Version, R.Exec1, FirstRevoked;
    AskedIsGood(site, 1, a, ip);
    run := FirstLife(site, a, ip);
    run := SecondLife(site, run, a, b, ip);
    run := LastApply(site, run, a, b, ip);
    R.CutWire(a, b, Host(IpAddress(V4, ip)));
  }
}
