/** Sessions are created and revoked statement by statement while one gateway
    reads its configuration and applies it, command by command. Any statement may
    come between any two others; applies may fail part-way. The version read first
    and bumped last is what keeps the interface from believing it is current when
    it is not. */
module Fence {
  import opened Text
  import opened Cidr
  import opened Tables
  import R = Reconcile

  /** The gateway that is followed, the one network it serves, its settings, and
      what its `wg` takes for a key. */
  datatype Site = Site(gateway: Id, network: Id, cidr: Net, settings: R.Settings, isKey: Key -> bool)
  {
    function Range(): (range: Option<Net>) {
      settings.Managed(Some(cidr))
    }

    /** It manages its interface, and the range it manages covers the network. */
    predicate Valid() {
      cidr.family == V4 && settings.manageInterface && !(settings.adoptExisting && settings.privateKey)
      && Range().Some? && ContainsNetwork(Range().value, cidr)
    }
  }

  datatype CreateStage = Inserted | Given(ip: nat) | Assigned(ip: nat) | PeerWritten

  datatype RevokeStage = Marked | PeerGone | AddressFree

  /** An operation in flight, with what it has read so far. */
  datatype Task =
    | Creating(sid: Id, gateway: Id, network: Id, device: Id, key: Key, expiresAt: int, create: CreateStage)
    | Revoking(sid: Id, revoke: RevokeStage)

  /** Where the gateway is between two heartbeats. */
  datatype Phase =
    | Idle
    | VersionRead(version: int)
    | SessionsExpired(version: int)
    | PeersDeleted(version: int)
    | Answered(config: R.GatewayConfig)
    | Applying(config: R.GatewayConfig, ran: seq<R.Command>, todo: seq<R.Command>)

  /** `keys`, `given`, `written`, `applied`, `selectedAt` and `cut` are history:
      the key each session was made with, the address its peer row was written with,
      the keys the gateway ever set, the peers of its last whole apply, when those
      were selected, and the keys an apply was cut on: without addresses, their own
      command still to come. */
  datatype State = State(db: Db, now: int, tasks: map<nat, Task>, phase: Phase, lastVersion: int, wire: R.Interface,
                         keys: map<Id, Key>, given: map<Id, nat>, written: set<Key>, applied: seq<R.Peer>, selectedAt: int,
                         cut: set<Key>)

  /** Seconds a configuration stays good for. */
  const LIFETIME := 300

  function Version(site: Site, s: State): (v: int)
  {
    if site.gateway in s.db.gateways then s.db.gateways[site.gateway].version else 0
  }

  // ---- The steps ----

  function AllowedOf(ip: nat): (allowed: seq<R.AllowedIp>)
  {
    var host := Host(IpAddress(V4, ip));
    if ValidNetwork(host) then [R.Block(host)] else [R.Garbage("")]
  }

  function AsPeer(sid: Id, row: PeerRow): (p: R.Peer)
  {
    R.Peer(row.key, AllowedOf(row.ip), sid, row.expiresAt)
  }

  /** `peers` lists the rows `config` selects, in any order. */
  ghost predicate IsSelection(peers: seq<R.Peer>, site: Site, s: State)
  {
    && (forall p | p in peers ::
          Selected(s.db, site.gateway, s.now, p.session) && p == AsPeer(p.session, s.db.peers[p.session]))
    && (forall sid | Selected(s.db, site.gateway, s.now, sid) :: AsPeer(sid, s.db.peers[sid]) in peers)
  }

  /** The next statement of a `create`. */
  function AdvanceCreate(s: State, t: nat): (s': State)
    requires t in s.tasks && s.tasks[t].Creating?
  {
    var task := s.tasks[t];
    match task.create
    case Inserted =>
      (match Allocate(s.db, task.network, task.sid)
       case (db', Some(ip)) => s.(db := db', tasks := s.tasks[t := task.(create := Given(ip))])
       case (db', None) => s.(db := db', tasks := s.tasks - {t}))
    case Given(ip) =>
      s.(db := AssignIp(s.db, task.sid, ip), tasks := s.tasks[t := task.(create := Assigned(ip))])
    case Assigned(ip) =>
      s.(db := InsertPeer(s.db, task.sid, PeerRow(task.gateway, task.device, task.key, ip, task.expiresAt)),
         given := s.given[task.sid := ip], tasks := s.tasks[t := task.(create := PeerWritten)])
    case PeerWritten => s.(db := Bump(s.db, task.gateway), tasks := s.tasks - {t})
  }

  /** The next statement of a `revoke`. */
  function AdvanceRevoke(s: State, t: nat): (s': State)
    requires t in s.tasks && s.tasks[t].Revoking?
  {
    var task := s.tasks[t];
    match task.revoke
    case Marked => s.(db := DeletePeer(s.db, task.sid), tasks := s.tasks[t := task.(revoke := PeerGone)])
    case PeerGone => s.(db := Release(s.db, task.sid), tasks := s.tasks[t := task.(revoke := AddressFree)])
    case AddressFree => s.(db := BumpFor(s.db, task.sid), tasks := s.tasks - {t})
  }

  datatype Step =
    | Tick
    | StartCreate(task: nat, sid: Id, row: Session, key: Key)
    | ContinueCreate(task: nat)
    | StartRevoke(task: nat, sid: Id)
    | ContinueRevoke(task: nat)
    | ExpireFor(gateway: Id) | DeleteFor(gateway: Id)
    | Heartbeat | ExpireOwn | DeleteOwn | Select
    | Skip | BeginApply | RunCommand | FinishApply
    | Lose | Restart

  /** The control plane's steps. `ExpireFor` and `DeleteFor` are the statements of
      a `config` asked for by anyone else, or whose answer went nowhere. */
  ghost predicate ControlStep(site: Site, s: State, step: Step, s': State)
  {
    match step
    case Tick => s'.now >= s.now && s' == s.(now := s'.now)
    case StartCreate(t, sid, row, key) =>
      && t !in s.tasks && sid !in s.db.sessions && |key| >= 40
      && row.status == Active && row.ip == 0 && row.network in s.db.networks
      && (row.gateway == site.gateway ==> row.network == site.network)
      && s' == s.(db := InsertSession(s.db, sid, row), keys := s.keys[sid := key],
                  tasks := s.tasks[t := Creating(sid, row.gateway, row.network, row.device, key, row.expiresAt, Inserted)])
    case ContinueCreate(t) => t in s.tasks && s.tasks[t].Creating? && s' == AdvanceCreate(s, t)
    case StartRevoke(t, sid) =>
      t !in s.tasks && CanRevoke(s.db, sid) && s' == s.(db := MarkRevoked(s.db, sid), tasks := s.tasks[t := Revoking(sid, Marked)])
    case ContinueRevoke(t) => t in s.tasks && s.tasks[t].Revoking? && s' == AdvanceRevoke(s, t)
    case ExpireFor(gateway) => s' == s.(db := ExpireSessions(s.db, gateway, s.now))
    case DeleteFor(gateway) => s' == s.(db := DeleteExpired(s.db, gateway, s.now))
    case _ => false
  }

  /** Whether some command is for the key. */
  predicate Pending(todo: seq<R.Command>, k: Key)
  {
    exists c | c in todo :: c.key == k
  }

  /** The keys an apply is cut on when it ends here. */
  function CutAt(s: State): (keys: set<Key>)
  {
    s.cut + if s.phase.Applying?
            then set k | k in s.written && k in s.wire.peers && R.Owned(s.wire, k) == {} && Pending(s.phase.todo, k)
            else {}
  }

  ghost predicate Selects(site: Site, s: State, s': State)
  {
    && s.phase.PeersDeleted? && s'.phase.Answered? && s'.phase.config.version == s.phase.version
    && s'.phase.config.expiresAt == s.now + LIFETIME && s'.phase.config.cidr == Some(site.cidr)
    && IsSelection(s'.phase.config.peers, site, s) && s' == s.(phase := s'.phase)
  }

  ghost predicate Begins(site: Site, s: State, s': State)
  {
    && s.phase.Answered?
    && var c := s.phase.config;
       && c.version != s.lastVersion && s.now <= c.expiresAt && c.listenPort != 0
       && (forall p | p in c.peers :: R.Acceptable(p, s.now))
       && exists live :: R.IsDump(live, s.wire) && s' == s.(phase := Applying(c, [], Planned(site, c, live)))
  }

  function Planned(site: Site, c: R.GatewayConfig, live: seq<R.LivePeer>): (cs: seq<R.Command>)
  {
    R.Commands(R.PlanOf(c.peers, live, site.settings.Managed(c.cidr)))
  }

  /** The next command, which `wg` must accept to run. */
  predicate RunsNext(site: Site, s: State, s': State)
  {
    && s.phase.Applying? && s.phase.todo != [] && R.Accepts(site.isKey, s.phase.todo[0])
    && var c := s.phase.todo[0];
       s' == s.(wire := R.Exec1(s.wire, c), phase := Applying(s.phase.config, s.phase.ran + [c], s.phase.todo[1..]),
                written := if c.SetPeer? then s.written + {c.key} else s.written, cut := s.cut - {c.key})
  }

  predicate Finishes(s: State, s': State)
  {
    && s.phase.Applying? && s.phase.todo == []
    && s' == s.(lastVersion := s.phase.config.version, applied := s.phase.config.peers,
                selectedAt := s.phase.config.expiresAt - LIFETIME, phase := Idle)
  }

  /** The gateway's steps. `Lose` is any failure: no answer, a refused
      configuration, a command that failed. */
  ghost predicate GatewayStep(site: Site, s: State, step: Step, s': State)
  {
    match step
    case Heartbeat => s.phase == Idle && s' == s.(phase := VersionRead(Version(site, s)))
    case ExpireOwn =>
      s.phase.VersionRead?
      && s' == s.(db := ExpireSessions(s.db, site.gateway, s.now), phase := SessionsExpired(s.phase.version))
    case DeleteOwn =>
      s.phase.SessionsExpired?
      && s' == s.(db := DeleteExpired(s.db, site.gateway, s.now), phase := PeersDeleted(s.phase.version))
    case Select => Selects(site, s, s')
    case Skip => s.phase.Answered? && s.phase.config.version == s.lastVersion && s' == s.(phase := Idle)
    case BeginApply => Begins(site, s, s')
    case RunCommand => RunsNext(site, s, s')
    case FinishApply => Finishes(s, s')
    case Lose => s' == s.(phase := Idle, cut := CutAt(s))
    case Restart => s' == s.(phase := Idle, cut := CutAt(s), lastVersion := -1)
    case _ => false
  }

  ghost predicate Next(site: Site, s: State, s': State)
  {
    exists step: Step :: ControlStep(site, s, step, s') || GatewayStep(site, s, step, s')
  }

  /** No sessions yet; the interface may carry any peers `wg` could give it. */
  ghost predicate Init(site: Site, s: State)
  {
    && site.gateway in s.db.gateways && site.network in s.db.networks && s.db.networks[site.network] == site.cidr
    && (forall n | n in s.db.networks :: s.db.networks[n].family == V4)
    && s.db.sessions == map[] && s.db.peers == map[] && s.tasks == map[] && s.keys == map[]
    && s.given == map[] && s.phase == Idle && s.lastVersion == -1 && s.written == {} && s.applied == [] && s.cut == {}
    && s.wire.Valid(site.isKey)
  }

  ghost predicate IsRun(site: Site, run: seq<State>)
  {
    && run != [] && Init(site, run[0])
    && forall i | 0 <= i < |run| - 1 :: Next(site, run[i], run[i + 1])
  }

  // ---- What is in flight ----

  ghost predicate Makes(s: State, t: nat, sid: Id)
  {
    t in s.tasks && s.tasks[t].Creating? && s.tasks[t].sid == sid
  }

  ghost predicate Revokes(s: State, t: nat, sid: Id)
  {
    t in s.tasks && s.tasks[t].Revoking? && s.tasks[t].sid == sid
  }

  ghost predicate BeingCreated(s: State, sid: Id)
  {
    exists t :: Makes(s, t, sid)
  }

  ghost predicate BeingRevoked(s: State, sid: Id)
  {
    exists t :: Revokes(s, t, sid)
  }

  /** A session of this gateway whose key the interface ought to have now. */
  predicate LiveRow(site: Site, s: State, sid: Id)
  {
    Selected(s.db, site.gateway, s.now, sid)
  }

  predicate RanOut(s: State, sid: Id)
  {
    sid in s.db.sessions && s.db.sessions[sid].status != Revoked && s.db.sessions[sid].expiresAt <= s.now
  }

  /** Why a selected peer may still be there: it is live, it ran out since, or it
      is being revoked right now. */
  ghost predicate Accounted(site: Site, s: State, sid: Id)
  {
    && sid in s.db.sessions && s.db.sessions[sid].gateway == site.gateway
    && (LiveRow(site, s, sid) || RanOut(s, sid) || BeingRevoked(s, sid))
  }

  /** `peers` is what a configuration built now would hold, up to operations in
      flight and peers running out. */
  ghost predicate UpToDate(site: Site, s: State, peers: seq<R.Peer>)
  {
    && (forall sid | LiveRow(site, s, sid) && !BeingCreated(s, sid) :: exists p | p in peers :: p.session == sid)
    && (forall p | p in peers :: Accounted(site, s, p.session))
  }

  // ---- The invariant ----

  predicate Issued(site: Site, ip: nat)
  {
    Contains(site.cidr, IpAddress(V4, ip))
  }

  predicate HoldsAddress(s: State, network: Id, ip: nat, sid: Id)
  {
    (network, ip) in s.db.allocations && s.db.allocations[(network, ip)] == Some(sid)
  }

  predicate IsActive(s: State, sid: Id)
  {
    sid in s.db.sessions && s.db.sessions[sid].status == Active
  }

  /** A selected peer asks for the one address its session was given, under its
      session's key. */
  predicate GoodPeer(site: Site, s: State, p: R.Peer)
  {
    && p.session in s.keys && p.key == s.keys[p.session]
    && p.session in s.db.sessions && p.expiresAt == s.db.sessions[p.session].expiresAt
    && p.session in s.given && Issued(site, s.given[p.session]) && p.allowed == AllowedOf(s.given[p.session])
  }

  predicate GoodRow(site: Site, s: State, sid: Id)
    requires sid in s.db.peers
  {
    var row := s.db.peers[sid];
    && sid in s.db.sessions && sid in s.keys && row.key == s.keys[sid] && sid in s.given && row.ip == s.given[sid]
    && row.gateway == s.db.sessions[sid].gateway && row.expiresAt == s.db.sessions[sid].expiresAt
    && (row.gateway == site.gateway ==> Issued(site, row.ip) && (IsActive(s, sid) ==> HoldsAddress(s, site.network, row.ip, sid)))
  }

  predicate GoodTask(site: Site, s: State, task: Task)
  {
    task.sid in s.db.sessions
    && (task.Creating? ==>
          && task.sid in s.keys && s.keys[task.sid] == task.key && task.network in s.db.networks
          && task.gateway == s.db.sessions[task.sid].gateway && task.expiresAt == s.db.sessions[task.sid].expiresAt
          && (task.gateway == site.gateway ==> task.network == site.network)
          && (!task.create.PeerWritten? ==> task.sid !in s.db.peers && task.sid !in s.given)
          && (task.create.Given? || task.create.Assigned? ==>
                && Contains(s.db.networks[task.network], IpAddress(V4, task.create.ip))
                && (IsActive(s, task.sid) ==> HoldsAddress(s, task.network, task.create.ip, task.sid))))
    && (task.Revoking? ==> s.db.sessions[task.sid].status == Revoked)
  }

  predicate GoodTables(site: Site, s: State)
  {
    && site.gateway in s.db.gateways && site.network in s.db.networks && s.db.networks[site.network] == site.cidr
    && (forall n | n in s.db.networks :: s.db.networks[n].family == V4)
    && (forall sid | sid in s.keys :: sid in s.db.sessions && s.keys[sid] != "")
    && (forall sid | sid in s.given :: sid in s.keys)
    && (forall sid | sid in s.db.peers :: GoodRow(site, s, sid))
    && (forall t | t in s.tasks :: GoodTask(site, s, s.tasks[t]))
    && (forall t, u | t in s.tasks && u in s.tasks && t != u && s.tasks[t].Creating? && s.tasks[u].Creating? ::
          s.tasks[t].sid != s.tasks[u].sid)
  }

  /** The interface agrees with `peers` on everything managed: each desired key
      holds just what a desired peer with it asks for. */
  ghost predicate WireHolds(site: Site, wire: R.Interface, peers: seq<R.Peer>)
  {
    && (forall k | k in R.Keys(peers) ::
          k in wire.peers && exists q | q in peers :: q.key == k && R.Owned(wire, k) == R.Blocks(q.allowed))
    && (forall k | k in wire.peers && R.OwnsManaged(wire, k, site.Range()) :: k in R.Keys(peers))
  }

  ghost predicate GoodConfig(site: Site, s: State, c: R.GatewayConfig)
  {
    && s.lastVersion <= c.version <= Version(site, s) && c.cidr == Some(site.cidr) && R.Exclusive(c.peers)
    && (forall p | p in c.peers :: GoodPeer(site, s, p) && p.expiresAt > c.expiresAt - LIFETIME)
    && (c.version == Version(site, s) ==> UpToDate(site, s, c.peers))
  }

  predicate SetsFirst(cs: seq<R.Command>)
  {
    forall i, j | 0 <= i < j < |cs| && cs[i].RemovePeer? :: cs[j].RemovePeer?
  }

  /** A written key without addresses that no cut apply left so. */
  predicate Bare(s: State, k: Key)
  {
    k in s.written && k in s.wire.peers && R.Owned(s.wire, k) == {} && k !in s.cut
  }

  /** Whether a command for another key has run. */
  predicate TakenFrom(ran: seq<R.Command>, k: Key)
  {
    exists c | c in ran :: c.SetPeer? && c.key != k
  }

  /** Part-way through a plan: where its commands come from, and that what they
      take from a key, they take before the key's own. */
  ghost predicate GoodApply(site: Site, s: State, peers: seq<R.Peer>, ran: seq<R.Command>, todo: seq<R.Command>)
  {
    && WireHolds(site, R.Exec(s.wire, todo), peers)
    && SetsFirst(ran + todo)
    && (forall c | c in todo && c.SetPeer? :: exists p | p in peers :: c == R.SetPeer(p.key, p.allowed))
    && (forall p | p in peers && !site.isKey(p.key) :: Pending(todo, p.key))
    && (forall c | c in todo && c.RemovePeer? :: site.isKey(c.key))
    && (forall k | Bare(s, k) :: Pending(todo, k) && TakenFrom(ran, k))
    && (forall k, c | k in s.written && k in s.wire.peers && !Pending(todo, k) && c in todo && c.SetPeer? ::
          R.Blocks(c.allowed) !! R.Owned(s.wire, k))
  }

  ghost predicate GoodPhase(site: Site, s: State)
  {
    match s.phase
    case Idle => true
    case VersionRead(v) => s.lastVersion <= v <= Version(site, s)
    case SessionsExpired(v) => s.lastVersion <= v <= Version(site, s)
    case PeersDeleted(v) => s.lastVersion <= v <= Version(site, s)
    case Answered(c) => GoodConfig(site, s, c)
    case Applying(c, ran, todo) => GoodConfig(site, s, c) && c.version != s.lastVersion && GoodApply(site, s, c.peers, ran, todo)
  }

  /** What holds of the interface whatever the phase. */
  ghost predicate GoodWire(site: Site, s: State)
  {
    && s.wire.Valid(site.isKey)
    && (forall k, b | k in s.written && b in R.Owned(s.wire, k) :: ContainsNetwork(site.Range().value, b))
    && (forall k | k in s.cut :: k in s.written && k in s.wire.peers && R.Owned(s.wire, k) == {})
    && (!s.phase.Applying? ==> forall k :: !Bare(s, k))
  }

  ghost predicate GoodApplied(site: Site, s: State)
  {
    && (forall p | p in s.applied :: GoodPeer(site, s, p) && p.expiresAt > s.selectedAt)
    && (s.lastVersion == Version(site, s) ==> UpToDate(site, s, s.applied) && WireHolds(site, s.wire, s.applied))
  }

  ghost predicate Inv(site: Site, s: State)
  {
    site.Range().Some? && GoodTables(site, s) && s.lastVersion <= Version(site, s) && GoodPhase(site, s) && GoodWire(site, s)
    && GoodApplied(site, s)
  }

  lemma InitInv(site: Site, s: State)
    requires site.Valid() && Init(site, s)
    ensures Inv(site, s)
  {
  }

  // ---- Steps of the control plane keep it ----

  /** What a statement may do to one session, short of a bump, without a snapshot
      going stale. */
  ghost predicate Faithful(site: Site, s: State, s': State)
  {
    && (forall sid | LiveRow(site, s', sid) && !BeingCreated(s', sid) :: LiveRow(site, s, sid) && !BeingCreated(s, sid))
    && (forall sid | Accounted(site, s, sid) :: Accounted(site, s', sid))
  }

  /** No snapshot of the current version goes stale. */
  ghost predicate Fenced(site: Site, s: State, s': State)
  {
    Version(site, s') > Version(site, s) || (Version(site, s') == Version(site, s) && Faithful(site, s, s'))
  }

  /** What never changes about a session once it is there. */
  ghost predicate HistoryKept(s: State, s': State)
  {
    && (forall sid | sid in s.db.sessions :: sid in s'.db.sessions && s'.db.sessions[sid].expiresAt == s.db.sessions[sid].expiresAt)
    && (forall sid | sid in s.keys :: sid in s'.keys && s'.keys[sid] == s.keys[sid])
    && (forall sid | sid in s.given :: sid in s'.given && s'.given[sid] == s.given[sid])
  }

  /** Nothing of the gateway's changes. */
  ghost predicate SameGateway(s: State, s': State)
  {
    && s'.phase == s.phase && s'.lastVersion == s.lastVersion && s'.wire == s.wire && s'.written == s.written
    && s'.applied == s.applied && s'.selectedAt == s.selectedAt && s'.cut == s.cut
  }

  lemma FaithfulKeeps(site: Site, s: State, s': State)
    requires Inv(site, s) && GoodTables(site, s') && SameGateway(s, s') && HistoryKept(s, s')
    requires Fenced(site, s, s')
    ensures Inv(site, s')
  {
    assert forall p | GoodPeer(site, s, p) :: GoodPeer(site, s', p);
    assert forall k :: Bare(s', k) == Bare(s, k);
    if Version(site, s') == Version(site, s) {
      forall peers | UpToDate(site, s, peers) ensures UpToDate(site, s', peers) {
      }
    }
  }

  /** Replacing task `t`, or starting or ending it, leaves what the other tasks
      are doing. */
  ghost predicate OthersKept(s: State, s': State, t: nat)
  {
    forall u | u != t :: (u in s.tasks <==> u in s'.tasks) && (u in s.tasks ==> s'.tasks[u] == s.tasks[u])
  }

  lemma FlightsKept(s: State, s': State, t: nat)
    requires OthersKept(s, s', t)
    ensures forall sid | Makes(s, t, sid) == Makes(s', t, sid) :: BeingCreated(s, sid) == BeingCreated(s', sid)
    ensures forall sid | Revokes(s, t, sid) == Revokes(s', t, sid) :: BeingRevoked(s, sid) == BeingRevoked(s', sid)
  {
    forall sid | Makes(s, t, sid) == Makes(s', t, sid) ensures BeingCreated(s, sid) == BeingCreated(s', sid) {
      assert forall u :: Makes(s, u, sid) == Makes(s', u, sid);
    }
    forall sid | Revokes(s, t, sid) == Revokes(s', t, sid) ensures BeingRevoked(s, sid) == BeingRevoked(s', sid) {
      assert forall u :: Revokes(s, u, sid) == Revokes(s', u, sid);
    }
  }

  /** No active session loses an address it holds, and none becomes active. */
  ghost predicate AddressesKept(s: State, s': State)
  {
    && (forall sid | IsActive(s', sid) :: IsActive(s, sid))
    && forall n, ip, sid | HoldsAddress(s, n, ip, sid) && IsActive(s', sid) :: HoldsAddress(s', n, ip, sid)
  }

  /** Rows and other tasks stay good when no peer row and no session's gateway or
      expiry changes. */
  lemma TablesKept(site: Site, s: State, s': State, t: nat)
    requires GoodTables(site, s) && OthersKept(s, s', t)
    requires s'.db.networks == s.db.networks && s'.db.gateways.Keys == s.db.gateways.Keys
    requires s'.keys == s.keys && s'.given == s.given && AddressesKept(s, s') && s'.db.peers.Keys <= s.db.peers.Keys
    requires forall sid | sid in s'.db.peers :: s'.db.peers[sid] == s.db.peers[sid]
    requires s'.db.sessions.Keys == s.db.sessions.Keys
    requires forall sid | sid in s.db.sessions ::
               && s'.db.sessions[sid].gateway == s.db.sessions[sid].gateway
               && s'.db.sessions[sid].expiresAt == s.db.sessions[sid].expiresAt
               && (s.db.sessions[sid].status == Revoked ==> s'.db.sessions[sid].status == Revoked)
    requires t in s'.tasks ==> GoodTask(site, s', s'.tasks[t])
    requires t in s'.tasks && s'.tasks[t].Creating? ==> t in s.tasks && s.tasks[t].Creating? && s.tasks[t].sid == s'.tasks[t].sid
    ensures GoodTables(site, s')
  {
    forall sid | sid in s'.db.peers ensures GoodRow(site, s', sid) {
      assert GoodRow(site, s, sid);
    }
    forall u | u in s'.tasks ensures GoodTask(site, s', s'.tasks[u]) {
      if u != t {
        assert GoodTask(site, s, s.tasks[u]);
      }
    }
  }

  lemma TickFenced(site: Site, s: State, s': State)
    requires GoodTables(site, s) && ControlStep(site, s, Tick, s')
    ensures GoodTables(site, s') && Fenced(site, s, s')
  {
    FlightsKept(s, s', 0);
    TablesKept(site, s, s', 0);
    forall sid | Accounted(site, s, sid) ensures Accounted(site, s', sid) {
      if LiveRow(site, s, sid) && !LiveRow(site, s', sid) {
        assert GoodRow(site, s, sid);
      }
    }
  }

  /** Nothing knows a session before its row is there. */
  lemma StartCreateNew(site: Site, s: State, sid: Id)
    requires GoodTables(site, s) && sid !in s.db.sessions
    ensures sid !in s.db.peers && sid !in s.keys && sid !in s.given && forall u | u in s.tasks :: s.tasks[u].sid != sid
  {
    assert sid in s.db.peers ==> GoodRow(site, s, sid);
    forall u | u in s.tasks ensures s.tasks[u].sid != sid {
      assert GoodTask(site, s, s.tasks[u]);
    }
  }

  lemma StartCreateRow(site: Site, s: State, t: nat, sid: Id, row: Session, key: Key, s': State, x: Id)
    requires GoodTables(site, s) && ControlStep(site, s, StartCreate(t, sid, row, key), s') && x in s'.db.peers
    ensures GoodRow(site, s', x)
  {
    assert GoodRow(site, s, x);
  }

  lemma StartCreateTask(site: Site, s: State, t: nat, sid: Id, row: Session, key: Key, s': State, u: nat)
    requires GoodTables(site, s) && ControlStep(site, s, StartCreate(t, sid, row, key), s') && u in s'.tasks
    ensures GoodTask(site, s', s'.tasks[u])
  {
    StartCreateNew(site, s, sid);
    if u != t {
      assert GoodTask(site, s, s.tasks[u]);
    }
  }

  lemma StartCreateTables(site: Site, s: State, t: nat, sid: Id, row: Session, key: Key, s': State)
    requires GoodTables(site, s) && ControlStep(site, s, StartCreate(t, sid, row, key), s')
    ensures GoodTables(site, s') && sid !in s.db.peers && sid !in s.keys
  {
    hide GoodRow, GoodTask;
    StartCreateNew(site, s, sid);
    forall x | x in s'.db.peers ensures GoodRow(site, s', x) {
      StartCreateRow(site, s, t, sid, row, key, s', x);
    }
    forall u | u in s'.tasks ensures GoodTask(site, s', s'.tasks[u]) {
      StartCreateTask(site, s, t, sid, row, key, s', u);
    }
  }

  lemma StartCreateFenced(site: Site, s: State, t: nat, sid: Id, row: Session, key: Key, s': State)
    requires sid !in s.db.peers && ControlStep(site, s, StartCreate(t, sid, row, key), s')
    ensures Fenced(site, s, s')
  {
    FlightsKept(s, s', t);
  }

  lemma CreateTables(site: Site, s: State, t: nat, s': State)
    requires GoodTables(site, s) && ControlStep(site, s, ContinueCreate(t), s') && !s.tasks[t].create.Assigned?
    ensures GoodTables(site, s')
  {
    hide Allocate, Bump;
    var task := s.tasks[t];
    assert GoodTask(site, s, task);
    match task.create
    case Inserted => AllocateTables(site, s, t, s');
    case Given(ip) => TablesKept(site, s, s', t);
    case PeerWritten => BumpTables(site, s, t, s');
  }

  lemma AllocateTables(site: Site, s: State, t: nat, s': State)
    requires GoodTables(site, s) && t in s.tasks && s.tasks[t].Creating? && s.tasks[t].create.Inserted? && s' == AdvanceCreate(s, t)
    ensures GoodTables(site, s')
  {
    var task := s.tasks[t];
    assert GoodTask(site, s, task);
    AllocateExactly(s.db, task.network, task.sid);
    TablesKept(site, s, s', t);
  }

  lemma BumpTables(site: Site, s: State, t: nat, s': State)
    requires GoodTables(site, s) && t in s.tasks && s.tasks[t].Creating?
    requires s' == s.(db := Bump(s.db, s.tasks[t].gateway), tasks := s.tasks - {t})
    ensures GoodTables(site, s')
  {
    TablesKept(site, s, s', t);
  }

  lemma PeerStepTables(site: Site, s: State, t: nat, s': State)
    requires GoodTables(site, s) && ControlStep(site, s, ContinueCreate(t), s') && s.tasks[t].create.Assigned?
    ensures GoodTables(site, s')
  {
    var task := s.tasks[t];
    assert GoodTask(site, s, task);
    forall x | x in s'.db.peers ensures GoodRow(site, s', x) {
      assert x != task.sid ==> GoodRow(site, s, x);
    }
    forall u | u in s'.tasks ensures GoodTask(site, s', s'.tasks[u]) {
      assert GoodTask(site, s, s.tasks[u]);
    }
  }

  /** Until its bump, a creation changes only rows of its own session. */
  lemma CreateFenced(site: Site, s: State, t: nat, s': State)
    requires ControlStep(site, s, ContinueCreate(t), s') && !s.tasks[t].create.PeerWritten? && GoodTask(site, s, s.tasks[t])
    ensures Fenced(site, s, s')
  {
    match s.tasks[t].create
    case Inserted => AllocateFenced(site, s, t, s');
    case _ => WriteFenced(site, s, t, s');
  }

  lemma AllocateFenced(site: Site, s: State, t: nat, s': State)
    requires t in s.tasks && s.tasks[t].Creating? && s.tasks[t].create.Inserted? && GoodTask(site, s, s.tasks[t])
    requires s' == AdvanceCreate(s, t)
    ensures Fenced(site, s, s')
  {
    var task := s.tasks[t];
    assert Allocate(s.db, task.network, task.sid).0 == s.db.(allocations := Allocate(s.db, task.network, task.sid).0.allocations);
    FlightsKept(s, s', t);
    assert Makes(s, t, task.sid) && !LiveRow(site, s', task.sid);
  }

  lemma WriteFenced(site: Site, s: State, t: nat, s': State)
    requires t in s.tasks && s.tasks[t].Creating? && (s.tasks[t].create.Given? || s.tasks[t].create.Assigned?)
    requires s' == AdvanceCreate(s, t) && GoodTask(site, s, s.tasks[t])
    ensures Fenced(site, s, s')
  {
    FlightsKept(s, s', t);
    assert Makes(s, t, s.tasks[t].sid) && Makes(s', t, s.tasks[t].sid);
  }

  lemma BumpFenced(site: Site, s: State, t: nat, s': State)
    requires GoodTables(site, s) && ControlStep(site, s, ContinueCreate(t), s') && s.tasks[t].create.PeerWritten?
    ensures Fenced(site, s, s')
  {
    var task := s.tasks[t];
    assert GoodTask(site, s, task);
    if task.gateway == site.gateway {
      assert Version(site, s') == Version(site, s) + 1;
    } else {
      BumpElsewhere(site, s, t, s');
    }
  }

  lemma BumpElsewhere(site: Site, s: State, t: nat, s': State)
    requires GoodTables(site, s) && t in s.tasks && s.tasks[t].Creating? && s.tasks[t].gateway != site.gateway
    requires s' == s.(db := Bump(s.db, s.tasks[t].gateway), tasks := s.tasks - {t})
    ensures Fenced(site, s, s')
  {
    var sid := s.tasks[t].sid;
    assert GoodTask(site, s, s.tasks[t]);
    FlightsKept(s, s', t);
    assert sid in s.db.peers ==> GoodRow(site, s, sid);
    assert !LiveRow(site, s, sid);
  }

  lemma StartRevokeFenced(site: Site, s: State, t: nat, sid: Id, s': State)
    requires ControlStep(site, s, StartRevoke(t, sid), s')
    ensures Fenced(site, s, s')
  {
    FlightsKept(s, s', t);
    assert Revokes(s', t, sid) && BeingRevoked(s', sid);
  }

  lemma RevokeTables(site: Site, s: State, t: nat, s': State)
    requires GoodTables(site, s) && ControlStep(site, s, ContinueRevoke(t), s') && !s.tasks[t].revoke.AddressFree?
    ensures GoodTables(site, s')
  {
    if s.tasks[t].revoke.Marked? {
      TablesKept(site, s, s', t);
    } else {
      TablesKept(site, s, s', t);
    }
  }

  lemma RevokeBumpTables(site: Site, s: State, t: nat, s': State)
    requires GoodTables(site, s) && ControlStep(site, s, ContinueRevoke(t), s') && s.tasks[t].revoke.AddressFree?
    ensures GoodTables(site, s')
  {
    hide GoodRow, GoodTask;
    TablesKept(site, s, s', t);
  }

  /** Until its bump, a session being revoked stays accounted for. */
  lemma RevokeFenced(site: Site, s: State, t: nat, s': State)
    requires ControlStep(site, s, ContinueRevoke(t), s') && !s.tasks[t].revoke.AddressFree?
    ensures Fenced(site, s, s')
  {
    FlightsKept(s, s', t);
    assert Revokes(s', t, s.tasks[t].sid) && BeingRevoked(s', s.tasks[t].sid);
  }

  lemma RevokeBumpFenced(site: Site, s: State, t: nat, s': State)
    requires GoodTables(site, s) && ControlStep(site, s, ContinueRevoke(t), s') && s.tasks[t].revoke.AddressFree?
    ensures Fenced(site, s, s')
  {
    assert GoodTask(site, s, s.tasks[t]);
    if s.db.sessions[s.tasks[t].sid].gateway != site.gateway {
      FlightsKept(s, s', t);
    }
  }

  lemma ExpiryTables(site: Site, s: State, gateway: Id, s': State)
    requires GoodTables(site, s) && s'.tasks == s.tasks && s'.keys == s.keys && s'.given == s.given
    requires s'.db == ExpireSessions(s.db, gateway, s.now) || s'.db == DeleteExpired(s.db, gateway, s.now)
    ensures GoodTables(site, s')
  {
    if s'.db == ExpireSessions(s.db, gateway, s.now) {
      ExpireTables(site, s, gateway, s');
    } else {
      DeleteTables(site, s, gateway, s');
    }
  }

  lemma ExpireTables(site: Site, s: State, gateway: Id, s': State)
    requires GoodTables(site, s) && s'.tasks == s.tasks && s'.keys == s.keys && s'.given == s.given
    requires s'.db == ExpireSessions(s.db, gateway, s.now)
    ensures GoodTables(site, s')
  {
    assert forall t | t in s.tasks :: GoodTask(site, s, s.tasks[t]);
    TablesKept(site, s, s', 0);
  }

  lemma DeleteTables(site: Site, s: State, gateway: Id, s': State)
    requires GoodTables(site, s) && s'.tasks == s.tasks && s'.keys == s.keys && s'.given == s.given
    requires s'.db == DeleteExpired(s.db, gateway, s.now)
    ensures GoodTables(site, s')
  {
    assert forall t | t in s.tasks :: GoodTask(site, s, s.tasks[t]);
    TablesKept(site, s, s', 0);
  }

  /** Expiring and deleting for any gateway touches only what ran out. */
  lemma ExpiryFenced(site: Site, s: State, gateway: Id, s': State)
    requires GoodTables(site, s) && s'.now == s.now && s'.tasks == s.tasks && s'.keys == s.keys
    requires s'.db == ExpireSessions(s.db, gateway, s.now) || s'.db == DeleteExpired(s.db, gateway, s.now)
    ensures Version(site, s') == Version(site, s) && Faithful(site, s, s')
  {
    FlightsKept(s, s', 0);
    forall sid ensures LiveRow(site, s', sid) == LiveRow(site, s, sid) {
      assert sid in s.db.peers ==> GoodRow(site, s, sid);
    }
  }

  lemma ControlTables(site: Site, s: State, step: Step, s': State)
    requires GoodTables(site, s) && ControlStep(site, s, step, s')
    ensures GoodTables(site, s')
  {
    hide GoodTables;
    match step
    case Tick => TickFenced(site, s, s');
    case StartCreate(t, sid, row, key) => StartCreateTables(site, s, t, sid, row, key, s');
    case ContinueCreate(t) =>
      if s.tasks[t].create.Assigned? {
        PeerStepTables(site, s, t, s');
      } else {
        CreateTables(site, s, t, s');
      }
    case StartRevoke(t, sid) => TablesKept(site, s, s', t);
    case ContinueRevoke(t) =>
      if s.tasks[t].revoke.AddressFree? {
        RevokeBumpTables(site, s, t, s');
      } else {
        RevokeTables(site, s, t, s');
      }
    case ExpireFor(gateway) => ExpiryTables(site, s, gateway, s');
    case DeleteFor(gateway) => ExpiryTables(site, s, gateway, s');
    case _ =>
  }

  lemma ControlFenced(site: Site, s: State, step: Step, s': State)
    requires GoodTables(site, s) && ControlStep(site, s, step, s')
    ensures Fenced(site, s, s')
  {
    match step
    case Tick => TickFenced(site, s, s');
    case StartCreate(t, sid, row, key) =>
      StartCreateTables(site, s, t, sid, row, key, s');
      StartCreateFenced(site, s, t, sid, row, key, s');
    case ContinueCreate(t) =>
      if s.tasks[t].create.PeerWritten? {
        BumpFenced(site, s, t, s');
      } else {
        assert GoodTask(site, s, s.tasks[t]);
        CreateFenced(site, s, t, s');
      }
    case StartRevoke(t, sid) => StartRevokeFenced(site, s, t, sid, s');
    case ContinueRevoke(t) =>
      if s.tasks[t].revoke.AddressFree? {
        RevokeBumpFenced(site, s, t, s');
      } else {
        RevokeFenced(site, s, t, s');
      }
    case ExpireFor(gateway) => ExpiryFenced(site, s, gateway, s');
    case DeleteFor(gateway) => ExpiryFenced(site, s, gateway, s');
    case _ =>
  }

  lemma ControlFrame(site: Site, s: State, step: Step, s': State)
    requires ControlStep(site, s, step, s')
    ensures SameGateway(s, s')
  {
    hide Allocate, Bump, BumpFor, Release, DeletePeer, AssignIp, InsertPeer, ExpireSessions, DeleteExpired;
  }

  lemma CreateKeepsHistory(site: Site, s: State, t: nat, s': State)
    requires ControlStep(site, s, ContinueCreate(t), s') && GoodTask(site, s, s.tasks[t])
    ensures HistoryKept(s, s')
  {
    match s.tasks[t].create
    case Inserted =>
      var task := s.tasks[t];
      assert Allocate(s.db, task.network, task.sid).0.sessions == s.db.sessions;
      assert s'.db.sessions == s.db.sessions;
    case Given(_) =>
    case Assigned(_) => assert s'.db.sessions == s.db.sessions;
    case PeerWritten => assert s'.db.sessions == s.db.sessions;
  }

  lemma RevokeKeepsHistory(site: Site, s: State, t: nat, s': State)
    requires ControlStep(site, s, ContinueRevoke(t), s')
    ensures HistoryKept(s, s')
  {
    match s.tasks[t].revoke
    case Marked => assert s'.db.sessions == s.db.sessions;
    case PeerGone => assert s'.db.sessions == s.db.sessions;
    case AddressFree => assert s'.db.sessions == s.db.sessions;
  }

  lemma ControlKeepsHistory(site: Site, s: State, step: Step, s': State)
    requires GoodTables(site, s) && ControlStep(site, s, step, s')
    ensures HistoryKept(s, s')
  {
    match step
    case ContinueCreate(t) =>
      assert GoodTask(site, s, s.tasks[t]);
      CreateKeepsHistory(site, s, t, s');
    case ContinueRevoke(t) => RevokeKeepsHistory(site, s, t, s');
    case _ =>
  }

  lemma ControlKeeps(site: Site, s: State, step: Step, s': State)
    requires Inv(site, s) && ControlStep(site, s, step, s')
    ensures Inv(site, s')
  {
    ControlTables(site, s, step, s');
    ControlFenced(site, s, step, s');
    ControlFrame(site, s, step, s');
    ControlKeepsHistory(site, s, step, s');
    FaithfulKeeps(site, s, s');
  }
}
