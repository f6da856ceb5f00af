/** The control plane's operations over its tables: sessions, devices, users and
    addresses, each run to its end. */
module ControlPlane {
  import opened Text
  import opened Cidr
  import opened Tables

  datatype Error = Unauthorized | NotFound | Forbidden | BadRequest | Conflict

  // ---- What each operation leaves ----

  /** The request of `create`: the gateway is the one the heartbeat order picks
      for the network, if it has any, and the decision is the policy's: how long
      the session may last, or no. */
  datatype CreateRequest = CreateRequest(user: Id, device: Id, network: Id, gateway: Option<Id>, allowedFor: Option<int>, session: Id)

  /** Why a session is refused before anything is written. */
  function Refused(db: Db, r: CreateRequest): (e: Option<Error>)
  {
    if !(r.user in db.users && db.users[r.user]) then Some(Unauthorized)
    else if !(r.device in db.devices && db.devices[r.device].user == r.user) then Some(NotFound)
    else if db.devices[r.device].revoked then Some(Forbidden)
    else if r.network !in db.networks then Some(NotFound)
    else if !(r.gateway.Some? && r.gateway.value in db.gateways && db.gateways[r.gateway.value].network == Some(r.network))
    then Some(BadRequest)
    else if r.allowedFor.None? then Some(Forbidden)
    else if r.session in db.sessions then Some(Conflict)
    else None
  }

  function NewSession(r: CreateRequest, ip: nat, now: int): (row: Session)
    requires r.gateway.Some? && r.allowedFor.Some?
  {
    Session(r.user, r.device, r.gateway.value, r.network, ip, Active, now + r.allowedFor.value)
  }

  function NewPeer(db: Db, r: CreateRequest, ip: nat, now: int): (row: PeerRow)
    requires r.gateway.Some? && r.allowedFor.Some? && r.device in db.devices
  {
    PeerRow(r.gateway.value, r.device, db.devices[r.device].key, ip, now + r.allowedFor.value)
  }

  /** A session is written before its address is found, and stays when none is:
      active, at the placeholder, with no peer. */
  function Created(db: Db, r: CreateRequest, now: int): (res: (Db, Result<nat, Error>))
  {
    match Refused(db, r)
    case Some(e) => (db, Err(e))
    case None =>
      var inserted := InsertSession(db, r.session, NewSession(r, 0, now));
      match Allocate(inserted, r.network, r.session)
      case (_, None) => (inserted, Err(BadRequest))
      case (given, Some(ip)) =>
        (Bump(InsertPeer(AssignIp(given, r.session, ip), r.session, NewPeer(db, r, ip, now)), r.gateway.value), Ok(ip))
  }

  /** `revoke`: nothing at all unless the session is active. */
  function RevokedOne(db: Db, sid: Id): (db': Db)
  {
    if CanRevoke(db, sid) then BumpFor(Release(DeletePeer(MarkRevoked(db, sid), sid), sid), sid) else db
  }

  function OfGateway(db: Db, ids: set<Id>, g: Id): (s: set<Id>)
  {
    set s | s in ids && s in db.sessions && db.sessions[s].gateway == g
  }

  /** Several active sessions revoked, in any order. */
  function RevokedAll(db: Db, ids: set<Id>): (db': Db)
  {
    db.(sessions := map s | s in db.sessions :: if s in ids then db.sessions[s].(status := Revoked) else db.sessions[s],
        peers := db.peers - ids,
        allocations := map k | k in db.allocations && !(db.allocations[k].Some? && db.allocations[k].value in ids) :: db.allocations[k],
        gateways := map g | g in db.gateways :: db.gateways[g].(version := db.gateways[g].version + |OfGateway(db, ids, g)|))
  }

  function ActiveOfUser(db: Db, user: Id): (ids: set<Id>)
  {
    set s | s in db.sessions && db.sessions[s].user == user && db.sessions[s].status == Active
  }

  function ActiveOfDevice(db: Db, device: Id): (ids: set<Id>)
  {
    set s | s in db.sessions && db.sessions[s].device == device && db.sessions[s].status == Active
  }

  /** `UserService::update`, as far as it concerns access. */
  function UserUpdated(db: Db, user: Id, active: Option<bool>): (db': Db)
  {
    var db1 := if user in db.users && active.Some? then db.(users := db.users[user := active.value]) else db;
    if active == Some(false) then RevokedAll(db1, ActiveOfUser(db1, user)) else db1
  }

  /** The devices and sessions that go with a user's row. */
  function DevicesOf(db: Db, user: Id): (ids: set<Id>)
  {
    set d | d in db.devices && db.devices[d].user == user
  }

  function SessionsGone(db: Db, user: Id): (ids: set<Id>)
  {
    set s | s in db.sessions && (db.sessions[s].user == user || db.sessions[s].device in DevicesOf(db, user))
  }

  function PeersGone(db: Db, user: Id): (ids: set<Id>)
  {
    set s | s in db.peers && (s in SessionsGone(db, user) || db.peers[s].device in DevicesOf(db, user))
  }

  /** An address outlives the session it was given to. */
  function Orphaned(allocations: map<(Id, nat), Option<Id>>, gone: set<Id>): (allocations': map<(Id, nat), Option<Id>>)
  {
    map k | k in allocations :: if allocations[k].Some? && allocations[k].value in gone then None else allocations[k]
  }

  /** `DELETE FROM users`, with what the foreign keys take along. */
  function Cascaded(db: Db, user: Id): (db': Db)
  {
    db.(users := db.users - {user},
        devices := db.devices - DevicesOf(db, user),
        sessions := db.sessions - SessionsGone(db, user),
        peers := db.peers - PeersGone(db, user),
        allocations := Orphaned(db.allocations, SessionsGone(db, user)))
  }

  /** `UserService::delete`: the sessions are revoked before the row goes. */
  function UserDeleted(db: Db, user: Id): (db': Db)
  {
    Cascaded(RevokedAll(db, ActiveOfUser(db, user)), user)
  }

  /** `DeviceService::revoke`. */
  function DeviceRevoked(db: Db, device: Id): (db': Db)
  {
    if device !in db.devices then db
    else
      var db1 := db.(devices := db.devices[device := db.devices[device].(revoked := true)]);
      RevokedAll(db1, ActiveOfDevice(db1, device))
  }

  function Reused(devices: map<Id, Device>, key: Key): (devices': map<Id, Device>)
  {
    map d | d in devices :: if devices[d].key == key then devices[d].(revoked := false) else devices[d]
  }

  /** `DeviceService::register`: a known key takes its device back into use,
      under the user it already had; a new key is a new device. */
  function DeviceRegistered(db: Db, user: Id, device: Id, key: Key): (res: (Db, Result<(), Error>))
  {
    if !(user in db.users && db.users[user]) then (db, Err(Unauthorized))
    else if |key| < 40 then (db, Err(BadRequest))
    else if exists d | d in db.devices :: db.devices[d].key == key then
      (db.(devices := Reused(db.devices, key)), Ok(()))
    else if device in db.devices then (db, Err(Conflict))
    else (db.(devices := db.devices[device := Device(user, key, false)]), Ok(()))
  }

  /** What `config` writes before it selects. */
  function Swept(db: Db, gateway: Id, now: int): (db': Db)
  {
    if gateway in db.gateways && db.gateways[gateway].network.Some?
    then DeleteExpired(ExpireSessions(db, gateway, now), gateway, now) else db
  }

  // ---- The operations themselves ----

  class Service {
    var db: Db

    constructor ()
      ensures db == Tables.EMPTY
    {
      db := Tables.EMPTY;
    }

    /** `IpamService::allocate`, searching the block from its first address. */
    method AllocateAddress(network: Id, session: Id) returns (got: Option<nat>)
      modifies this
      ensures (db, got) == Allocate(old(db), network, session)
    {
      if network !in db.networks {
        return None;
      }
      var held := Held(db, network);
      var (first, end) := Bounds(db.networks[network]);
      for a := first to (if first < end then end else first)
        invariant db == old(db)
        invariant FirstFree(first, end, held) == FirstFree(a, end, held)
      {
        if Eligible(a) && a !in held {
          db := db.(allocations := db.allocations[(network, a) := Some(session)]);
          return Some(a);
        }
      }
      got := None;
    }

    method Create(r: CreateRequest, now: int) returns (res: Result<nat, Error>)
      modifies this
      ensures (db, res) == Created(old(db), r, now)
    {
      match Refused(db, r) {
        case Some(e) => return Err(e);
        case None =>
      }
      var key := db.devices[r.device].key;
      db := InsertSession(db, r.session, NewSession(r, 0, now));
      var got := AllocateAddress(r.network, r.session);
      if got.None? {
        return Err(BadRequest);
      }
      db := AssignIp(db, r.session, got.value);
      db := InsertPeer(db, r.session, PeerRow(r.gateway.value, r.device, key, got.value, now + r.allowedFor.value));
      db := Bump(db, r.gateway.value);
      res := Ok(got.value);
    }

    method Revoke(sid: Id) returns (done: bool)
      modifies this
      ensures db == RevokedOne(old(db), sid) && done == CanRevoke(old(db), sid)
    {
      done := CanRevoke(db, sid);
      db := MarkRevoked(db, sid);
      if !done {
        return;
      }
      db := DeletePeer(db, sid);
      db := Release(db, sid);
      db := BumpFor(db, sid);
    }

    method RevokeEach(ids: set<Id>)
      requires forall s | s in ids :: CanRevoke(db, s)
      modifies this
      ensures db == RevokedAll(old(db), ids)
    {
      var left, done := ids, {};
      RevokedNone(db);
      while left != {}
        invariant left !! done && left + done == ids
        invariant db == RevokedAll(old(db), done)
        decreases left
      {
        var s :| s in left;
        RevokedMore(old(db), done, s);
        var _ := Revoke(s);
        left, done := left - {s}, done + {s};
      }
    }

    method UpdateUser(user: Id, active: Option<bool>)
      modifies this
      ensures db == UserUpdated(old(db), user, active)
    {
      if user in db.users && active.Some? {
        db := db.(users := db.users[user := active.value]);
      }
      if active == Some(false) {
        RevokeEach(ActiveOfUser(db, user));
      }
    }

    method DeleteUser(user: Id) returns (found: bool)
      modifies this
      ensures db == UserDeleted(old(db), user) && found == (user in old(db).users)
    {
      RevokeEach(ActiveOfUser(db, user));
      found := user in db.users;
      db := Cascaded(db, user);
    }

    /** An upsert on the key. */
    method RegisterDevice(user: Id, device: Id, key: Key) returns (res: Result<(), Error>)
      modifies this
      ensures (db, res) == DeviceRegistered(old(db), user, device, key)
    {
      if !(user in db.users && db.users[user]) {
        return Err(Unauthorized);
      }
      if |key| < 40 {
        return Err(BadRequest);
      }
      if exists d | d in db.devices :: db.devices[d].key == key {
        db := db.(devices := Reused(db.devices, key));
        return Ok(());
      }
      if device in db.devices {
        return Err(Conflict);
      }
      db := db.(devices := db.devices[device := Device(user, key, false)]);
      res := Ok(());
    }

    /** `GatewayService::config`: the version is read first, the peers last. */
    method Config(gateway: Id, now: int) returns (res: Result<(nat, map<Id, PeerRow>), Error>)
      modifies this
      ensures db == Swept(old(db), gateway, now)
      ensures res.Ok? <==> gateway in old(db).gateways && old(db).gateways[gateway].network.Some?
      ensures res.Ok? ==>
                && res.value.0 == old(db).gateways[gateway].version
                && (forall s :: s in res.value.1 <==> Selected(db, gateway, now, s))
                && forall s | s in res.value.1 :: res.value.1[s] == old(db).peers[s]
    {
      if gateway !in db.gateways {
        return Err(NotFound);
      }
      var row := db.gateways[gateway];
      if row.network.None? {
        return Err(BadRequest);
      }
      db := ExpireSessions(db, gateway, now);
      db := DeleteExpired(db, gateway, now);
      res := Ok((row.version, map s | s in db.peers && Selected(db, gateway, now, s) :: db.peers[s]));
    }

    method RevokeDevice(device: Id) returns (found: bool)
      modifies this
      ensures db == DeviceRevoked(old(db), device) && found == (device in old(db).devices)
    {
      found := device in db.devices;
      if found {
        db := db.(devices := db.devices[device := db.devices[device].(revoked := true)]);
        RevokeEach(ActiveOfDevice(db, device));
      }
    }
  }

  /** On consistent tables a sweep takes away nothing that would be selected. */
  lemma SweepKeepsSelected(db: Db, gateway: Id, now: int)
    requires PeersOfSessions(db)
    ensures forall s :: Selected(DeleteExpired(ExpireSessions(db, gateway, now), gateway, now), gateway, now, s)
                        <==> Selected(db, gateway, now, s)
  {
  }

  lemma RevokedNone(db: Db)
    ensures RevokedAll(db, {}) == db
  {
    var db' := RevokedAll(db, {});
    assert db'.sessions == db.sessions && db'.peers == db.peers && db'.allocations == db.allocations;
    forall g | g in db.gateways ensures db'.gateways[g] == db.gateways[g] {
      assert OfGateway(db, {}, g) == {};
    }
    assert db'.gateways == db.gateways;
  }

  lemma RevokedMore(db: Db, done: set<Id>, s: Id)
    requires s !in done && CanRevoke(db, s)
    ensures CanRevoke(RevokedAll(db, done), s)
    ensures RevokedOne(RevokedAll(db, done), s) == RevokedAll(db, done + {s})
  {
    RevokedRows(db, done, s);
    RevokedVersions(db, done, s);
  }

  lemma RevokedRows(db: Db, done: set<Id>, s: Id)
    requires s !in done && CanRevoke(db, s)
    ensures CanRevoke(RevokedAll(db, done), s)
    ensures Release(DeletePeer(MarkRevoked(RevokedAll(db, done), s), s), s)
            == RevokedAll(db, done + {s}).(gateways := RevokedAll(db, done).gateways)
  {
    var now, next := RevokedAll(db, done), RevokedAll(db, done + {s});
    assert MarkRevoked(now, s).sessions == next.sessions;
    assert now.peers - {s} == next.peers;
    assert Release(now, s).allocations == next.allocations;
  }

  lemma OfGatewayGrows(db: Db, done: set<Id>, s: Id, g: Id)
    requires s !in done && s in db.sessions
    ensures |OfGateway(db, done + {s}, g)| == |OfGateway(db, done, g)| + if g == db.sessions[s].gateway then 1 else 0
  {
    assert OfGateway(db, done + {s}, g) == OfGateway(db, done, g) + if g == db.sessions[s].gateway then {s} else {};
  }

  lemma RevokedVersions(db: Db, done: set<Id>, s: Id)
    requires s !in done && s in db.sessions
    ensures Bump(RevokedAll(db, done), db.sessions[s].gateway).gateways == RevokedAll(db, done + {s}).gateways
  {
    forall g ensures |OfGateway(db, done + {s}, g)| == |OfGateway(db, done, g)| + if g == db.sessions[s].gateway then 1 else 0 {
      OfGatewayGrows(db, done, s, g);
    }
  }

  // ---- What every operation keeps ----

  /** Every held address is an eligible one of its network, and belongs to the
      session it is assigned to, which is not revoked; or to none, once the session
      was deleted with its user. */
  predicate HeldBySessions(db: Db)
  {
    forall k | k in db.allocations ::
      && k.0 in db.networks && Contains(db.networks[k.0], IpAddress(V4, k.1)) && Eligible(k.1)
      && (db.allocations[k].Some? ==>
            var s := db.allocations[k].value;
            s in db.sessions && db.sessions[s].network == k.0 && db.sessions[s].ip == k.1 && db.sessions[s].status != Revoked)
  }

  predicate Holds(db: Db, s: Id)
    requires s in db.sessions
  {
    var k := (db.sessions[s].network, db.sessions[s].ip);
    k in db.allocations && db.allocations[k] == Some(s)
  }

  /** A session that was given an address holds it until it is revoked. */
  predicate SessionsHold(db: Db)
  {
    forall s | s in db.sessions && db.sessions[s].status != Revoked && db.sessions[s].ip != 0 :: Holds(db, s)
  }

  /** A peer row stands for a session with an address, and agrees with it. */
  predicate PeersOfSessions(db: Db)
  {
    forall s | s in db.peers ::
      && s in db.sessions && db.sessions[s].status != Revoked && db.sessions[s].ip != 0
      && db.peers[s].gateway == db.sessions[s].gateway && db.peers[s].device == db.sessions[s].device
      && db.peers[s].ip == db.sessions[s].ip && db.peers[s].expiresAt == db.sessions[s].expiresAt
  }

  predicate References(db: Db)
  {
    && (forall n | n in db.networks :: db.networks[n].family == V4)
    && (forall s | s in db.sessions ::
          var row := db.sessions[s];
          row.user in db.users && row.network in db.networks && row.gateway in db.gateways
          && row.device in db.devices && db.devices[row.device].user == row.user)
  }

  /** No active session belongs to a deactivated user or a revoked device. */
  predicate Deprovisioned(db: Db)
  {
    forall s | s in db.sessions && db.sessions[s].status == Active ::
      var row := db.sessions[s];
      row.user in db.users && db.users[row.user] && row.device in db.devices && !db.devices[row.device].revoked
  }

  predicate Consistent(db: Db)
  {
    HeldBySessions(db) && SessionsHold(db) && PeersOfSessions(db) && References(db) && Deprovisioned(db)
  }

  datatype Op =
    | AddUser(user: Id, active: bool)
    | AddNetwork(network: Id, cidr: Net)
    | Enroll(gateway: Id, serves: Option<Id>)
    | RegisterDevice(owner: Id, device: Id, key: Key)
    | CreateSession(request: CreateRequest)
    | RevokeSession(session: Id)
    | SetActive(user: Id, value: Option<bool>)
    | DeleteUser(user: Id)
    | RevokeDevice(device: Id)
    | ServeConfig(gateway: Id)

  function UserAdded(db: Db, user: Id, active: bool): (db': Db)
  {
    if user in db.users then db else db.(users := db.users[user := active])
  }

  function NetworkAdded(db: Db, network: Id, cidr: Net): (db': Db)
  {
    if network in db.networks || cidr.family == V6 then db else db.(networks := db.networks[network := cidr])
  }

  /** A gateway enrolls again under its old row, keeping its version. */
  function Enrolled(db: Db, gateway: Id, serves: Option<Id>): (db': Db)
  {
    var row := if gateway in db.gateways then db.gateways[gateway] else GatewayRow(None, 0);
    db.(gateways := db.gateways[gateway := if serves.Some? then row.(network := serves) else row])
  }

  /** One operation at `now`; a refused one changes nothing. */
  function Apply(db: Db, op: Op, now: int): (db': Db)
  {
    match op
    case AddUser(user, active) => UserAdded(db, user, active)
    case AddNetwork(network, cidr) => NetworkAdded(db, network, cidr)
    case Enroll(gateway, serves) => Enrolled(db, gateway, serves)
    case RegisterDevice(owner, device, key) => DeviceRegistered(db, owner, device, key).0
    case CreateSession(request) => Created(db, request, now).0
    case RevokeSession(session) => RevokedOne(db, session)
    case SetActive(user, value) => UserUpdated(db, user, value)
    case DeleteUser(user) => UserDeleted(db, user)
    case RevokeDevice(device) => DeviceRevoked(db, device)
    case ServeConfig(gateway) => Swept(db, gateway, now)
  }

  function Run(db: Db, ops: seq<(Op, int)>): (db': Db)
    decreases |ops|
  {
    if ops == [] then db else Run(Apply(db, ops[0].0, ops[0].1), ops[1..])
  }

  lemma RevokedAllKeeps(db: Db, ids: set<Id>)
    requires HeldBySessions(db) && SessionsHold(db) && PeersOfSessions(db) && References(db)
    ensures var db' := RevokedAll(db, ids);
            HeldBySessions(db') && SessionsHold(db') && PeersOfSessions(db') && References(db')
  {
  }

  lemma RevokedOneIsAll(db: Db, sid: Id)
    ensures RevokedOne(db, sid) == if CanRevoke(db, sid) then RevokedAll(db, {sid}) else db
  {
    if CanRevoke(db, sid) {
      RevokedNone(db);
      RevokedMore(db, {}, sid);
      assert {} + {sid} == {sid};
    }
  }

  lemma InsertedKeeps(db: Db, r: CreateRequest, now: int)
    requires Consistent(db) && Refused(db, r).None?
    ensures Consistent(InsertSession(db, r.session, NewSession(r, 0, now)))
  {
  }

  /** The four statements after a successful allocation, together. */
  function Completed(db: Db, r: CreateRequest, ip: nat, now: int): (db': Db)
    requires r.gateway.Some? && r.allowedFor.Some? && r.device in db.devices
  {
    Bump(db.(sessions := db.sessions[r.session := NewSession(r, ip, now)],
             peers := db.peers[r.session := NewPeer(db, r, ip, now)],
             allocations := db.allocations[(r.network, ip) := Some(r.session)]), r.gateway.value)
  }

  lemma CreatedCases(db: Db, r: CreateRequest, now: int)
    requires Refused(db, r).None? && References(db)
    ensures var inserted := InsertSession(db, r.session, NewSession(r, 0, now));
            match Created(db, r, now)
            case (db', Err(_)) =>
              && db' == inserted
              && forall a: nat | Contains(db.networks[r.network], IpAddress(V4, a)) && Eligible(a) ::
                   (r.network, a) in db.allocations
            case (db', Ok(ip)) =>
              && db' == Completed(db, r, ip, now)
              && Contains(db.networks[r.network], IpAddress(V4, ip)) && Eligible(ip) && (r.network, ip) !in db.allocations
  {
    var inserted := InsertSession(db, r.session, NewSession(r, 0, now));
    AllocateExactly(inserted, r.network, r.session);
    match Allocate(inserted, r.network, r.session)
    case (_, None) =>
    case (given, Some(ip)) =>
      var placed := InsertPeer(AssignIp(given, r.session, ip), r.session, NewPeer(db, r, ip, now));
      assert placed.sessions == db.sessions[r.session := NewSession(r, ip, now)];
      assert placed == db.(sessions := placed.sessions, peers := placed.peers, allocations := placed.allocations);
  }

  lemma CompletedHeld(db: Db, r: CreateRequest, ip: nat, now: int)
    requires Consistent(db) && Refused(db, r).None?
    requires Contains(db.networks[r.network], IpAddress(V4, ip)) && Eligible(ip) && (r.network, ip) !in db.allocations
    ensures HeldBySessions(Completed(db, r, ip, now)) && SessionsHold(Completed(db, r, ip, now))
  {
    var db' := Completed(db, r, ip, now);
    forall s | s in db'.sessions && db'.sessions[s].status != Revoked && db'.sessions[s].ip != 0 ensures Holds(db', s) {
      if s != r.session {
        assert Holds(db, s);
      }
    }
    forall k | k in db'.allocations
      ensures k.0 in db'.networks && Contains(db'.networks[k.0], IpAddress(V4, k.1)) && Eligible(k.1)
              && (db'.allocations[k].Some? ==>
                    var s := db'.allocations[k].value;
                    s in db'.sessions && db'.sessions[s].network == k.0 && db'.sessions[s].ip == k.1
                    && db'.sessions[s].status != Revoked)
    {
      if k != (r.network, ip) {
        assert k in db.allocations && db.allocations[k] != Some(r.session);
      }
    }
  }

  lemma CompletedPeers(db: Db, r: CreateRequest, ip: nat, now: int)
    requires PeersOfSessions(db) && Refused(db, r).None? && ip != 0
    ensures PeersOfSessions(Completed(db, r, ip, now))
  {
  }

  lemma CompletedReferences(db: Db, r: CreateRequest, ip: nat, now: int)
    requires References(db) && Deprovisioned(db) && Refused(db, r).None?
    ensures References(Completed(db, r, ip, now)) && Deprovisioned(Completed(db, r, ip, now))
  {
  }

  lemma CompletedKeeps(db: Db, r: CreateRequest, ip: nat, now: int)
    requires Consistent(db) && Refused(db, r).None?
    requires Contains(db.networks[r.network], IpAddress(V4, ip)) && Eligible(ip) && (r.network, ip) !in db.allocations
    ensures Consistent(Completed(db, r, ip, now))
  {
    CompletedHeld(db, r, ip, now);
    CompletedPeers(db, r, ip, now);
    CompletedReferences(db, r, ip, now);
  }

  lemma CreatedKeeps(db: Db, r: CreateRequest, now: int)
    requires Consistent(db)
    ensures Consistent(Created(db, r, now).0)
  {
    if Refused(db, r).None? {
      CreatedCases(db, r, now);
      match Created(db, r, now)
      case (_, Err(_)) => InsertedKeeps(db, r, now);
      case (_, Ok(ip)) => CompletedKeeps(db, r, ip, now);
    }
  }

  /** Revoking `ids` settles the tables when every other active session may stay. */
  lemma RevokingSettles(db: Db, ids: set<Id>)
    requires HeldBySessions(db) && SessionsHold(db) && PeersOfSessions(db) && References(db)
    requires forall s | s in db.sessions && db.sessions[s].status == Active && s !in ids ::
               var row := db.sessions[s];
               row.user in db.users && db.users[row.user] && row.device in db.devices && !db.devices[row.device].revoked
    ensures Consistent(RevokedAll(db, ids))
  {
    RevokedAllKeeps(db, ids);
  }

  /** Switching a user or a device on or off leaves addresses and peers alone. */
  lemma SwitchedHolds(db: Db, db1: Db)
    requires Consistent(db) && db1 == db.(users := db1.users, devices := db1.devices)
    requires db.users.Keys <= db1.users.Keys
    requires forall d | d in db.devices :: d in db1.devices && db1.devices[d].user == db.devices[d].user
    ensures HeldBySessions(db1) && SessionsHold(db1) && PeersOfSessions(db1) && References(db1)
  {
    forall s | s in db1.sessions && db1.sessions[s].status != Revoked && db1.sessions[s].ip != 0 ensures Holds(db1, s) {
      assert Holds(db, s);
    }
  }

  lemma UserSwitchedKeeps(db: Db, user: Id, value: bool)
    requires Consistent(db) && user in db.users
    ensures var db1 := db.(users := db.users[user := value]);
            Consistent(if value then db1 else RevokedAll(db1, ActiveOfUser(db1, user)))
  {
    var db1 := db.(users := db.users[user := value]);
    SwitchedHolds(db, db1);
    if !value {
      RevokingSettles(db1, ActiveOfUser(db1, user));
    }
  }

  lemma UserUpdatedKeeps(db: Db, user: Id, active: Option<bool>)
    requires Consistent(db)
    ensures Consistent(UserUpdated(db, user, active))
  {
    if user in db.users && active.Some? {
      UserSwitchedKeeps(db, user, active.value);
    } else if active == Some(false) {
      assert ActiveOfUser(db, user) == {} by {
        assert References(db);
      }
      RevokedNone(db);
    }
  }

  lemma CascadedHeld(db: Db, user: Id)
    requires HeldBySessions(db) && SessionsHold(db)
    ensures HeldBySessions(Cascaded(db, user)) && SessionsHold(Cascaded(db, user))
  {
    var db' := Cascaded(db, user);
    forall s | s in db'.sessions && db'.sessions[s].status != Revoked && db'.sessions[s].ip != 0 ensures Holds(db', s) {
      assert Holds(db, s);
    }
  }

  lemma CascadedPeers(db: Db, user: Id)
    requires PeersOfSessions(db)
    ensures PeersOfSessions(Cascaded(db, user))
  {
  }

  lemma CascadedReferences(db: Db, user: Id)
    requires References(db) && Deprovisioned(db)
    ensures References(Cascaded(db, user)) && Deprovisioned(Cascaded(db, user))
  {
  }

  lemma UserDeletedKeeps(db: Db, user: Id)
    requires Consistent(db)
    ensures Consistent(UserDeleted(db, user))
  {
    var db1 := RevokedAll(db, ActiveOfUser(db, user));
    RevokingSettles(db, ActiveOfUser(db, user));
    CascadedHeld(db1, user);
    CascadedPeers(db1, user);
    CascadedReferences(db1, user);
  }

  lemma DeviceRevokedKeeps(db: Db, device: Id)
    requires Consistent(db)
    ensures Consistent(DeviceRevoked(db, device))
  {
    if device in db.devices {
      var db1 := db.(devices := db.devices[device := db.devices[device].(revoked := true)]);
      SwitchedHolds(db, db1);
      RevokingSettles(db1, ActiveOfDevice(db1, device));
    }
  }

  lemma ExpireKeeps(db: Db, gateway: Id, now: int)
    requires Consistent(db)
    ensures Consistent(ExpireSessions(db, gateway, now))
  {
    ExpireHolds(db, gateway, now);
    ExpirePeers(db, gateway, now);
    ExpireRefers(db, gateway, now);
  }

  lemma ExpireHolds(db: Db, gateway: Id, now: int)
    requires HeldBySessions(db) && SessionsHold(db)
    ensures HeldBySessions(ExpireSessions(db, gateway, now)) && SessionsHold(ExpireSessions(db, gateway, now))
  {
    var db1 := ExpireSessions(db, gateway, now);
    forall s | s in db1.sessions && db1.sessions[s].status != Revoked && db1.sessions[s].ip != 0 ensures Holds(db1, s) {
      assert Holds(db, s);
    }
  }

  lemma ExpirePeers(db: Db, gateway: Id, now: int)
    requires PeersOfSessions(db)
    ensures PeersOfSessions(ExpireSessions(db, gateway, now))
  {
  }

  lemma ExpireRefers(db: Db, gateway: Id, now: int)
    requires References(db) && Deprovisioned(db)
    ensures References(ExpireSessions(db, gateway, now)) && Deprovisioned(ExpireSessions(db, gateway, now))
  {
  }

  lemma SweptKeeps(db: Db, gateway: Id, now: int)
    requires Consistent(db)
    ensures Consistent(Swept(db, gateway, now))
  {
    ExpireKeeps(db, gateway, now);
    var db1 := ExpireSessions(db, gateway, now);
    var db2 := DeleteExpired(db1, gateway, now);
    forall s | s in db2.sessions && db2.sessions[s].status != Revoked && db2.sessions[s].ip != 0 ensures Holds(db2, s) {
      assert Holds(db1, s);
    }
  }

  /** Whatever was allowed to a user or a device still is. */
  lemma SwitchedDeprovisions(db: Db, db1: Db)
    requires Deprovisioned(db) && db1 == db.(users := db1.users, devices := db1.devices)
    requires forall u | u in db.users && db.users[u] :: u in db1.users && db1.users[u]
    requires forall d | d in db.devices && !db.devices[d].revoked :: d in db1.devices && !db1.devices[d].revoked
    ensures Deprovisioned(db1)
  {
  }

  lemma UserAddedKeeps(db: Db, user: Id, active: bool)
    requires Consistent(db)
    ensures Consistent(UserAdded(db, user, active))
  {
    if user !in db.users {
      var db1 := db.(users := db.users[user := active]);
      SwitchedHolds(db, db1);
      SwitchedDeprovisions(db, db1);
    }
  }

  lemma NetworkHolds(db: Db, network: Id, cidr: Net)
    requires HeldBySessions(db) && SessionsHold(db) && network !in db.networks
    ensures var db1 := db.(networks := db.networks[network := cidr]); HeldBySessions(db1) && SessionsHold(db1)
  {
    var db1 := db.(networks := db.networks[network := cidr]);
    forall s | s in db1.sessions && db1.sessions[s].status != Revoked && db1.sessions[s].ip != 0 ensures Holds(db1, s) {
      assert Holds(db, s);
    }
  }

  lemma NetworkRefers(db: Db, network: Id, cidr: Net)
    requires References(db) && network !in db.networks && cidr.family == V4
    ensures References(db.(networks := db.networks[network := cidr]))
  {
  }

  lemma NetworkAddedKeeps(db: Db, network: Id, cidr: Net)
    requires Consistent(db)
    ensures Consistent(NetworkAdded(db, network, cidr))
  {
    if network !in db.networks && cidr.family == V4 {
      NetworkHolds(db, network, cidr);
      NetworkRefers(db, network, cidr);
    }
  }

  lemma EnrolledKeeps(db: Db, gateway: Id, serves: Option<Id>)
    requires Consistent(db)
    ensures Consistent(Enrolled(db, gateway, serves))
  {
    var db1 := Enrolled(db, gateway, serves);
    forall s | s in db1.sessions && db1.sessions[s].status != Revoked && db1.sessions[s].ip != 0 ensures Holds(db1, s) {
      assert Holds(db, s);
    }
  }

  lemma DevicesKeep(db: Db, devices: map<Id, Device>)
    requires Consistent(db)
    requires forall d | d in db.devices :: d in devices && devices[d].user == db.devices[d].user
                                           && (devices[d].revoked ==> db.devices[d].revoked)
    ensures Consistent(db.(devices := devices))
  {
    SwitchedHolds(db, db.(devices := devices));
    SwitchedDeprovisions(db, db.(devices := devices));
  }

  lemma DeviceRegisteredKeeps(db: Db, user: Id, device: Id, key: Key)
    requires Consistent(db)
    ensures Consistent(DeviceRegistered(db, user, device, key).0)
  {
    if user in db.users && db.users[user] && |key| >= 40 {
      if exists d | d in db.devices :: db.devices[d].key == key {
        DevicesKeep(db, Reused(db.devices, key));
      } else if device !in db.devices {
        DevicesKeep(db, db.devices[device := Device(user, key, false)]);
      }
    }
  }

  lemma ApplyKeeps(db: Db, op: Op, now: int)
    requires Consistent(db)
    ensures Consistent(Apply(db, op, now))
  {
    match op
    case AddUser(user, active) => UserAddedKeeps(db, user, active);
    case AddNetwork(network, cidr) => NetworkAddedKeeps(db, network, cidr);
    case Enroll(gateway, serves) => EnrolledKeeps(db, gateway, serves);
    case RegisterDevice(owner, device, key) => DeviceRegisteredKeeps(db, owner, device, key);
    case CreateSession(request) => CreatedKeeps(db, request, now);
    case RevokeSession(session) =>
      RevokedOneIsAll(db, session);
      RevokedAllKeeps(db, {session});
    case SetActive(user, value) => UserUpdatedKeeps(db, user, value);
    case DeleteUser(user) => UserDeletedKeeps(db, user);
    case RevokeDevice(device) => DeviceRevokedKeeps(db, device);
    case ServeConfig(gateway) => SweptKeeps(db, gateway, now);
  }

  /** Every run of operations keeps the tables consistent: addresses are held by
      exactly the sessions they are assigned to, none by a revoked one, and no
      active session outlives its user's or device's access. */
  lemma {:induction false} RunKeeps(db: Db, ops: seq<(Op, int)>)
    requires Consistent(db)
    ensures Consistent(Run(db, ops))
    decreases |ops|
  {
    if ops != [] {
      ApplyKeeps(db, ops[0].0, ops[0].1);
      RunKeeps(Apply(db, ops[0].0, ops[0].1), ops[1..]);
    }
  }

  lemma ReachableConsistent(ops: seq<(Op, int)>)
    ensures Consistent(Run(Tables.EMPTY, ops))
  {
    RunKeeps(Tables.EMPTY, ops);
  }

  // ---- Who is behind an address ----

  /** The sessions `identity_by_ip` may return for an address. */
  function Candidates(db: Db, ip: nat, now: int): (ids: set<Id>)
  {
    set s | s in db.sessions && db.sessions[s].ip == ip && db.sessions[s].status == Active && db.sessions[s].expiresAt > now
            && db.sessions[s].user in db.users && db.users[db.sessions[s].user]
  }

  predicate DisjointNetworks(db: Db)
  {
    forall m, n | m in db.networks && n in db.networks && m != n :: Apart(db.networks[m], db.networks[n])
  }

  /** Two blocks without a common address: neither starts inside the other. */
  predicate Apart(a: Net, b: Net)
  {
    !Contains(a, NetworkAddress(b)) && !Contains(b, NetworkAddress(a))
  }

  lemma ApartShareNothing(a: Net, b: Net, x: IpAddress)
    requires Apart(a, b) && Contains(a, x)
    ensures !Contains(b, x)
  {
    if Contains(b, x) {
      if a.prefix <= b.prefix {
        NestedFromShared(a, b, x);
      } else {
        NestedFromShared(b, a, x);
      }
    }
  }

  /** With an address in common, the longer block starts inside the shorter. */
  lemma NestedFromShared(outer: Net, inner: Net, x: IpAddress)
    requires Contains(outer, x) && Contains(inner, x) && outer.prefix <= inner.prefix
    ensures Contains(outer, NetworkAddress(inner))
  {
    var hi, d := HostBits(inner), inner.prefix - outer.prefix;
    var n := NetworkAddress(inner).value;
    ShrShl(NetworkBits(inner, inner.value), hi);
    ShrAdds(n, hi, d);
    ShrAdds(x.value, hi, d);
    assert HostBits(outer) == hi + d;
  }

  /** With disjoint networks, at most one session is behind any address but the
      placeholder, after any run. */
  lemma AddressHasOneIdentity(ops: seq<(Op, int)>, ip: nat, now: int, s1: Id, s2: Id)
    requires DisjointNetworks(Run(Tables.EMPTY, ops)) && ip != 0
    requires s1 in Candidates(Run(Tables.EMPTY, ops), ip, now) && s2 in Candidates(Run(Tables.EMPTY, ops), ip, now)
    ensures s1 == s2
  {
    var db := Run(Tables.EMPTY, ops);
    ReachableConsistent(ops);
    assert Holds(db, s1) && Holds(db, s2);
    var n1, n2 := db.sessions[s1].network, db.sessions[s2].network;
    var a := IpAddress(V4, ip);
    assert Contains(db.networks[n1], a) && Contains(db.networks[n2], a) by {
      assert (n1, ip) in db.allocations && (n2, ip) in db.allocations;
    }
    if n1 != n2 {
      ApartShareNothing(db.networks[n1], db.networks[n2], a);
    }
  }

  /** The placeholder is the exception: every session that found no address is
      behind it. Two of them, on one full network, show it. */
  lemma PlaceholderIsShared(db: Db, r1: CreateRequest, r2: CreateRequest, now: int)
    requires Consistent(db) && r1.session != r2.session && r1.network == r2.network
    requires Refused(db, r1).None? && Refused(db, r2).None? && r1.allowedFor.value > 0 && r2.allowedFor.value > 0
    requires forall a: nat | Contains(db.networks[r1.network], IpAddress(V4, a)) && Eligible(a) :: (r1.network, a) in db.allocations
    ensures var db' := Created(Created(db, r1, now).0, r2, now).0;
            {r1.session, r2.session} <= Candidates(db', 0, now)
  {
    CreatedCases(db, r1, now);
    var db1 := Created(db, r1, now).0;
    assert Refused(db1, r2).None?;
    CreatedCases(db1, r2, now);
  }

  // ---- Ended sessions stay ended ----

  /** A session that is no longer active keeps its row, unless its user is deleted. */
  predicate Ends(db: Db, db': Db, sid: Id)
  {
    !CanRevoke(db, sid) ==> !CanRevoke(db', sid) && (sid in db'.sessions ==> sid in db.sessions && db'.sessions[sid] == db.sessions[sid])
  }

  /** Session ids are random: the operation does not make `sid` again. */
  predicate NotCreating(op: Op, sid: Id)
  {
    op.CreateSession? ==> op.request.session != sid
  }

  lemma RevokedAllEnds(db: Db, ids: set<Id>, sid: Id)
    ensures Ends(db, RevokedAll(db, ids), sid) || sid in ids
  {
  }

  lemma RevokedOneEnds(db: Db, session: Id, sid: Id)
    ensures Ends(db, RevokedOne(db, session), sid)
  {
  }

  lemma UserUpdatedEnds(db: Db, user: Id, active: Option<bool>, sid: Id)
    ensures Ends(db, UserUpdated(db, user, active), sid)
  {
    var db1 := if user in db.users && active.Some? then db.(users := db.users[user := active.value]) else db;
    RevokedAllEnds(db1, ActiveOfUser(db1, user), sid);
  }

  lemma UserDeletedEnds(db: Db, user: Id, sid: Id)
    ensures Ends(db, UserDeleted(db, user), sid)
  {
    RevokedAllEnds(db, ActiveOfUser(db, user), sid);
  }

  lemma DeviceRevokedEnds(db: Db, device: Id, sid: Id)
    ensures Ends(db, DeviceRevoked(db, device), sid)
  {
    if device in db.devices {
      var db1 := db.(devices := db.devices[device := db.devices[device].(revoked := true)]);
      RevokedAllEnds(db1, ActiveOfDevice(db1, device), sid);
    }
  }

  lemma SweptEnds(db: Db, gateway: Id, now: int, sid: Id)
    ensures Ends(db, Swept(db, gateway, now), sid)
  {
  }

  lemma CreatedEnds(db: Db, r: CreateRequest, now: int, sid: Id)
    requires r.session != sid
    ensures Ends(db, Created(db, r, now).0, sid)
  {
  }

  lemma ApplyEnds(db: Db, op: Op, now: int, sid: Id)
    requires NotCreating(op, sid)
    ensures Ends(db, Apply(db, op, now), sid)
  {
    match op
    case CreateSession(request) => CreatedEnds(db, request, now, sid);
    case RevokeSession(session) => RevokedOneEnds(db, session, sid);
    case SetActive(user, value) => UserUpdatedEnds(db, user, value, sid);
    case DeleteUser(user) => UserDeletedEnds(db, user, sid);
    case RevokeDevice(device) => DeviceRevokedEnds(db, device, sid);
    case ServeConfig(gateway) => SweptEnds(db, gateway, now, sid);
    case RegisterDevice(owner, device, key) => assert DeviceRegistered(db, owner, device, key).0.sessions == db.sessions;
    case _ => assert Apply(db, op, now).sessions == db.sessions;
  }

  /** A session once revoked or expired, or gone with its user, stays so through any
      run, and no later `config` selects it, at any time, for any gateway. */
  lemma {:induction false} EndedStaysEnded(db: Db, ops: seq<(Op, int)>, sid: Id)
    requires !CanRevoke(db, sid) && forall op | op in ops :: NotCreating(op.0, sid)
    ensures Ends(db, Run(db, ops), sid)
    ensures forall gateway, now :: !Selected(Run(db, ops), gateway, now, sid)
    decreases |ops|
  {
    if ops != [] {
      assert ops[0] in ops && forall op | op in ops[1..] :: op in ops;
      ApplyEnds(db, ops[0].0, ops[0].1, sid);
      EndedStaysEnded(Apply(db, ops[0].0, ops[0].1), ops[1..], sid);
    }
  }

  /** An address whose session expired, or is gone with its user. */
  predicate Stuck(db: Db, k: (Id, nat))
  {
    && k in db.allocations
    && (db.allocations[k].Some? ==>
          db.allocations[k].value in db.sessions && db.sessions[db.allocations[k].value].status == Expired)
  }

  lemma RevokedAllStuck(db: Db, ids: set<Id>, k: (Id, nat))
    requires Stuck(db, k) && forall s | s in ids :: CanRevoke(db, s)
    ensures Stuck(RevokedAll(db, ids), k)
  {
  }

  lemma CreatedStuck(db: Db, r: CreateRequest, now: int, k: (Id, nat))
    requires Consistent(db) && Stuck(db, k)
    ensures Stuck(Created(db, r, now).0, k)
  {
    if Refused(db, r).None? {
      CreatedCases(db, r, now);
    }
  }

  lemma RevokedOneStuck(db: Db, sid: Id, k: (Id, nat))
    requires Stuck(db, k)
    ensures Stuck(RevokedOne(db, sid), k)
  {
    RevokedOneIsAll(db, sid);
    if CanRevoke(db, sid) {
      RevokedAllStuck(db, {sid}, k);
    }
  }

  lemma RegisteredStuck(db: Db, user: Id, device: Id, key: Key, k: (Id, nat))
    requires Stuck(db, k)
    ensures Stuck(DeviceRegistered(db, user, device, key).0, k)
  {
  }

  lemma UserUpdatedStuck(db: Db, user: Id, active: Option<bool>, k: (Id, nat))
    requires Stuck(db, k)
    ensures Stuck(UserUpdated(db, user, active), k)
  {
    if active == Some(false) {
      var db1 := if user in db.users then db.(users := db.users[user := false]) else db;
      assert Stuck(db1, k);
      RevokedAllStuck(db1, ActiveOfUser(db1, user), k);
    }
  }

  lemma UserDeletedStuck(db: Db, user: Id, k: (Id, nat))
    requires Stuck(db, k)
    ensures Stuck(UserDeleted(db, user), k)
  {
    RevokedAllStuck(db, ActiveOfUser(db, user), k);
    CascadedStuck(RevokedAll(db, ActiveOfUser(db, user)), user, k);
  }

  lemma CascadedStuck(db: Db, user: Id, k: (Id, nat))
    requires Stuck(db, k)
    ensures Stuck(Cascaded(db, user), k)
  {
  }

  lemma DeviceRevokedStuck(db: Db, device: Id, k: (Id, nat))
    requires Stuck(db, k)
    ensures Stuck(DeviceRevoked(db, device), k)
  {
    if device in db.devices {
      var db1 := db.(devices := db.devices[device := db.devices[device].(revoked := true)]);
      assert Stuck(db1, k);
      RevokedAllStuck(db1, ActiveOfDevice(db1, device), k);
    }
  }

  lemma SweptStuck(db: Db, gateway: Id, now: int, k: (Id, nat))
    requires Stuck(db, k)
    ensures Stuck(Swept(db, gateway, now), k)
  {
  }

  lemma ApplyStuck(db: Db, op: Op, now: int, k: (Id, nat))
    requires Consistent(db) && Stuck(db, k)
    ensures Stuck(Apply(db, op, now), k)
  {
    match op
    case CreateSession(request) => CreatedStuck(db, request, now, k);
    case RevokeSession(session) => RevokedOneStuck(db, session, k);
    case SetActive(user, value) => UserUpdatedStuck(db, user, value, k);
    case DeleteUser(user) => UserDeletedStuck(db, user, k);
    case RevokeDevice(device) => DeviceRevokedStuck(db, device, k);
    case ServeConfig(gateway) => SweptStuck(db, gateway, now, k);
    case RegisterDevice(owner, device, key) => RegisteredStuck(db, owner, device, key, k);
    case _ =>
  }

  /** Nothing frees the address of an expired session, not even deleting its user:
      no run hands it out again. */
  lemma {:induction false} ExpiredHoldsForGood(db: Db, ops: seq<(Op, int)>, k: (Id, nat))
    requires Consistent(db) && Stuck(db, k)
    ensures Stuck(Run(db, ops), k)
    decreases |ops|
  {
    if ops != [] {
      ApplyKeeps(db, ops[0].0, ops[0].1);
      ApplyStuck(db, ops[0].0, ops[0].1, k);
      ExpiredHoldsForGood(Apply(db, ops[0].0, ops[0].1), ops[1..], k);
    }
  }

  // ---- What a revocation takes back ----

  /** A revocation does nothing to a session that is not active. Otherwise that
      session alone is revoked, has no peer and holds no address, and its gateway's
      version is one higher; a second revocation does nothing. */
  lemma RevokedExactly(db: Db, sid: Id)
    ensures !CanRevoke(db, sid) ==> RevokedOne(db, sid) == db
    ensures var db' := RevokedOne(db, sid);
            && RevokedOne(db', sid) == db'
            && (CanRevoke(db, sid) ==>
                  && db'.sessions == db.sessions[sid := db.sessions[sid].(status := Revoked)]
                  && db'.peers == db.peers - {sid}
                  && (forall k :: k in db'.allocations <==> k in db.allocations && db.allocations[k] != Some(sid))
                  && (forall k | k in db'.allocations :: db'.allocations[k] == db.allocations[k])
                  && db' == db.(sessions := db'.sessions, peers := db'.peers, allocations := db'.allocations,
                                gateways := Bump(db, db.sessions[sid].gateway).gateways))
  {
  }

  /** Revoking a session gives back everything its creation took: address and peer
      are as they were before it, so the next creation may be given the same. */
  lemma RevokeUndoesCreate(db: Db, r: CreateRequest, now: int)
    requires Consistent(db) && Created(db, r, now).1.Ok?
    ensures var ip := Created(db, r, now).1.value;
            RevokedOne(Created(db, r, now).0, r.session)
            == Bump(Bump(db, r.gateway.value), r.gateway.value).(
                 sessions := db.sessions[r.session := NewSession(r, ip, now).(status := Revoked)])
  {
    CreatedCases(db, r, now);
    var ip := Created(db, r, now).1.value;
    CompletedUndone(db, r, ip, now);
  }

  lemma CompletedUndone(db: Db, r: CreateRequest, ip: nat, now: int)
    requires r.gateway.Some? && r.allowedFor.Some? && r.device in db.devices
    requires r.session !in db.peers && (r.network, ip) !in db.allocations
    requires forall k | k in db.allocations :: db.allocations[k] != Some(r.session)
    ensures RevokedOne(Completed(db, r, ip, now), r.session)
            == Bump(Bump(db, r.gateway.value), r.gateway.value).(
                 sessions := db.sessions[r.session := NewSession(r, ip, now).(status := Revoked)])
  {
    var row, made := NewSession(r, ip, now), Completed(db, r, ip, now);
    PutAndTaken(db.sessions, r.session, row, row.(status := Revoked));
    PutAndDropped(db.peers, r.session, NewPeer(db, r, ip, now));
    PutAndReleased(db.allocations, (r.network, ip), r.session);
    RevokedTables(made, r.session);
  }

  /** The tables of a revocation one by one. */
  lemma RevokedTables(db: Db, sid: Id)
    requires CanRevoke(db, sid)
    ensures RevokedOne(db, sid) == Bump(db, db.sessions[sid].gateway).(
                                     sessions := db.sessions[sid := db.sessions[sid].(status := Revoked)],
                                     peers := db.peers - {sid},
                                     allocations := Released(db.allocations, sid))
  {
  }

  lemma PutAndTaken<T>(m: map<Id, T>, k: Id, v: T, w: T)
    ensures m[k := v][k := w] == m[k := w]
  {
  }

  lemma PutAndDropped<T>(m: map<Id, T>, k: Id, v: T)
    requires k !in m
    ensures m[k := v] - {k} == m
  {
  }

  lemma PutAndReleased(m: map<(Id, nat), Option<Id>>, k: (Id, nat), sid: Id)
    requires k !in m && forall j | j in m :: m[j] != Some(sid)
    ensures Released(m[k := Some(sid)], sid) == m
  {
  }

  // ---- Devices and their keys ----

  predicate KeyTaken(db: Db, key: Key)
  {
    exists d | d in db.devices :: db.devices[d].key == key
  }

  predicate OnePerKey(db: Db)
  {
    forall c, d | c in db.devices && d in db.devices && db.devices[c].key == db.devices[d].key :: c == d
  }

  /** Who registers, and with what, decides everything but the owner: no device
      ever changes its user or its key, a taken key takes its device back into use
      under the user it has, whoever presents it, and a new one is the caller's. */
  lemma RegisteredExactly(db: Db, user: Id, device: Id, key: Key, d: Id)
    requires OnePerKey(db)
    ensures var (db', res) := DeviceRegistered(db, user, device, key);
            && (res.Ok? <==> user in db.users && db.users[user] && |key| >= 40 && (KeyTaken(db, key) || device !in db.devices))
            && (res.Err? ==> db' == db)
            && (res.Ok? && d in db.devices && db.devices[d].key == key ==>
                  db' == db.(devices := db.devices[d := db.devices[d].(revoked := false)]))
            && (res.Ok? && !KeyTaken(db, key) ==> db' == db.(devices := db.devices[device := Device(user, key, false)]))
            && OnePerKey(db')
  {
    if d in db.devices && db.devices[d].key == key {
      ReusedIsOne(db.devices, d);
      assert KeyTaken(db, key);
    }
    ReusedKeepsKeys(db, key);
  }

  lemma ReusedIsOne(devices: map<Id, Device>, d: Id)
    requires d in devices && forall c | c in devices && devices[c].key == devices[d].key :: c == d
    ensures Reused(devices, devices[d].key) == devices[d := devices[d].(revoked := false)]
  {
  }

  lemma ReusedKeepsKeys(db: Db, key: Key)
    requires OnePerKey(db)
    ensures OnePerKey(db.(devices := Reused(db.devices, key)))
  {
  }

  /** What an operation makes of the devices alone. */
  function DevicesAfter(db: Db, op: Op): (devices: map<Id, Device>)
  {
    match op
    case RegisterDevice(owner, device, key) => DeviceRegistered(db, owner, device, key).0.devices
    case DeleteUser(user) => db.devices - DevicesOf(db, user)
    case RevokeDevice(device) =>
      if device in db.devices then db.devices[device := db.devices[device].(revoked := true)] else db.devices
    case _ => db.devices
  }

  lemma CreatedDevices(db: Db, r: CreateRequest, now: int)
    ensures Created(db, r, now).0.devices == db.devices
  {
  }

  lemma UserDeletedDevices(db: Db, user: Id)
    ensures UserDeleted(db, user).devices == db.devices - DevicesOf(db, user)
  {
    assert DevicesOf(RevokedAll(db, ActiveOfUser(db, user)), user) == DevicesOf(db, user);
  }

  lemma RevokedDevices(db: Db, device: Id)
    ensures DeviceRevoked(db, device).devices == DevicesAfter(db, RevokeDevice(device))
  {
  }

  lemma ApplyDevices(db: Db, op: Op, now: int)
    ensures Apply(db, op, now).devices == DevicesAfter(db, op)
  {
    match op
    case CreateSession(request) => CreatedDevices(db, request, now);
    case DeleteUser(user) => UserDeletedDevices(db, user);
    case RevokeDevice(device) => RevokedDevices(db, device);
    case _ =>
  }

  lemma DevicesOnePerKey(db: Db, op: Op)
    requires OnePerKey(db)
    ensures OnePerKey(db.(devices := DevicesAfter(db, op)))
  {
    if op.RegisterDevice? {
      RegisteredExactly(db, op.owner, op.device, op.key, op.device);
    }
  }

  lemma ApplyOnePerKey(db: Db, op: Op, now: int)
    requires OnePerKey(db)
    ensures OnePerKey(Apply(db, op, now))
  {
    ApplyDevices(db, op, now);
    DevicesOnePerKey(db, op);
  }

  lemma {:induction false} RunOnePerKey(db: Db, ops: seq<(Op, int)>)
    requires OnePerKey(db)
    ensures OnePerKey(Run(db, ops))
    decreases |ops|
  {
    if ops != [] {
      ApplyOnePerKey(db, ops[0].0, ops[0].1);
      RunOnePerKey(Apply(db, ops[0].0, ops[0].1), ops[1..]);
    }
  }

  /** An active user, any of them, registers the key. */
  predicate Readmits(db: Db, op: Op, key: Key)
  {
    op.RegisterDevice? && op.key == key && |key| >= 40 && op.owner in db.users && db.users[op.owner]
  }

  predicate Readmitted(db: Db, ops: seq<(Op, int)>, key: Key)
    decreases |ops|
  {
    ops != [] && (Readmits(db, ops[0].0, key) || Readmitted(Apply(db, ops[0].0, ops[0].1), ops[1..], key))
  }

  /** The device is revoked at some point of the run, and its key not registered after. */
  predicate BarredWithin(db: Db, ops: seq<(Op, int)>, device: Id, key: Key)
    decreases |ops|
  {
    ops != [] &&
    var rest := Apply(db, ops[0].0, ops[0].1);
    (ops[0].0 == RevokeDevice(device) && !Readmitted(rest, ops[1..], key)) || BarredWithin(rest, ops[1..], device, key)
  }

  lemma DeviceAfter(db: Db, op: Op, device: Id)
    requires device in db.devices && op != DeleteUser(db.devices[device].user)
    ensures var row := db.devices[device];
            && device in DevicesAfter(db, op)
            && DevicesAfter(db, op)[device] == row.(revoked := if op == RevokeDevice(device) then true
                                                               else if Readmits(db, op, row.key) then false else row.revoked)
  {
  }

  /** After any run, a device whose owner was not deleted keeps owner and key, and
      is revoked exactly when its last revocation was followed by no registration of
      its key by an active user, whoever that user is. */
  lemma {:induction false} RevokedUntilReadmitted(db: Db, ops: seq<(Op, int)>, device: Id)
    requires device in db.devices && forall op | op in ops :: op.0 != DeleteUser(db.devices[device].user)
    ensures var row, db' := db.devices[device], Run(db, ops);
            && device in db'.devices && db'.devices[device].user == row.user && db'.devices[device].key == row.key
            && (db'.devices[device].revoked <==>
                  (row.revoked && !Readmitted(db, ops, row.key)) || BarredWithin(db, ops, device, row.key))
    decreases |ops|
  {
    if ops != [] {
      assert ops[0] in ops && forall op | op in ops[1..] :: op in ops;
      ApplyDevices(db, ops[0].0, ops[0].1);
      DeviceAfter(db, ops[0].0, device);
      RevokedUntilReadmitted(Apply(db, ops[0].0, ops[0].1), ops[1..], device);
    }
  }

  // ---- Every change of what a gateway is owed has a new version ----

  /** The peers `config` would answer are the same. */
  ghost predicate SameOwed(db: Db, db': Db, gateway: Id, now: int)
  {
    forall s :: (Selected(db, gateway, now, s) <==> Selected(db', gateway, now, s))
                && (Selected(db, gateway, now, s) ==> db.peers[s] == db'.peers[s])
  }

  ghost predicate Versioned(db: Db, db': Db, gateway: Id, now: int)
    requires gateway in db.gateways
  {
    gateway in db'.gateways && db'.gateways[gateway].version >= db.gateways[gateway].version
    && (db'.gateways[gateway].version == db.gateways[gateway].version ==> SameOwed(db, db', gateway, now))
  }

  lemma RevokedAllVersioned(db: Db, ids: set<Id>, gateway: Id, now: int)
    requires Consistent(db) && gateway in db.gateways
    ensures Versioned(db, RevokedAll(db, ids), gateway, now)
  {
    var db' := RevokedAll(db, ids);
    if db'.gateways[gateway].version == db.gateways[gateway].version {
      assert OfGateway(db, ids, gateway) == {};
      forall s | Selected(db, gateway, now, s) ensures s !in ids {
        assert s in ids ==> s in OfGateway(db, ids, gateway);
      }
    }
  }

  lemma CreatedVersioned(db: Db, r: CreateRequest, at: int, gateway: Id, now: int)
    requires Consistent(db) && gateway in db.gateways
    ensures Versioned(db, Created(db, r, at).0, gateway, now)
  {
    hide Versioned, Completed, NewSession, NewPeer;
    if Refused(db, r).None? {
      CreatedCases(db, r, at);
      match Created(db, r, at)
      case (_, Err(_)) => InsertedVersioned(db, r, at, gateway, now);
      case (_, Ok(ip)) => CompletedVersioned(db, r, ip, at, gateway, now);
    } else {
      assert Created(db, r, at).0 == db;
      SameVersioned(db, gateway, now);
    }
  }

  lemma SameVersioned(db: Db, gateway: Id, now: int)
    requires gateway in db.gateways
    ensures Versioned(db, db, gateway, now)
  {
  }

  lemma InsertedVersioned(db: Db, r: CreateRequest, at: int, gateway: Id, now: int)
    requires PeersOfSessions(db) && gateway in db.gateways && r.gateway.Some? && r.allowedFor.Some? && r.session !in db.sessions
    ensures Versioned(db, InsertSession(db, r.session, NewSession(r, 0, at)), gateway, now)
  {
    assert r.session !in db.peers;
  }

  lemma CompletedVersioned(db: Db, r: CreateRequest, ip: nat, at: int, gateway: Id, now: int)
    requires PeersOfSessions(db) && gateway in db.gateways && r.session !in db.sessions
    requires r.gateway.Some? && r.allowedFor.Some? && r.device in db.devices
    ensures Versioned(db, Completed(db, r, ip, at), gateway, now)
  {
    assert r.session !in db.peers;
    if gateway == r.gateway.value {
      assert Completed(db, r, ip, at).gateways[gateway].version == db.gateways[gateway].version + 1;
    }
  }

  /** Switching users and devices does not touch rows `config` reads. */
  lemma SwitchedVersioned(db: Db, db1: Db, ids: set<Id>, gateway: Id, now: int)
    requires Consistent(db) && gateway in db.gateways && db1 == db.(users := db1.users, devices := db1.devices)
    ensures Versioned(db, RevokedAll(db1, ids), gateway, now)
  {
    RevokedAllVersioned(db, ids, gateway, now);
    assert OfGateway(db1, ids, gateway) == OfGateway(db, ids, gateway);
    assert RevokedAll(db1, ids).gateways[gateway] == RevokedAll(db, ids).gateways[gateway];
    assert RevokedAll(db1, ids).peers == RevokedAll(db, ids).peers;
  }

  lemma UserUpdatedVersioned(db: Db, user: Id, active: Option<bool>, gateway: Id, now: int)
    requires Consistent(db) && gateway in db.gateways
    ensures Versioned(db, UserUpdated(db, user, active), gateway, now)
  {
    var db1 := if user in db.users && active.Some? then db.(users := db.users[user := active.value]) else db;
    SwitchedVersioned(db, db1, ActiveOfUser(db1, user), gateway, now);
  }

  lemma DeviceRevokedVersioned(db: Db, device: Id, gateway: Id, now: int)
    requires Consistent(db) && gateway in db.gateways
    ensures Versioned(db, DeviceRevoked(db, device), gateway, now)
  {
    if device in db.devices {
      var db1 := db.(devices := db.devices[device := db.devices[device].(revoked := true)]);
      SwitchedVersioned(db, db1, ActiveOfDevice(db1, device), gateway, now);
    }
  }

  lemma SweptVersioned(db: Db, other: Id, at: int, gateway: Id, now: int)
    requires Consistent(db) && gateway in db.gateways && at <= now
    ensures Versioned(db, Swept(db, other, at), gateway, now)
  {
  }

  /** Only rows of sessions that are not active go with a user. */
  lemma UserDeletedVersioned(db: Db, user: Id, gateway: Id, now: int)
    requires Consistent(db) && gateway in db.gateways
    ensures Versioned(db, UserDeleted(db, user), gateway, now)
  {
    var db1 := RevokedAll(db, ActiveOfUser(db, user));
    RevokedAllVersioned(db, ActiveOfUser(db, user), gateway, now);
    RevokedAllKeeps(db, ActiveOfUser(db, user));
    CascadedOwes(db1, user, gateway, now);
  }

  lemma CascadedOwes(db: Db, user: Id, gateway: Id, now: int)
    requires References(db) && PeersOfSessions(db) && ActiveOfUser(db, user) == {}
    ensures SameOwed(db, Cascaded(db, user), gateway, now)
  {
    forall s | Selected(db, gateway, now, s) ensures s !in SessionsGone(db, user) && s !in PeersGone(db, user) {
      assert s !in ActiveOfUser(db, user);
    }
  }

  lemma RevokedOneVersioned(db: Db, sid: Id, gateway: Id, now: int)
    requires Consistent(db) && gateway in db.gateways
    ensures Versioned(db, RevokedOne(db, sid), gateway, now)
  {
    RevokedOneIsAll(db, sid);
    RevokedAllVersioned(db, {sid}, gateway, now);
  }

  lemma RegisteredVersioned(db: Db, user: Id, device: Id, key: Key, gateway: Id, now: int)
    requires gateway in db.gateways
    ensures Versioned(db, DeviceRegistered(db, user, device, key).0, gateway, now)
  {
  }

  lemma EnrolledVersioned(db: Db, other: Id, serves: Option<Id>, gateway: Id, now: int)
    requires gateway in db.gateways
    ensures Versioned(db, Enrolled(db, other, serves), gateway, now)
  {
  }

  /** No operation changes what `config` answers for a gateway, then or later,
      without raising the gateway's version. */
  lemma ApplyVersioned(db: Db, op: Op, at: int, gateway: Id, now: int)
    requires Consistent(db) && gateway in db.gateways && at <= now
    ensures Versioned(db, Apply(db, op, at), gateway, now)
  {
    hide Consistent, Versioned, Created, RevokedOne, UserUpdated, UserDeleted, DeviceRevoked, Swept, DeviceRegistered, Enrolled;
    match op
    case CreateSession(request) => CreatedVersioned(db, request, at, gateway, now);
    case RevokeSession(session) => RevokedOneVersioned(db, session, gateway, now);
    case SetActive(user, value) => UserUpdatedVersioned(db, user, value, gateway, now);
    case DeleteUser(user) => UserDeletedVersioned(db, user, gateway, now);
    case RevokeDevice(device) => DeviceRevokedVersioned(db, device, gateway, now);
    case ServeConfig(other) => SweptVersioned(db, other, at, gateway, now);
    case RegisterDevice(owner, device, key) => RegisteredVersioned(db, owner, device, key, gateway, now);
    case Enroll(other, serves) => EnrolledVersioned(db, other, serves, gateway, now);
    case AddUser(user, active) => AddedVersioned(db, UserAdded(db, user, active), gateway, now);
    case AddNetwork(network, cidr) => AddedVersioned(db, NetworkAdded(db, network, cidr), gateway, now);
  }

  lemma AddedVersioned(db: Db, db': Db, gateway: Id, now: int)
    requires gateway in db.gateways && db' == db.(users := db'.users, networks := db'.networks)
    ensures Versioned(db, db', gateway, now)
  {
  }

  lemma VersionedThrough(db: Db, db1: Db, db2: Db, gateway: Id, now: int)
    requires gateway in db.gateways && Versioned(db, db1, gateway, now) && Versioned(db1, db2, gateway, now)
    ensures Versioned(db, db2, gateway, now)
  {
  }

  /** Two answers of `config` under one version name the same peers, whatever ran
      between them, but for those that ran out: of the rows it selected, the first
      would now select just those the second does. */
  lemma {:induction false} RunVersioned(db: Db, ops: seq<(Op, int)>, gateway: Id, now: int)
    requires Consistent(db) && gateway in db.gateways && forall op | op in ops :: op.1 <= now
    ensures Versioned(db, Run(db, ops), gateway, now)
    decreases |ops|
  {
    if ops != [] {
      assert ops[0] in ops && forall op | op in ops[1..] :: op in ops;
      var db1 := Apply(db, ops[0].0, ops[0].1);
      ApplyVersioned(db, ops[0].0, ops[0].1, gateway, now);
      ApplyKeeps(db, ops[0].0, ops[0].1);
      RunVersioned(db1, ops[1..], gateway, now);
      VersionedThrough(db, db1, Run(db, ops), gateway, now);
    }
  }
}
