/** The control plane's tables, and the single SQL statements that change them.
    Addresses are IPv4, as numbers; 0 is the placeholder 0.0.0.0. */
module Tables {
  import opened Text
  import opened Cidr
  import Reconcile

  type Id = nat
  type Key = Reconcile.Key

  datatype Status = Active | Expired | Revoked

  datatype Session = Session(user: Id, device: Id, gateway: Id, network: Id, ip: nat, status: Status, expiresAt: int)

  /** A row of `wireguard_peers`: its session, unique, is the key of the map. */
  datatype PeerRow = PeerRow(gateway: Id, device: Id, key: Key, ip: nat, expiresAt: int)

  datatype Device = Device(user: Id, key: Key, revoked: bool)

  datatype GatewayRow = GatewayRow(network: Option<Id>, version: nat)

  /** `users` keeps whether each is active. `allocations` has the primary key
      (network, address) and the session the address was given to, null once that
      session is deleted. */
  datatype Db = Db(users: map<Id, bool>, devices: map<Id, Device>, networks: map<Id, Net>,
                   gateways: map<Id, GatewayRow>, sessions: map<Id, Session>,
                   peers: map<Id, PeerRow>, allocations: map<(Id, nat), Option<Id>>)

  const EMPTY := Db(map[], map[], map[], map[], map[], map[], map[])

  // ---- Address allocation ----

  /** Not the network, gateway or broadcast address, going by the last octet. */
  predicate Eligible(a: nat)
  {
    a % 256 != 0 && a % 256 != 1 && a % 256 != 255
  }

  /** The first eligible address from `at` that is not held. */
  function FirstFree(at: nat, end: nat, held: set<nat>): (a: Option<nat>)
    decreases if at < end then end - at else 0
  {
    if at >= end then None
    else if Eligible(at) && at !in held then Some(at)
    else FirstFree(at + 1, end, held)
  }

  lemma {:induction false} FirstFreeIsFirst(at: nat, end: nat, held: set<nat>)
    ensures match FirstFree(at, end, held)
            case Some(a) => at <= a < end && Eligible(a) && a !in held
                            && forall b: nat | at <= b < a && Eligible(b) :: b in held
            case None => forall b: nat | at <= b < end && Eligible(b) :: b in held
    decreases if at < end then end - at else 0
  {
    if at < end && !(Eligible(at) && at !in held) {
      FirstFreeIsFirst(at + 1, end, held);
    }
  }

  function Held(db: Db, network: Id): (held: set<nat>)
  {
    set k | k in db.allocations && k.0 == network :: k.1
  }

  /** Reads the held addresses, takes the first free one and records it. */
  function Allocate(db: Db, network: Id, session: Id): (r: (Db, Option<nat>))
  {
    if network !in db.networks then (db, None)
    else
      var (first, end) := Bounds(db.networks[network]);
      match FirstFree(first, end, Held(db, network))
      case None => (db, None)
      case Some(a) => (db.(allocations := db.allocations[(network, a) := Some(session)]), Some(a))
  }

  /** `allocate` hands out the lowest eligible address of the network nobody
      holds, and reports exhaustion exactly when there is none. */
  lemma AllocateExactly(db: Db, network: Id, session: Id)
    requires network in db.networks && db.networks[network].family == V4
    ensures var (db', got) := Allocate(db, network, session);
            match got
            case None =>
              && db' == db
              && forall a: nat | Contains(db.networks[network], IpAddress(V4, a)) && Eligible(a) :: (network, a) in db.allocations
            case Some(a) =>
              && db' == db.(allocations := db.allocations[(network, a) := Some(session)])
              && Contains(db.networks[network], IpAddress(V4, a)) && Eligible(a) && (network, a) !in db.allocations
              && forall b: nat | b < a && Contains(db.networks[network], IpAddress(V4, b)) && Eligible(b) ::
                   (network, b) in db.allocations
  {
    var net := db.networks[network];
    var (first, end) := Bounds(net);
    var held := Held(db, network);
    FirstFreeIsFirst(first, end, held);
    forall a: nat ensures Contains(net, IpAddress(V4, a)) <==> first <= a < end {
      BoundsContain(net, a);
    }
    forall a: nat ensures a in held <==> (network, a) in db.allocations {
      assert (network, a).0 == network && (network, a).1 == a;
    }
  }

  // ---- Statements of `SessionService` ----

  function InsertSession(db: Db, sid: Id, row: Session): (db': Db)
  {
    db.(sessions := db.sessions[sid := row])
  }

  function AssignIp(db: Db, sid: Id, ip: nat): (db': Db)
  {
    if sid in db.sessions then db.(sessions := db.sessions[sid := db.sessions[sid].(ip := ip)]) else db
  }

  function InsertPeer(db: Db, sid: Id, row: PeerRow): (db': Db)
  {
    db.(peers := db.peers[sid := row])
  }

  function Bump(db: Db, gateway: Id): (db': Db)
  {
    if gateway in db.gateways
    then db.(gateways := db.gateways[gateway := db.gateways[gateway].(version := db.gateways[gateway].version + 1)])
    else db
  }

  /** `UPDATE sessions SET status = 'revoked' WHERE id = .. AND status = 'active'`. */
  predicate CanRevoke(db: Db, sid: Id)
  {
    sid in db.sessions && db.sessions[sid].status == Active
  }

  function MarkRevoked(db: Db, sid: Id): (db': Db)
  {
    if CanRevoke(db, sid) then db.(sessions := db.sessions[sid := db.sessions[sid].(status := Revoked)]) else db
  }

  function DeletePeer(db: Db, sid: Id): (db': Db)
  {
    db.(peers := db.peers - {sid})
  }

  function Released(allocations: map<(Id, nat), Option<Id>>, sid: Id): (allocations': map<(Id, nat), Option<Id>>)
  {
    map k | k in allocations && allocations[k] != Some(sid) :: allocations[k]
  }

  function Release(db: Db, sid: Id): (db': Db)
  {
    db.(allocations := Released(db.allocations, sid))
  }

  /** Bumps the gateway the session was made for. */
  function BumpFor(db: Db, sid: Id): (db': Db)
  {
    if sid in db.sessions then Bump(db, db.sessions[sid].gateway) else db
  }

  // ---- Statements of `GatewayService::config` ----

  function ExpireSessions(db: Db, gateway: Id, now: int): (db': Db)
  {
    db.(sessions := map s | s in db.sessions ::
          var row := db.sessions[s];
          if row.gateway == gateway && row.status == Active && row.expiresAt < now then row.(status := Expired) else row)
  }

  function DeleteExpired(db: Db, gateway: Id, now: int): (db': Db)
  {
    db.(peers := map s | s in db.peers && !(db.peers[s].gateway == gateway && db.peers[s].expiresAt < now) :: db.peers[s])
  }

  /** The rows `config` selects: of this gateway, unexpired, of an active session. */
  predicate Selected(db: Db, gateway: Id, now: int, sid: Id)
  {
    && sid in db.peers && db.peers[sid].gateway == gateway && db.peers[sid].expiresAt > now
    && sid in db.sessions && db.sessions[sid].status == Active
  }
}
