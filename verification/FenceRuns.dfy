/** What the invariant of `Fence` says of whole runs: when the interface is
    current, what a cut apply may leave on it, and when a heartbeat succeeds. */
module FenceRuns {
  import opened Text
  import opened Cidr
  import opened Tables
  import opened Fence
  import opened FenceGateway
  import R = Reconcile

  ghost predicate IsPath(site: Site, path: seq<State>)
  {
    path != [] && forall i | 0 <= i < |path| - 1 :: Next(site, path[i], path[i + 1])
  }

  lemma NextKeeps(site: Site, s: State, s': State)
    requires site.Valid() && Inv(site, s) && Next(site, s, s')
    ensures Inv(site, s')
  {
    var step: Step :| ControlStep(site, s, step, s') || GatewayStep(site, s, step, s');
    if ControlStep(site, s, step, s') {
      ControlKeeps(site, s, step, s');
    } else {
      GatewayKeeps(site, s, step, s');
    }
  }

  lemma {:induction false} PathKeeps(site: Site, path: seq<State>, n: nat)
    requires site.Valid() && IsPath(site, path) && Inv(site, path[0]) && n < |path|
    ensures Inv(site, path[n])
  {
    if n > 0 {
      PathKeeps(site, path, n - 1);
      assert Next(site, path[n - 1], path[n - 1 + 1]);
      NextKeeps(site, path[n - 1], path[n]);
    }
  }

  lemma RunKeeps(site: Site, run: seq<State>, n: nat)
    requires site.Valid() && IsRun(site, run) && n < |run|
    ensures Inv(site, run[n])
  {
    InitInv(site, run[0]);
    PathKeeps(site, run, n);
  }

  // ---- The fence ----

  /** Why a key may be on the interface with addresses: a session of this gateway
      made with it is live, ran out after the applied peers were selected, or is
      being revoked right now. */
  ghost predicate Justified(site: Site, s: State, sid: Id)
  {
    && sid in s.keys && sid in s.db.sessions && s.db.sessions[sid].gateway == site.gateway
    && (LiveRow(site, s, sid) || (RanOut(s, sid) && s.db.sessions[sid].expiresAt > s.selectedAt) || BeingRevoked(s, sid))
  }

  ghost predicate JustifiedKey(site: Site, s: State, k: Key)
  {
    exists sid :: Justified(site, s, sid) && s.keys[sid] == k
  }

  function Address(ip: nat): (n: IpNetwork)
  {
    Host(IpAddress(V4, ip))
  }

  /** The key of `sid` holds exactly the address that some justified session of
      the same key was given. */
  ghost predicate HoldsOwn(site: Site, s: State, sid: Id)
  {
    && sid in s.keys && s.keys[sid] in s.wire.peers
    && exists x :: Justified(site, s, x) && s.keys[x] == s.keys[sid] && x in s.given
                   && R.Owned(s.wire, s.keys[sid]) == {Address(s.given[x])}
  }

  /** Everything the control plane finished is on the wire: the key of each live
      session whose creation is over, holding an address of its own; and no other key
      all of whose addresses are managed, or that was ever written, holds any. A
      written key without a reason is there at all exactly when an apply was cut on it. */
  ghost predicate WireCurrent(site: Site, s: State)
  {
    && (forall sid | LiveRow(site, s, sid) && !BeingCreated(s, sid) :: HoldsOwn(site, s, sid))
    && (forall k | R.OwnsManaged(s.wire, k, site.Range()) :: JustifiedKey(site, s, k))
    && (forall k | k in s.written && !JustifiedKey(site, s, k) ::
          R.Owned(s.wire, k) == {} && (k in s.wire.peers <==> k in s.cut))
  }

  lemma AppliedJustified(site: Site, s: State, p: R.Peer)
    requires Inv(site, s) && s.lastVersion == Version(site, s) && p in s.applied
    ensures Justified(site, s, p.session) && s.keys[p.session] == p.key
  {
    assert GoodPeer(site, s, p) && Accounted(site, s, p.session);
  }

  lemma LiveHolds(site: Site, s: State, sid: Id)
    requires site.Valid() && Inv(site, s) && s.lastVersion == Version(site, s) && LiveRow(site, s, sid) && !BeingCreated(s, sid)
    ensures HoldsOwn(site, s, sid)
  {
    hide GoodTables, GoodPhase, GoodWire, Site.Valid;
    var p :| p in s.applied && p.session == sid;
    assert GoodPeer(site, s, p) && p.key in R.Keys(s.applied);
    var q :| q in s.applied && q.key == p.key && R.Owned(s.wire, p.key) == R.Blocks(q.allowed);
    AppliedJustified(site, s, q);
    GoodPeerAsks(site, s, q);
  }

  /** The address it holds is a managed one. */
  lemma LiveManaged(site: Site, s: State, sid: Id)
    requires site.Valid() && Inv(site, s) && s.lastVersion == Version(site, s) && LiveRow(site, s, sid) && !BeingCreated(s, sid)
    ensures sid in s.keys && R.OwnsManaged(s.wire, s.keys[sid], site.Range())
  {
    hide GoodTables, GoodPhase, GoodWire, Site.Valid;
    var p :| p in s.applied && p.session == sid;
    assert GoodPeer(site, s, p) && p.key in R.Keys(s.applied);
    var q :| q in s.applied && q.key == p.key && R.Owned(s.wire, p.key) == R.Blocks(q.allowed);
    AppliedJustified(site, s, q);
    GoodPeerAsks(site, s, q);
  }

  lemma ManagedIsJustified(site: Site, s: State, k: Key)
    requires Inv(site, s) && s.lastVersion == Version(site, s) && R.OwnsManaged(s.wire, k, site.Range())
    ensures JustifiedKey(site, s, k)
  {
    var b :| b in R.Owned(s.wire, k);
    assert k in s.wire.peers;
    var p :| p in s.applied && p.key == k;
    AppliedJustified(site, s, p);
  }

  lemma CurrentWhenApplied(site: Site, s: State)
    requires site.Valid() && Inv(site, s) && s.lastVersion == Version(site, s)
    ensures WireCurrent(site, s)
  {
    forall sid | LiveRow(site, s, sid) && !BeingCreated(s, sid) ensures HoldsOwn(site, s, sid) {
      LiveHolds(site, s, sid);
    }
    forall k | R.OwnsManaged(s.wire, k, site.Range()) ensures JustifiedKey(site, s, k) {
      ManagedIsJustified(site, s, k);
    }
    forall k | k in s.written && !JustifiedKey(site, s, k)
      ensures R.Owned(s.wire, k) == {} && (k in s.wire.peers <==> k in s.cut)
    {
      assert !R.OwnsManaged(s.wire, k, site.Range());
      assert !Bare(s, k);
    }
  }

  /** In every interleaving, whenever the gateway has applied the version the
      tables hold, its interface reflects every completed operation. */
  lemma VersionFence(site: Site, run: seq<State>, n: nat)
    requires site.Valid() && IsRun(site, run) && n < |run|
    requires run[n].lastVersion == Version(site, run[n])
    ensures WireCurrent(site, run[n])
  {
    RunKeeps(site, run, n);
    CurrentWhenApplied(site, run[n]);
  }

  /** A finished revocation reaches the interface: once every session made with
      a key is revoked, and none of them is still being revoked, a gateway at the
      current version routes nothing to the key if it ever wrote it; and the key is
      gone unless an apply was cut between taking its last address and the key's own
      command, in which case it stays. */
  lemma RevokedIsGone(site: Site, run: seq<State>, n: nat, k: Key)
    requires site.Valid() && IsRun(site, run) && n < |run|
    requires run[n].lastVersion == Version(site, run[n]) && k in run[n].written
    requires forall sid | sid in run[n].keys && run[n].keys[sid] == k ::
               sid in run[n].db.sessions && run[n].db.sessions[sid].status == Revoked && !BeingRevoked(run[n], sid)
    ensures R.Owned(run[n].wire, k) == {}
    ensures k in run[n].wire.peers <==> k in run[n].cut
  {
    VersionFence(site, run, n);
  }

  /** A key with one session behind it holds that session's own address. */
  lemma SoleSessionHoldsAddress(site: Site, run: seq<State>, n: nat, sid: Id)
    requires site.Valid() && IsRun(site, run) && n < |run|
    requires run[n].lastVersion == Version(site, run[n]) && LiveRow(site, run[n], sid) && !BeingCreated(run[n], sid)
    requires forall x | Justified(site, run[n], x) && sid in run[n].keys && run[n].keys[x] == run[n].keys[sid] :: x == sid
    ensures sid in run[n].keys && R.Owned(run[n].wire, run[n].keys[sid]) == {Address(run[n].db.peers[sid].ip)}
  {
    RunKeeps(site, run, n);
    CurrentWhenApplied(site, run[n]);
    assert HoldsOwn(site, run[n], sid) && GoodRow(site, run[n], sid);
  }

  lemma CutByGateway(site: Site, s: State, step: Step, s': State)
    requires GatewayStep(site, s, step, s')
    ensures s'.cut <= s.cut || (s'.cut == CutAt(s) && s'.phase == Idle)
  {
    hide CutAt, IsSelection, R.IsDump, Planned, R.Exec1;
  }

  /** A key joins `cut` only when an apply ends early: after a command for another
      key, which left this one without addresses, and before this key's own. */
  lemma CutOnlyByCutting(site: Site, s: State, s': State, k: Key)
    requires Inv(site, s) && Next(site, s, s') && k !in s.cut && k in s'.cut
    ensures s.phase.Applying? && TakenFrom(s.phase.ran, k) && Pending(s.phase.todo, k) && s'.phase == Idle
    ensures k in s.written && k in s.wire.peers && R.Owned(s.wire, k) == {}
  {
    var step: Step :| ControlStep(site, s, step, s') || GatewayStep(site, s, step, s');
    if ControlStep(site, s, step, s') {
      ControlFrame(site, s, step, s');
    } else {
      CutByGateway(site, s, step, s');
      assert Bare(s, k);
    }
  }

  // ---- Rows ----

  /** The rows as far as access goes. */
  predicate RowsKept(db: Db, db': Db)
  {
    && db'.sessions.Keys == db.sessions.Keys
    && forall s | s in db.sessions ::
         && db'.sessions[s].user == db.sessions[s].user && db'.sessions[s].device == db.sessions[s].device
         && db'.sessions[s].status == db.sessions[s].status
  }

  lemma CreateKeepsRows(s: State, t: nat)
    requires t in s.tasks && s.tasks[t].Creating?
    ensures RowsKept(s.db, AdvanceCreate(s, t).db)
  {
    hide RowsKept, Allocate, AssignIp;
    var task, db' := s.tasks[t], AdvanceCreate(s, t).db;
    match task.create
    case Inserted =>
      AllocateKeepsSessions(s.db, task.network, task.sid);
      SameRows(s.db, db');
    case Given(ip) => AssignKeepsRows(s.db, task.sid, ip);
    case Assigned(_) => SameRows(s.db, db');
    case PeerWritten => SameRows(s.db, db');
  }

  lemma AllocateKeepsSessions(db: Db, network: Id, session: Id)
    ensures Allocate(db, network, session).0.sessions == db.sessions
  {
  }

  lemma SameRows(db: Db, db': Db)
    requires db'.sessions == db.sessions
    ensures RowsKept(db, db')
  {
  }

  lemma AssignKeepsRows(db: Db, sid: Id, ip: nat)
    ensures RowsKept(db, AssignIp(db, sid, ip))
  {
  }

  lemma RevokeKeepsSessions(s: State, t: nat)
    requires t in s.tasks && s.tasks[t].Revoking?
    ensures AdvanceRevoke(s, t).db.sessions == s.db.sessions
  {
    hide Released;
    match s.tasks[t].revoke
    case Marked => assert DeletePeer(s.db, s.tasks[t].sid).sessions == s.db.sessions;
    case PeerGone => assert Release(s.db, s.tasks[t].sid).sessions == s.db.sessions;
    case AddressFree => assert BumpFor(s.db, s.tasks[t].sid).sessions == s.db.sessions;
  }

  lemma RevokeKeepsRows(s: State, t: nat)
    requires t in s.tasks && s.tasks[t].Revoking?
    ensures RowsKept(s.db, AdvanceRevoke(s, t).db)
  {
    hide RowsKept;
    RevokeKeepsSessions(s, t);
    SameRows(s.db, AdvanceRevoke(s, t).db);
  }

  // ---- One heartbeat ----

  /** What the gateway does between a heartbeat and the next, when nothing fails. */
  predicate IsWork(step: Step)
  {
    step.ExpireOwn? || step.DeleteOwn? || step.Select? || step.Skip? || step.BeginApply? || step.RunCommand? || step.FinishApply?
  }

  ghost predicate Working(site: Site, s: State, s': State)
  {
    exists step :: IsWork(step) && GatewayStep(site, s, step, s') && (s'.phase.Answered? ==> s'.phase.config.listenPort != 0)
  }

  /** A heartbeat and the work after it, as far as it has come. */
  ghost predicate IsBeat(site: Site, beat: seq<State>)
  {
    && |beat| >= 2 && beat[0].phase == Idle && GatewayStep(site, beat[0], Heartbeat, beat[1])
    && forall i | 1 <= i < |beat| - 1 :: Working(site, beat[i], beat[i + 1])
  }

  /** Every key the gateway would be sent now is one its `wg` takes. */
  predicate KeysTaken(site: Site, s: State)
  {
    forall sid | sid in s.db.peers && LiveRow(site, s, sid) :: site.isKey(s.db.peers[sid].key)
  }

  /** What the gateway would be sent does not change while only it moves. */
  ghost predicate SameSelection(site: Site, s: State, s': State)
  {
    && s'.now == s.now && Version(site, s') == Version(site, s)
    && forall sid :: (LiveRow(site, s', sid) <==> LiveRow(site, s, sid))
                     && (LiveRow(site, s, sid) ==> s'.db.peers[sid] == s.db.peers[sid])
  }

  lemma StepSameSelection(site: Site, s: State, step: Step, s': State)
    requires Inv(site, s) && GatewayStep(site, s, step, s')
    ensures SameSelection(site, s, s')
  {
    if step.ExpireOwn? || step.DeleteOwn? {
      OwnSameSelection(site, s, s');
    }
  }

  lemma OwnSameSelection(site: Site, s: State, s': State)
    requires GoodTables(site, s) && s'.now == s.now
    requires s'.db == ExpireSessions(s.db, site.gateway, s.now) || s'.db == DeleteExpired(s.db, site.gateway, s.now)
    ensures SameSelection(site, s, s')
  {
    forall sid ensures LiveRow(site, s', sid) <==> LiveRow(site, s, sid) {
      assert sid in s.db.peers ==> GoodRow(site, s, sid);
    }
  }

  /** Where a beat is, if every selected key is taken. */
  ghost predicate OnTrack(site: Site, s: State)
  {
    && KeysTaken(site, s)
    && match s.phase
       case Idle => s.lastVersion == Version(site, s)
       case VersionRead(v) => v == Version(site, s)
       case SessionsExpired(v) => v == Version(site, s)
       case PeersDeleted(v) => v == Version(site, s)
       case Answered(c) =>
         && c.version == Version(site, s) && c.listenPort != 0 && s.now <= c.expiresAt
         && forall p | p in c.peers :: site.isKey(p.key) && R.Acceptable(p, s.now)
       case Applying(c, _, todo) => c.version == Version(site, s) && forall p | p in c.peers :: site.isKey(p.key)
  }

  lemma SelectionTaken(site: Site, s: State, peers: seq<R.Peer>)
    requires site.Valid() && GoodTables(site, s) && IsSelection(peers, site, s) && KeysTaken(site, s)
    ensures forall p | p in peers :: site.isKey(p.key) && R.Acceptable(p, s.now)
  {
    SelectionUpToDate(site, s, peers);
    forall p | p in peers ensures R.Acceptable(p, s.now) {
      GoodPeerAsks(site, s, p);
    }
  }

  lemma TakenStays(site: Site, s: State, s': State)
    requires KeysTaken(site, s) && SameSelection(site, s, s')
    ensures KeysTaken(site, s') && Version(site, s') == Version(site, s) && s'.now == s.now
  {
  }

  lemma SameThrough(site: Site, s: State, s1: State, s2: State)
    requires SameSelection(site, s, s1) && SameSelection(site, s1, s2)
    ensures SameSelection(site, s, s2)
  {
  }

  lemma InvTables(site: Site, s: State)
    requires Inv(site, s)
    ensures GoodTables(site, s)
  {
  }

  lemma SelectsOnTrack(site: Site, s: State, s': State)
    requires site.Valid() && GoodTables(site, s) && OnTrack(site, s) && Selects(site, s, s') && s'.phase.config.listenPort != 0
    requires KeysTaken(site, s') && Version(site, s') == Version(site, s)
    ensures OnTrack(site, s')
  {
    hide GoodTables, KeysTaken, IsSelection, R.Acceptable;
    SelectionTaken(site, s, s'.phase.config.peers);
  }

  lemma WorkOnTrack(site: Site, s: State, s': State)
    requires site.Valid() && Inv(site, s) && OnTrack(site, s) && Working(site, s, s')
    ensures OnTrack(site, s') && SameSelection(site, s, s')
  {
    hide Inv, KeysTaken, SameSelection, GoodTables, OnTrack, GatewayStep;
    var step :| IsWork(step) && GatewayStep(site, s, step, s') && (s'.phase.Answered? ==> s'.phase.config.listenPort != 0);
    StepSameSelection(site, s, step, s');
    TrackTaken(site, s);
    TakenStays(site, s, s');
    if step.Select? {
      InvTables(site, s);
      SelectedAnswers(site, s, s');
      SelectsOnTrack(site, s, s');
    } else {
      OthersOnTrack(site, s, step, s');
    }
  }

  lemma TrackTaken(site: Site, s: State)
    requires OnTrack(site, s)
    ensures KeysTaken(site, s)
  {
  }

  lemma SelectedAnswers(site: Site, s: State, s': State)
    requires GatewayStep(site, s, Select, s')
    ensures Selects(site, s, s') && s'.phase.Answered?
  {
    hide IsSelection;
  }

  lemma OthersOnTrack(site: Site, s: State, step: Step, s': State)
    requires OnTrack(site, s) && GatewayStep(site, s, step, s') && IsWork(step) && !step.Select?
    requires KeysTaken(site, s') && Version(site, s') == Version(site, s) && s'.now == s.now
    ensures OnTrack(site, s')
  {
    hide KeysTaken, Version, R.Acceptable, R.IsDump, Planned, R.Accepts, R.Exec1;
  }

  lemma SelectionExists(site: Site, s: State) returns (peers: seq<R.Peer>)
    ensures IsSelection(peers, site, s)
  {
    var ids := ListOf(set sid | sid in s.db.peers && LiveRow(site, s, sid));
    peers := seq(|ids|, i requires 0 <= i < |ids| =>
      if ids[i] in s.db.peers then AsPeer(ids[i], s.db.peers[ids[i]]) else R.Peer("", [], 0, 0));
    forall p | p in peers ensures LiveRow(site, s, p.session) && p == AsPeer(p.session, s.db.peers[p.session]) {
      var i :| 0 <= i < |peers| && peers[i] == p;
      assert ids[i] in ids;
    }
    forall sid | LiveRow(site, s, sid) ensures AsPeer(sid, s.db.peers[sid]) in peers {
      assert sid in ids;
      var i :| 0 <= i < |ids| && ids[i] == sid;
      assert peers[i] == AsPeer(sid, s.db.peers[sid]);
    }
  }

  lemma {:induction false} ListOf<T>(xs: set<T>) returns (list: seq<T>)
    ensures forall x :: x in list <==> x in xs
    ensures forall i, j | 0 <= i < j < |list| :: list[i] != list[j]
  {
    if xs == {} {
      list := [];
    } else {
      var x :| x in xs;
      var rest := ListOf(xs - {x});
      list := [x] + rest;
    }
  }

  lemma BlocksListed(blocks: set<Net>) returns (allowed: seq<R.AllowedIp>)
    ensures R.Lists(allowed, blocks)
  {
    var list := ListOf(blocks);
    allowed := seq(|list|, i requires 0 <= i < |list| => R.Block(list[i]));
    forall x ensures x in allowed <==> x.Block? && x.net in blocks {
      if x.Block? && x.net in blocks {
        var i :| 0 <= i < |list| && list[i] == x.net;
        assert allowed[i] == x;
      }
      if x in allowed {
        var i :| 0 <= i < |allowed| && allowed[i] == x;
        assert list[i] in list;
      }
    }
  }

  lemma {:induction false} DumpOf(w: R.Interface, keys: set<Key>) returns (live: seq<R.LivePeer>)
    ensures forall i, j | 0 <= i < j < |live| :: live[i].key != live[j].key
    ensures forall p | p in live :: p.key in keys && R.Lists(p.allowed, R.Owned(w, p.key))
    ensures forall k | k in keys :: exists p | p in live :: p.key == k
  {
    if keys == {} {
      live := [];
    } else {
      var k :| k in keys;
      var allowed := BlocksListed(R.Owned(w, k));
      var rest := DumpOf(w, keys - {k});
      live := [R.LivePeer(k, allowed)] + rest;
      forall j ensures j in keys ==> exists p | p in live :: p.key == j {
        if j == k {
          assert live[0] in live;
        } else if j in keys {
          assert j in keys - {k};
          var p :| p in rest && p.key == j;
          assert p in live;
        }
      }
      assert forall i | 0 <= i < |rest| :: rest[i] in rest;
    }
  }

  lemma DumpExists(w: R.Interface) returns (live: seq<R.LivePeer>)
    ensures R.IsDump(live, w)
  {
    live := DumpOf(w, w.peers);
  }

  /** Work that is on track has a next step until it is done. */
  lemma WorkGoesOn(site: Site, s: State) returns (s': State)
    requires site.Valid() && Inv(site, s) && OnTrack(site, s) && s.phase != Idle
    ensures Working(site, s, s')
  {
    hide Inv, OnTrack, Selects, Begins, RunsNext;
    var step: Step;
    match s.phase {
      case VersionRead(v) =>
        step, s' := ExpireOwn, s.(db := ExpireSessions(s.db, site.gateway, s.now), phase := SessionsExpired(v));
      case SessionsExpired(v) =>
        step, s' := DeleteOwn, s.(db := DeleteExpired(s.db, site.gateway, s.now), phase := PeersDeleted(v));
      case PeersDeleted(v) =>
        step := Select;
        s' := SelectsNext(site, s);
      case Answered(c) =>
        if c.version == s.lastVersion {
          step, s' := Skip, s.(phase := Idle);
        } else {
          step := BeginApply;
          s' := BeginsNext(site, s);
        }
      case Applying(c, ran, todo) =>
        if todo == [] {
          step, s' := FinishApply, s.(lastVersion := c.version, applied := c.peers, selectedAt := c.expiresAt - LIFETIME, phase := Idle);
        } else {
          step := RunCommand;
          s' := RunsOne(site, s);
        }
    }
    assert GatewayStep(site, s, step, s');
  }

  lemma SelectsNext(site: Site, s: State) returns (s': State)
    requires s.phase.PeersDeleted?
    ensures Selects(site, s, s') && s'.phase.Answered? && s'.phase.config.listenPort != 0
  {
    hide IsSelection;
    var peers := SelectionExists(site, s);
    s' := s.(phase := Answered(R.GatewayConfig(s.phase.version, s.now + LIFETIME, 51820, Some(site.cidr), peers)));
  }

  lemma BeginsNext(site: Site, s: State) returns (s': State)
    requires OnTrack(site, s) && s.phase.Answered? && s.phase.config.version != s.lastVersion
    ensures Begins(site, s, s') && s'.phase.Applying?
  {
    hide R.Acceptable, R.IsDump, Planned;
    var live := DumpExists(s.wire);
    s' := s.(phase := Applying(s.phase.config, [], Planned(site, s.phase.config, live)));
  }

  lemma RunsOne(site: Site, s: State) returns (s': State)
    requires site.Valid() && Inv(site, s) && OnTrack(site, s) && s.phase.Applying? && s.phase.todo != []
    ensures RunsNext(site, s, s') && s'.phase.Applying?
  {
    hide Inv, R.Accepts, R.Exec1;
    NextAccepted(site, s);
    var c := s.phase.todo[0];
    s' := s.(wire := R.Exec1(s.wire, c), phase := Applying(s.phase.config, s.phase.ran + [c], s.phase.todo[1..]),
             written := if c.SetPeer? then s.written + {c.key} else s.written, cut := s.cut - {c.key});
  }

  lemma NextAccepted(site: Site, s: State)
    requires site.Valid() && Inv(site, s) && s.phase.Applying? && s.phase.todo != []
    requires forall p | p in s.phase.config.peers :: site.isKey(p.key)
    ensures R.Accepts(site.isKey, s.phase.todo[0])
  {
    var c := s.phase.todo[0];
    assert c in s.phase.todo;
    if c.SetPeer? {
      NextAsks(site, s);
    }
  }

  /** How much work is left: readings, then commands. */
  function WorkLeft(s: State): (r: (nat, nat))
  {
    match s.phase
    case Idle => (0, 0)
    case Applying(_, _, todo) => (1, |todo|)
    case Answered(_) => (2, 0)
    case PeersDeleted(_) => (3, 0)
    case SessionsExpired(_) => (4, 0)
    case VersionRead(_) => (5, 0)
  }

  predicate LessWork(s': State, s: State)
  {
    WorkLeft(s').0 < WorkLeft(s).0 || (WorkLeft(s').0 == WorkLeft(s).0 && WorkLeft(s').1 < WorkLeft(s).1)
  }

  lemma WorkEnds(site: Site, s: State, s': State)
    requires Working(site, s, s')
    ensures LessWork(s', s)
  {
    hide IsSelection, R.Exec1, Planned, CutAt, R.IsDump, ExpireSessions, DeleteExpired;
    var step :| IsWork(step) && GatewayStep(site, s, step, s') && (s'.phase.Answered? ==> s'.phase.config.listenPort != 0);
  }

  lemma WorkKeeps(site: Site, s: State, s': State)
    requires site.Valid() && Inv(site, s) && Working(site, s, s')
    ensures Inv(site, s')
  {
    hide Inv;
    var step :| IsWork(step) && GatewayStep(site, s, step, s');
    GatewayKeeps(site, s, step, s');
  }

  lemma BeatStarts(site: Site, s: State, s': State)
    requires site.Valid() && Inv(site, s) && KeysTaken(site, s) && GatewayStep(site, s, Heartbeat, s')
    ensures Inv(site, s') && OnTrack(site, s') && SameSelection(site, s, s')
  {
    hide Inv, KeysTaken, SameSelection;
    GatewayKeeps(site, s, Heartbeat, s');
    StepSameSelection(site, s, Heartbeat, s');
    TakenStays(site, s, s');
  }

  lemma {:induction false} BeatOnTrack(site: Site, beat: seq<State>, n: nat)
    requires site.Valid() && IsBeat(site, beat) && Inv(site, beat[0]) && KeysTaken(site, beat[0]) && 1 <= n < |beat|
    ensures Inv(site, beat[n]) && OnTrack(site, beat[n]) && SameSelection(site, beat[0], beat[n])
  {
    hide Inv, KeysTaken, SameSelection, OnTrack, Working;
    if n == 1 {
      BeatStarts(site, beat[0], beat[1]);
    } else {
      BeatOnTrack(site, beat, n - 1);
      assert Working(site, beat[n - 1], beat[n - 1 + 1]);
      WorkOnTrack(site, beat[n - 1], beat[n]);
      SameThrough(site, beat[0], beat[n - 1], beat[n]);
      WorkKeeps(site, beat[n - 1], beat[n]);
    }
  }

  /** When every selected key is taken, every heartbeat in which nothing fails and
      nothing but the gateway moves, answered with any port but zero, goes on until
      the gateway is at the current version; and it ends, as every step it can take
      next leaves less work. */
  lemma HeartbeatSucceeds(site: Site, beat: seq<State>) returns (next: State)
    requires site.Valid() && IsBeat(site, beat) && Inv(site, beat[0]) && KeysTaken(site, beat[0])
    ensures var e := beat[|beat| - 1];
            if e.phase == Idle then e.lastVersion == Version(site, e) == Version(site, beat[0]) && WireCurrent(site, e)
            else Working(site, e, next) && forall s' | Working(site, e, s') :: LessWork(s', e)
  {
    var e := beat[|beat| - 1];
    BeatOnTrack(site, beat, |beat| - 1);
    if e.phase == Idle {
      CurrentWhenApplied(site, e);
      next := e;
    } else {
      next := WorkGoesOn(site, e);
      forall s' | Working(site, e, s') ensures LessWork(s', e) {
        WorkEnds(site, e, s');
      }
    }
  }

  // ---- A key `wg` refuses ----

  /** One desired key that `wg` refuses holds up the whole plan: no removal of it
      has run, and it cannot finish. */
  lemma BadKeyBlocks(site: Site, s: State, p: R.Peer)
    requires Inv(site, s) && s.phase.Applying? && p in s.phase.config.peers && !site.isKey(p.key)
    ensures s.phase.todo != [] && Pending(s.phase.todo, p.key)
    ensures forall c | c in s.phase.ran :: c.SetPeer?
  {
    var ran, todo := s.phase.ran, s.phase.todo;
    var d :| d in todo && d.key == p.key;
    var j :| 0 <= j < |todo| && todo[j] == d;
    assert d.SetPeer?;
    forall c | c in ran ensures c.SetPeer? {
      var i :| 0 <= i < |ran| && ran[i] == c;
      assert (ran + todo)[i] == c && (ran + todo)[|ran| + j] == d;
    }
  }

  ghost predicate HasBad(site: Site, peers: seq<R.Peer>)
  {
    exists p | p in peers :: !site.isKey(p.key)
  }

  /** Every selected row whose key `wg` refuses has run out by `at`. */
  predicate RefusedRunOut(site: Site, s: State, at: int)
  {
    forall sid | sid in s.db.peers && LiveRow(site, s, sid) && !site.isKey(s.db.peers[sid].key) :: s.db.peers[sid].expiresAt <= at
  }

  /** Out of date, and sent until after `at` a key `wg` refuses. */
  ghost predicate Blocked(site: Site, s: State, at: int)
  {
    && s.lastVersion != Version(site, s) && s.now <= at && !RefusedRunOut(site, s, at)
    && (s.phase.Answered? || s.phase.Applying? ==> HasBad(site, s.phase.config.peers))
  }

  lemma SelectionHasBad(site: Site, s: State, peers: seq<R.Peer>)
    requires IsSelection(peers, site, s) && !KeysTaken(site, s)
    ensures HasBad(site, peers)
  {
    var sid :| sid in s.db.peers && LiveRow(site, s, sid) && !site.isKey(s.db.peers[sid].key);
    assert AsPeer(sid, s.db.peers[sid]) in peers;
  }

  lemma RunOutSame(site: Site, s: State, s': State, at: int)
    requires SameSelection(site, s, s')
    ensures RefusedRunOut(site, s', at) <==> RefusedRunOut(site, s, at)
  {
  }

  lemma BlockedTicks(site: Site, s: State, s': State, at: int)
    requires Blocked(site, s, at) && ControlStep(site, s, Tick, s') && s'.now <= at
    ensures Blocked(site, s', at)
  {
    var sid :| sid in s.db.peers && LiveRow(site, s, sid) && !site.isKey(s.db.peers[sid].key) && s.db.peers[sid].expiresAt > at;
    assert LiveRow(site, s', sid);
  }

  lemma BlockedStays(site: Site, s: State, step: Step, s': State, at: int)
    requires Inv(site, s) && Blocked(site, s, at) && GatewayStep(site, s, step, s')
    ensures Blocked(site, s', at)
  {
    hide RefusedRunOut;
    StepSameSelection(site, s, step, s');
    RunOutSame(site, s, s', at);
    NotAllTaken(site, s, at);
    if step.Select? {
      SelectionHasBad(site, s, s'.phase.config.peers);
    } else if step.FinishApply? {
      var p :| p in s.phase.config.peers && !site.isKey(p.key);
      BadKeyBlocks(site, s, p);
    }
  }

  lemma NotAllTaken(site: Site, s: State, at: int)
    requires !RefusedRunOut(site, s, at)
    ensures !KeysTaken(site, s)
  {
  }

  ghost predicate GatewayMoves(site: Site, s: State, s': State)
  {
    exists step: Step :: GatewayStep(site, s, step, s') || (step.Tick? && ControlStep(site, s, step, s'))
  }

  /** Only the gateway and the clock move; anything may fail. */
  ghost predicate GatewayPath(site: Site, path: seq<State>)
  {
    path != [] && forall i | 0 <= i < |path| - 1 :: GatewayMoves(site, path[i], path[i + 1])
  }

  lemma MovesKeep(site: Site, s: State, s': State)
    requires site.Valid() && Inv(site, s) && GatewayMoves(site, s, s')
    ensures Inv(site, s') && s.now <= s'.now
  {
    hide Inv;
    var step: Step :| GatewayStep(site, s, step, s') || (step.Tick? && ControlStep(site, s, step, s'));
    if GatewayStep(site, s, step, s') {
      GatewayKeeps(site, s, step, s');
      StepSameSelection(site, s, step, s');
    } else {
      ControlKeeps(site, s, step, s');
    }
  }

  lemma {:induction false} MovesThrough(site: Site, path: seq<State>, n: nat, m: nat)
    requires site.Valid() && GatewayPath(site, path) && Inv(site, path[0]) && n <= m < |path|
    ensures Inv(site, path[m]) && path[n].now <= path[m].now
  {
    hide Inv, GatewayMoves;
    if n < m {
      MovesThrough(site, path, n, m - 1);
      assert GatewayMoves(site, path[m - 1], path[m - 1 + 1]);
      MovesKeep(site, path[m - 1], path[m]);
    } else if m > 0 {
      MovesThrough(site, path, m - 1, m - 1);
      assert GatewayMoves(site, path[m - 1], path[m - 1 + 1]);
      MovesKeep(site, path[m - 1], path[m]);
    }
  }

  lemma BlockedMoves(site: Site, s: State, s': State, at: int)
    requires Inv(site, s) && Blocked(site, s, at) && GatewayMoves(site, s, s') && s'.now <= at
    ensures Blocked(site, s', at)
  {
    hide Inv, Blocked;
    var step: Step :| GatewayStep(site, s, step, s') || (step.Tick? && ControlStep(site, s, step, s'));
    if GatewayStep(site, s, step, s') {
      BlockedStays(site, s, step, s', at);
    } else {
      BlockedTicks(site, s, s', at);
    }
  }

  lemma {:induction false} BlockedThrough(site: Site, path: seq<State>, n: nat, at: int)
    requires site.Valid() && GatewayPath(site, path) && Inv(site, path[0]) && Blocked(site, path[0], at)
    requires n < |path| && path[|path| - 1].now <= at
    ensures Blocked(site, path[n], at)
  {
    hide Inv, Blocked, GatewayMoves;
    if n > 0 {
      BlockedThrough(site, path, n - 1, at);
      assert GatewayMoves(site, path[n - 1], path[n - 1 + 1]);
      MovesThrough(site, path, n, |path| - 1);
      MovesThrough(site, path, 0, n - 1);
      BlockedMoves(site, path[n - 1], path[n], at);
    }
  }

  /** A heartbeat that is on track can be completed. */
  lemma {:induction false} Completes(site: Site, beat: seq<State>) returns (longer: seq<State>)
    requires site.Valid() && IsBeat(site, beat) && Inv(site, beat[0]) && KeysTaken(site, beat[0])
    ensures IsBeat(site, longer) && beat <= longer && longer[|longer| - 1].phase == Idle
    decreases WorkLeft(beat[|beat| - 1]).0, WorkLeft(beat[|beat| - 1]).1
  {
    hide Inv, KeysTaken, WireCurrent;
    var next := HeartbeatSucceeds(site, beat);
    if beat[|beat| - 1].phase == Idle {
      longer := beat;
    } else {
      longer := Completes(site, beat + [next]);
    }
  }

  lemma WorkMoves(site: Site, s: State, s': State)
    requires Working(site, s, s')
    ensures GatewayMoves(site, s, s')
  {
  }

  lemma BeatIsPath(site: Site, beat: seq<State>)
    requires IsBeat(site, beat)
    ensures GatewayPath(site, beat)
  {
    assert GatewayMoves(site, beat[0], beat[1]);
    forall i | 0 < i < |beat| - 1 ensures GatewayMoves(site, beat[i], beat[i + 1]) {
      WorkMoves(site, beat[i], beat[i + 1]);
    }
  }

  lemma OneBeat(site: Site, s: State) returns (beat: seq<State>)
    requires site.Valid() && Inv(site, s) && s.phase == Idle && KeysTaken(site, s)
    ensures GatewayPath(site, beat) && beat[0] == s
    ensures var e := beat[|beat| - 1]; e.lastVersion == Version(site, e) == Version(site, s) && e.now == s.now
  {
    hide Inv, KeysTaken, WireCurrent;
    beat := [s, s.(phase := VersionRead(Version(site, s)))];
    beat := Completes(site, beat);
    var _ := HeartbeatSucceeds(site, beat);
    BeatOnTrack(site, beat, |beat| - 1);
    BeatIsPath(site, beat);
  }

  lemma TakenLater(site: Site, s: State, at: int)
    requires RefusedRunOut(site, s, at) && s.now <= at
    ensures KeysTaken(site, s.(now := at))
  {
    forall sid | sid in s.db.peers && LiveRow(site, s.(now := at), sid) ensures site.isKey(s.db.peers[sid].key) {
      assert LiveRow(site, s, sid);
    }
  }

  /** Wait until `at`, then one heartbeat. */
  lemma WaitAndBeat(site: Site, s: State, at: int) returns (path: seq<State>)
    requires site.Valid() && Inv(site, s) && s.phase == Idle && RefusedRunOut(site, s, at) && s.now <= at
    ensures GatewayPath(site, path) && path[0] == s && CurrentAt(site, path, at)
    ensures Version(site, path[|path| - 1]) == Version(site, s)
  {
    hide Inv, KeysTaken, RefusedRunOut;
    var later := s.(now := at);
    TakenLater(site, s, at);
    assert ControlStep(site, s, Tick, later);
    ControlKeeps(site, s, Tick, later);
    var beat := OneBeat(site, later);
    path := [s] + beat;
    forall i | 0 <= i < |path| - 1 ensures GatewayMoves(site, path[i], path[i + 1]) {
      if i > 0 {
        assert GatewayMoves(site, beat[i - 1], beat[i - 1 + 1]);
      }
    }
  }

  /** The path ends at `at`, at the current version. */
  ghost predicate CurrentAt(site: Site, path: seq<State>, at: int)
    requires path != []
  {
    var e := path[|path| - 1];
    e.now == at && e.lastVersion == Version(site, e)
  }

  /** Left to itself between two heartbeats, with the clock running, a gateway that
      is out of date can be at the current version at a time `at` if and only if every
      selected row whose key its `wg` refuses has run out by then. */
  lemma ReachesCurrentExactly(site: Site, run: seq<State>, at: int)
    requires site.Valid() && IsRun(site, run)
    requires var s := run[|run| - 1]; s.phase == Idle && s.lastVersion != Version(site, s) && s.now <= at
    ensures var s := run[|run| - 1];
            (exists path :: GatewayPath(site, path) && path[0] == s && CurrentAt(site, path, at)) <==> RefusedRunOut(site, s, at)
  {
    hide Inv, RefusedRunOut, GatewayMoves;
    var s := run[|run| - 1];
    RunKeeps(site, run, |run| - 1);
    if RefusedRunOut(site, s, at) {
      var path := WaitAndBeat(site, s, at);
    } else {
      forall path: seq<State> | GatewayPath(site, path) && path[0] == s ensures !CurrentAt(site, path, at) {
        if path[|path| - 1].now == at {
          BlockedThrough(site, path, |path| - 1, at);
        }
      }
    }
  }

  /** From any reachable state, once the rows with refused keys have run out and if the
      control plane pauses, the next heartbeat makes the gateway current. */
  lemma CatchesUp(site: Site, run: seq<State>, at: int) returns (longer: seq<State>)
    requires site.Valid() && IsRun(site, run)
    requires RefusedRunOut(site, run[|run| - 1], at) && run[|run| - 1].now <= at
    ensures IsRun(site, longer) && run <= longer
    ensures var s, e := run[|run| - 1], longer[|longer| - 1];
            e.now == at && e.lastVersion == Version(site, e) == Version(site, s) && WireCurrent(site, e)
  {
    hide Inv, WireCurrent;
    var s := run[|run| - 1];
    var idle := s.(phase := Idle, cut := CutAt(s));
    RunKeeps(site, run, |run| - 1);
    GatewayKeeps(site, s, Lose, idle);
    var path := WaitAndBeat(site, idle, at);
    longer := Joined(site, run, idle, path);
    VersionFence(site, longer, |longer| - 1);
  }

  /** No key `wg` refuses hides behind a current version: every live row whose creation
      is over has a key it takes. */
  lemma CurrentKeysTaken(site: Site, run: seq<State>, n: nat, sid: Id)
    requires site.Valid() && IsRun(site, run) && n < |run| && run[n].lastVersion == Version(site, run[n])
    requires LiveRow(site, run[n], sid) && !BeingCreated(run[n], sid)
    ensures site.isKey(run[n].db.peers[sid].key)
  {
    RunKeeps(site, run, n);
    CurrentWhenApplied(site, run[n]);
    assert HoldsOwn(site, run[n], sid) && GoodRow(site, run[n], sid);
  }

  lemma Joined(site: Site, run: seq<State>, next: State, path: seq<State>) returns (longer: seq<State>)
    requires IsRun(site, run) && GatewayStep(site, run[|run| - 1], Lose, next)
    requires GatewayPath(site, path) && path[0] == next
    ensures IsRun(site, longer) && run <= longer && longer[|longer| - 1] == path[|path| - 1]
  {
    longer := run + path;
    forall i | 0 <= i < |longer| - 1 ensures Next(site, longer[i], longer[i + 1]) {
      if i == |run| - 1 {
        assert longer[i] == run[|run| - 1] && longer[i + 1] == next;
      } else if i >= |run| {
        var j := i - |run|;
        assert longer[i] == path[j] && longer[i + 1] == path[j + 1];
        assert GatewayMoves(site, path[j], path[j + 1]);
      }
    }
  }

  // ---- The hypotheses are met ----

  /** An IPv4 network with no range set, or one that covers it, meets what the
      fence asks of a site. */
  lemma SiteExists(gateway: Id, network: Id, cidr: Net, managedRange: Option<Net>, privateKey: bool, isKey: Key -> bool)
    requires cidr.family == V4 && (managedRange.Some? ==> ContainsNetwork(managedRange.value, cidr))
    ensures Site(gateway, network, cidr, R.Settings(true, false, managedRange, privateKey), isKey).Valid()
  {
    NetworkAddressInside(cidr);
  }

  /** Any interface at all is a start: what it already carries does not matter. */
  lemma RunExists(site: Site, wire: R.Interface) returns (run: seq<State>)
    requires site.Valid() && wire.Valid(site.isKey)
    ensures IsRun(site, run) && run[0].wire == wire
  {
    var db := EMPTY.(networks := map[site.network := site.cidr],
                     gateways := map[site.gateway := GatewayRow(Some(site.network), 0)]);
    run := [State(db, 0, map[], Idle, -1, wire, map[], map[], {}, [], 0, {})];
  }
}
