/** When a revocation gives the address of its session back, and when not: one that
    overtakes the creation leaves behind an address that is held for good. */
module FenceLeak {
  import opened Text
  import opened Cidr
  import opened Tables
  import opened Fence
  import opened FenceRuns
  import opened FenceCut

  predicate HeldByRevoked(db: Db, k: (Id, nat), sid: Id)
  {
    k in db.allocations && db.allocations[k] == Some(sid) && sid in db.sessions && db.sessions[sid].status == Revoked
  }

  predicate NothingFor(tasks: map<nat, Task>, sid: Id)
  {
    forall t | t in tasks :: tasks[t].sid != sid
  }

  /** An address of a revoked session that nothing in flight is about. */
  predicate Stranded(s: State, network: Id, ip: nat, sid: Id)
  {
    HeldByRevoked(s.db, (network, ip), sid) && NothingFor(s.tasks, sid)
  }

  lemma AllocateLeaves(db: Db, network: Id, session: Id, k: (Id, nat), sid: Id)
    requires HeldByRevoked(db, k, sid) && (network in db.networks ==> db.networks[network].family == V4)
    ensures HeldByRevoked(Allocate(db, network, session).0, k, sid)
  {
    if network in db.networks {
      AllocateExactly(db, network, session);
    }
  }

  lemma CreateStrands(s: State, t: nat, network: Id, ip: nat, sid: Id)
    requires t in s.tasks && s.tasks[t].Creating? && Stranded(s, network, ip, sid)
    requires s.tasks[t].network in s.db.networks ==> s.db.networks[s.tasks[t].network].family == V4
    ensures Stranded(AdvanceCreate(s, t), network, ip, sid)
  {
    var task := s.tasks[t];
    assert task.sid != sid;
    match task.create
    case Inserted =>
      AllocateLeaves(s.db, task.network, task.sid, (network, ip), sid);
      hide Allocate;
      assert HeldByRevoked(AdvanceCreate(s, t).db, (network, ip), sid);
    case Given(_) => assert HeldByRevoked(AdvanceCreate(s, t).db, (network, ip), sid);
    case Assigned(_) => assert HeldByRevoked(AdvanceCreate(s, t).db, (network, ip), sid);
    case PeerWritten => assert HeldByRevoked(AdvanceCreate(s, t).db, (network, ip), sid);
  }

  lemma RevokeLeaves(db: Db, other: Id, k: (Id, nat), sid: Id)
    requires HeldByRevoked(db, k, sid) && other != sid
    ensures HeldByRevoked(DeletePeer(db, other), k, sid) && HeldByRevoked(Release(db, other), k, sid)
    ensures HeldByRevoked(BumpFor(db, other), k, sid)
  {
  }

  lemma RevokeStrands(s: State, t: nat, network: Id, ip: nat, sid: Id)
    requires t in s.tasks && s.tasks[t].Revoking? && Stranded(s, network, ip, sid)
    ensures Stranded(AdvanceRevoke(s, t), network, ip, sid)
  {
    hide HeldByRevoked, DeletePeer, Release, BumpFor;
    var task := s.tasks[t];
    assert task.sid != sid;
    RevokeLeaves(s.db, task.sid, (network, ip), sid);
  }

  lemma ControlStrands(site: Site, s: State, step: Step, s': State, network: Id, ip: nat, sid: Id)
    requires GoodTables(site, s) && ControlStep(site, s, step, s') && Stranded(s, network, ip, sid)
    ensures Stranded(s', network, ip, sid)
  {
    match step
    case ContinueCreate(t) => CreateStrands(s, t, network, ip, sid);
    case ContinueRevoke(t) => RevokeStrands(s, t, network, ip, sid);
    case _ =>
  }

  lemma GatewayStrands(site: Site, s: State, step: Step, s': State, network: Id, ip: nat, sid: Id)
    requires GatewayStep(site, s, step, s') && Stranded(s, network, ip, sid)
    ensures Stranded(s', network, ip, sid)
  {
    hide IsSelection, Planned, CutAt;
  }

  /** No step ever frees such an address, whoever asks. */
  lemma {:induction false} StrandedForGood(site: Site, path: seq<State>, n: nat, network: Id, ip: nat, sid: Id)
    requires site.Valid() && IsPath(site, path) && Inv(site, path[0]) && n < |path|
    requires Stranded(path[0], network, ip, sid)
    ensures Stranded(path[n], network, ip, sid)
  {
    hide Inv, Stranded, ControlStep, GatewayStep;
    if n > 0 {
      var s, s' := path[n - 1], path[n - 1 + 1];
      StrandedForGood(site, path, n - 1, network, ip, sid);
      PathKeeps(site, path, n - 1);
      assert Next(site, s, s');
      InvTables(site, s);
      var step: Step :| ControlStep(site, s, step, s') || GatewayStep(site, s, step, s');
      if ControlStep(site, s, step, s') {
        ControlStrands(site, s, step, s', network, ip, sid);
      } else {
        GatewayStrands(site, s, step, s', network, ip, sid);
      }
    }
  }

  function Begun(site: Site, key: Key): (task: Task)
  {
    Creating(1, site.gateway, site.network, 0, key, EXPIRY, Inserted)
  }

  /** Session 1 is written, then revoked to the end, its creation still at the start. */
  lemma RevokedAtOnce(site: Site, key: Key) returns (run: seq<State>)
    requires site.Valid() && |key| >= 40
    ensures IsRun(site, run)
    ensures var e := run[|run| - 1];
            && e.tasks == map[0 := Begun(site, key)] && e.db.sessions == map[1 := RowOf(site).(status := Revoked)]
            && e.db.allocations == map[] && site.network in e.db.networks && e.db.networks[site.network] == site.cidr
  {
    run := Starts(site);
    var s := run[|run| - 1];
    var task := Begun(site, key);
    var s1 := s.(db := InsertSession(s.db, 1, RowOf(site)), keys := s.keys[1 := key], tasks := map[0 := task]);
    assert s.tasks[0 := task] == map[0 := task];
    run := Then(site, run, StartCreate(0, 1, RowOf(site), key), s1);
    run := RevokesBeside(site, run, task);
  }

  /** A revocation of session 1 from mark to bump, beside task 0. */
  lemma RevokesBeside(site: Site, run: seq<State>, task: Task) returns (longer: seq<State>)
    requires IsRun(site, run)
    requires var s := run[|run| - 1];
             s.tasks == map[0 := task] && s.db.sessions == map[1 := RowOf(site)] && s.db.allocations == map[]
    ensures IsRun(site, longer)
    ensures var s, e := run[|run| - 1], longer[|longer| - 1];
            && e.tasks == s.tasks && e.db.sessions == map[1 := RowOf(site).(status := Revoked)] && e.db.allocations == map[]
            && e.db.networks == s.db.networks
  {
    var s := run[|run| - 1];
    var s1 := s.(db := MarkRevoked(s.db, 1), tasks := s.tasks[1 := Revoking(1, Marked)]);
    longer := Then(site, run, StartRevoke(1, 1), s1);
    var s2 := AdvanceRevoke(s1, 1);
    longer := Then(site, longer, ContinueRevoke(1), s2);
    var s3 := AdvanceRevoke(s2, 1);
    longer := Then(site, longer, ContinueRevoke(1), s3);
    var s4 := AdvanceRevoke(s3, 1);
    longer := Then(site, longer, ContinueRevoke(1), s4);
    RevokedBeside(site, s, s1, s2, s3, s4);
  }

  lemma RevokedBeside(site: Site, s: State, s1: State, s2: State, s3: State, s4: State)
    requires s.tasks.Keys == {0} && s.db.sessions == map[1 := RowOf(site)] && s.db.allocations == map[]
    requires s1 == s.(db := MarkRevoked(s.db, 1), tasks := s.tasks[1 := Revoking(1, Marked)]) && s2 == AdvanceRevoke(s1, 1)
    requires 1 in s2.tasks && s2.tasks[1].Revoking? && s3 == AdvanceRevoke(s2, 1)
    requires 1 in s3.tasks && s3.tasks[1].Revoking? && s4 == AdvanceRevoke(s3, 1)
    ensures s4.tasks == s.tasks && s4.db.sessions == map[1 := RowOf(site).(status := Revoked)] && s4.db.allocations == map[]
    ensures s4.db.networks == s.db.networks
  {
    assert s3.db.allocations == map[];
    assert s4.tasks == s.tasks;
  }

  /** The rest of the creation. */
  lemma CreatesOn(site: Site, run: seq<State>, task: Task, ip: nat) returns (longer: seq<State>)
    requires IsRun(site, run) && task.Creating? && task.create == Inserted && task.network == site.network && task.sid == 1
    requires LowestFree(site) == Some(ip)
    requires var s := run[|run| - 1];
             && s.tasks == map[0 := task] && 1 in s.db.sessions && s.db.sessions[1].status == Revoked
             && s.db.allocations == map[] && site.network in s.db.networks && s.db.networks[site.network] == site.cidr
    ensures IsRun(site, longer)
    ensures var e := longer[|longer| - 1];
            && e.tasks == map[] && 1 in e.db.sessions && e.db.sessions[1].status == Revoked && 1 in e.db.peers
            && HoldsAddress(e, site.network, ip, 1)
  {
    var s := run[|run| - 1];
    AllocatesLowest(site, s.db, 1, ip);
    var s1 := AdvanceCreate(s, 0);
    longer := Then(site, run, ContinueCreate(0), s1);
    var s2 := AdvanceCreate(s1, 0);
    longer := Then(site, longer, ContinueCreate(0), s2);
    var s3 := AdvanceCreate(s2, 0);
    longer := Then(site, longer, ContinueCreate(0), s3);
    var s4 := AdvanceCreate(s3, 0);
    longer := Then(site, longer, ContinueCreate(0), s4);
    assert s4.tasks == map[];
  }

  /** For every site with an address to give there is a run after which a session
      revoked to the end, with nothing in flight, still has a peer row and an address. */
  lemma RevokedHoldsAddress(site: Site, key: Key, ip: nat) returns (run: seq<State>)
    requires site.Valid() && |key| >= 40 && LowestFree(site) == Some(ip)
    ensures IsRun(site, run)
    ensures var e := run[|run| - 1]; e.tasks == map[] && 1 in e.db.peers && Stranded(e, site.network, ip, 1)
  {
    run := RevokedAtOnce(site, key);
    run := CreatesOn(site, run, Begun(site, key), ip);
  }

  // ---- Exactly when ----

  /** A step that frees what the session holds: its revocation's `Release`. */
  ghost predicate Releases(s: State, s': State, sid: Id)
  {
    exists t :: Revokes(s, t, sid) && s.tasks[t].revoke.PeerGone? && Revokes(s', t, sid) && s'.tasks[t].revoke.AddressFree?
  }

  /** A step that gives it an address: its creation's `Allocate`, when it finds one. */
  ghost predicate Finds(s: State, s': State, sid: Id)
  {
    exists t :: Makes(s, t, sid) && s.tasks[t].create.Inserted? && Makes(s', t, sid) && s'.tasks[t].create.Given?
  }

  /** The session's creation has yet to allocate. */
  ghost predicate YetToAllocate(s: State, sid: Id)
  {
    exists t :: Makes(s, t, sid) && s.tasks[t].create.Inserted?
  }

  predicate Holds(s: State, sid: Id)
  {
    exists k | k in s.db.allocations :: s.db.allocations[k] == Some(sid)
  }

  predicate IsRevoked(s: State, sid: Id)
  {
    sid in s.db.sessions && s.db.sessions[sid].status == Revoked
  }

  /** Its one revocation, if any is in flight, has freed already. */
  ghost predicate PastRelease(s: State, sid: Id)
  {
    IsRevoked(s, sid) && forall t | Revokes(s, t, sid) :: s.tasks[t].revoke.AddressFree?
  }

  /** A session is revoked by one revocation only. */
  ghost predicate OneRevocation(s: State, sid: Id)
  {
    && (forall t | Revokes(s, t, sid) :: IsRevoked(s, sid))
    && forall t, u | Revokes(s, t, sid) && Revokes(s, u, sid) :: t == u
  }

  // A statement at a time.

  lemma AllocateHolds(s: State, t: nat, sid: Id)
    requires t in s.tasks && s.tasks[t].Creating? && s.tasks[t].create.Inserted?
    requires s.tasks[t].network in s.db.networks ==> s.db.networks[s.tasks[t].network].family == V4
    ensures Holds(AdvanceCreate(s, t), sid) <==> Holds(s, sid) || Finds(s, AdvanceCreate(s, t), sid)
  {
    var task, s' := s.tasks[t], AdvanceCreate(s, t);
    if task.network in s.db.networks {
      AllocateExactly(s.db, task.network, task.sid);
    }
    match Allocate(s.db, task.network, task.sid)
    case (_, None) =>
      assert s'.db.allocations == s.db.allocations && t !in s'.tasks;
    case (_, Some(ip)) =>
      FoundHolds(s, t, ip, sid);
  }

  lemma FoundHolds(s: State, t: nat, ip: nat, sid: Id)
    requires t in s.tasks && s.tasks[t].Creating? && s.tasks[t].create.Inserted?
    requires var task := s.tasks[t];
             && (task.network, ip) !in s.db.allocations
             && Allocate(s.db, task.network, task.sid)
                == (s.db.(allocations := s.db.allocations[(task.network, ip) := Some(task.sid)]), Some(ip))
    ensures Holds(AdvanceCreate(s, t), sid) <==> Holds(s, sid) || Finds(s, AdvanceCreate(s, t), sid)
  {
    hide Allocate;
    var task, s' := s.tasks[t], AdvanceCreate(s, t);
    assert Makes(s, t, task.sid) && Makes(s', t, task.sid);
    if Finds(s, s', sid) {
      assert task.sid == sid;
      assert (task.network, ip) in s'.db.allocations;
    }
    if Holds(s, sid) {
      var k :| k in s.db.allocations && s.db.allocations[k] == Some(sid);
      assert k in s'.db.allocations && s'.db.allocations[k] == Some(sid);
    }
  }

  lemma HoldsSame(s: State, s': State, sid: Id)
    requires s'.db.allocations == s.db.allocations
    ensures Holds(s', sid) <==> Holds(s, sid)
  {
  }

  /** Only the first statement of a creation finds anything. */
  lemma FindsNone(s: State, s': State, t: nat, sid: Id)
    requires OthersKept(s, s', t) && (t in s.tasks && s.tasks[t].Creating? ==> !s.tasks[t].create.Inserted?)
    ensures !Finds(s, s', sid)
  {
  }

  lemma WriteAllocatesNone(s: State, t: nat)
    requires t in s.tasks && s.tasks[t].Creating? && !s.tasks[t].create.Inserted?
    ensures AdvanceCreate(s, t).db.allocations == s.db.allocations && OthersKept(s, AdvanceCreate(s, t), t)
  {
    hide Allocate;
    match s.tasks[t].create
    case Given(_) =>
    case Assigned(_) =>
    case PeerWritten =>
  }

  /** No other statement of a creation allocates. */
  lemma WriteHolds(s: State, t: nat, sid: Id)
    requires t in s.tasks && s.tasks[t].Creating? && !s.tasks[t].create.Inserted?
    ensures Holds(AdvanceCreate(s, t), sid) <==> Holds(s, sid)
    ensures !Finds(s, AdvanceCreate(s, t), sid)
  {
    hide Holds, Finds, AdvanceCreate, OthersKept;
    WriteAllocatesNone(s, t);
    HoldsSame(s, AdvanceCreate(s, t), sid);
    FindsNone(s, AdvanceCreate(s, t), t, sid);
  }

  lemma SameTasksHold(s: State, s': State, sid: Id)
    requires s'.db.allocations == s.db.allocations && (forall t | Makes(s, t, sid) :: t in s'.tasks ==> s'.tasks[t] == s.tasks[t])
    ensures (Holds(s', sid) <==> Holds(s, sid)) && !Finds(s, s', sid)
  {
  }

  lemma RevokeHolds(s: State, t: nat, sid: Id)
    requires t in s.tasks && s.tasks[t].Revoking? && (s.tasks[t].sid == sid ==> !s.tasks[t].revoke.PeerGone?)
    ensures (Holds(AdvanceRevoke(s, t), sid) <==> Holds(s, sid)) && !Finds(s, AdvanceRevoke(s, t), sid)
  {
    var s' := AdvanceRevoke(s, t);
    if Holds(s, sid) {
      var k :| k in s.db.allocations && s.db.allocations[k] == Some(sid);
      assert k in s'.db.allocations && s'.db.allocations[k] == Some(sid);
    }
  }

  /** After its release, a session comes to hold an address only by its own
      allocation, and loses none. */
  lemma PastHolds(site: Site, s: State, step: Step, s': State, sid: Id)
    requires GoodTables(site, s) && PastRelease(s, sid) && ControlStep(site, s, step, s')
    ensures Holds(s', sid) <==> Holds(s, sid) || Finds(s, s', sid)
  {
    match step
    case ContinueCreate(t) =>
      if s.tasks[t].create.Inserted? {
        AllocateHolds(s, t, sid);
      } else {
        WriteHolds(s, t, sid);
      }
    case ContinueRevoke(t) =>
      assert s.tasks[t].sid == sid ==> Revokes(s, t, sid);
      RevokeHolds(s, t, sid);
    case _ => SameTasksHold(s, s', sid);
  }

  lemma GatewayHolds(site: Site, s: State, step: Step, s': State, sid: Id)
    requires GatewayStep(site, s, step, s')
    ensures (Holds(s', sid) <==> Holds(s, sid)) && !Finds(s, s', sid) && s'.tasks == s.tasks
    ensures IsRevoked(s', sid) <==> IsRevoked(s, sid)
  {
    hide IsSelection, Planned, CutAt, R.IsDump, R.Exec1;
    assert s'.tasks == s.tasks && s'.db.allocations == s.db.allocations;
    SameTasksHold(s, s', sid);
  }

  /** Steps that leave the session's revocation where it is. */
  lemma OthersMove(s: State, s': State, sid: Id)
    requires OneRevocation(s, sid) && (IsRevoked(s', sid) <==> IsRevoked(s, sid))
    requires forall t :: Revokes(s', t, sid) == Revokes(s, t, sid) && (Revokes(s, t, sid) ==> s'.tasks[t] == s.tasks[t])
    ensures OneRevocation(s', sid) && (PastRelease(s', sid) <==> PastRelease(s, sid)) && !Releases(s, s', sid)
  {
  }

  lemma StartMoves(site: Site, s: State, t: nat, x: Id, s': State, sid: Id)
    requires OneRevocation(s, sid) && ControlStep(site, s, StartRevoke(t, x), s')
    ensures OneRevocation(s', sid) && (PastRelease(s', sid) <==> PastRelease(s, sid)) && !Releases(s, s', sid)
  {
    if x == sid {
      assert !IsRevoked(s, sid) && Revokes(s', t, sid) && s'.tasks[t].revoke.Marked?;
      forall u | Revokes(s', u, sid) ensures u == t {
        assert u != t ==> Revokes(s, u, sid);
      }
    } else {
      OthersMove(s, s', sid);
    }
  }

  lemma RevokeMoves(s: State, t: nat, sid: Id)
    requires OneRevocation(s, sid) && t in s.tasks && s.tasks[t].Revoking?
    ensures var s' := AdvanceRevoke(s, t);
            && OneRevocation(s', sid) && (PastRelease(s', sid) <==> PastRelease(s, sid) || Releases(s, s', sid))
            && (PastRelease(s, sid) ==> !Releases(s, s', sid))
  {
    hide PastRelease, Releases, OneRevocation, Release, DeletePeer, BumpFor;
    var s' := AdvanceRevoke(s, t);
    RevokeKeepsSessions(s, t);
    if s.tasks[t].sid != sid {
      OthersMove(s, s', sid);
    } else {
      assert Revokes(s, t, sid);
      OnlyOne(s, s', t, sid);
      if t in s'.tasks {
        OneMoves(s, s', t, sid);
      } else {
        OneEnds(s, s', t, sid);
      }
    }
  }

  lemma OnlyOne(s: State, s': State, t: nat, sid: Id)
    requires OneRevocation(s, sid) && Revokes(s, t, sid) && OthersKept(s, s', t) && s'.db.sessions == s.db.sessions
    ensures IsRevoked(s, sid) && OneRevocation(s', sid)
    ensures forall u :: (Revokes(s, u, sid) ==> u == t) && (Revokes(s', u, sid) ==> u == t)
  {
    forall u | Revokes(s', u, sid) ensures u == t {
      assert u != t ==> Revokes(s, u, sid);
    }
  }

  lemma OneEnds(s: State, s': State, t: nat, sid: Id)
    requires Revokes(s, t, sid) && s.tasks[t].revoke.AddressFree? && t !in s'.tasks && IsRevoked(s, sid) && IsRevoked(s', sid)
    requires forall u :: (Revokes(s, u, sid) ==> u == t) && (Revokes(s', u, sid) ==> u == t)
    ensures PastRelease(s', sid) && PastRelease(s, sid) && !Releases(s, s', sid)
  {
  }

  lemma OneMoves(s: State, s': State, t: nat, sid: Id)
    requires Revokes(s, t, sid) && Revokes(s', t, sid) && IsRevoked(s, sid) && IsRevoked(s', sid)
    requires forall u :: (Revokes(s, u, sid) ==> u == t) && (Revokes(s', u, sid) ==> u == t)
    requires s.tasks[t].revoke.AddressFree? ==> s'.tasks[t].revoke.AddressFree?
    requires s.tasks[t].revoke.Marked? ==> !s'.tasks[t].revoke.AddressFree?
    ensures PastRelease(s', sid) <==> PastRelease(s, sid) || Releases(s, s', sid)
    ensures PastRelease(s, sid) ==> !Releases(s, s', sid)
  {
  }

  lemma CreateMoves(s: State, t: nat, sid: Id)
    requires OneRevocation(s, sid) && t in s.tasks && s.tasks[t].Creating?
    ensures var s' := AdvanceCreate(s, t);
            OneRevocation(s', sid) && (PastRelease(s', sid) <==> PastRelease(s, sid)) && !Releases(s, s', sid)
  {
    hide PastRelease, Releases, OneRevocation;
    CreateKeepsStatus(s, t, sid);
    OthersMove(s, AdvanceCreate(s, t), sid);
  }

  lemma CreateKeepsStatus(s: State, t: nat, sid: Id)
    requires t in s.tasks && s.tasks[t].Creating?
    ensures IsRevoked(AdvanceCreate(s, t), sid) <==> IsRevoked(s, sid)
  {
    hide AdvanceCreate;
    CreateKeepsRows(s, t);
  }

  /** How one statement moves a session's revocation on. */
  lemma RevocationMoves(site: Site, s: State, step: Step, s': State, sid: Id)
    requires OneRevocation(s, sid) && ControlStep(site, s, step, s')
    ensures OneRevocation(s', sid)
    ensures PastRelease(s', sid) <==> PastRelease(s, sid) || Releases(s, s', sid)
    ensures PastRelease(s, sid) ==> !Releases(s, s', sid)
  {
    match step
    case StartRevoke(t, x) => StartMoves(site, s, t, x, s', sid);
    case ContinueRevoke(t) => RevokeMoves(s, t, sid);
    case ContinueCreate(t) => CreateMoves(s, t, sid);
    case _ => OthersMove(s, s', sid);
  }

  lemma StepMoves(site: Site, s: State, s': State, sid: Id)
    requires GoodTables(site, s) && OneRevocation(s, sid) && Next(site, s, s')
    ensures OneRevocation(s', sid)
    ensures PastRelease(s', sid) <==> PastRelease(s, sid) || Releases(s, s', sid)
    ensures PastRelease(s, sid) ==> !Releases(s, s', sid) && (Holds(s', sid) <==> Holds(s, sid) || Finds(s, s', sid))
  {
    hide GoodTables, OneRevocation, PastRelease, Holds, Releases, Finds, ControlStep, GatewayStep;
    var step: Step :| ControlStep(site, s, step, s') || GatewayStep(site, s, step, s');
    if ControlStep(site, s, step, s') {
      RevocationMoves(site, s, step, s', sid);
      if PastRelease(s, sid) {
        PastHolds(site, s, step, s', sid);
      }
    } else {
      GatewayHolds(site, s, step, s', sid);
      GatewayMovesOn(s, s', sid);
    }
  }

  lemma GatewayMovesOn(s: State, s': State, sid: Id)
    requires OneRevocation(s, sid) && s'.tasks == s.tasks && (IsRevoked(s', sid) <==> IsRevoked(s, sid))
    ensures OneRevocation(s', sid) && (PastRelease(s', sid) <==> PastRelease(s, sid)) && !Releases(s, s', sid)
  {
    OthersMove(s, s', sid);
  }

  /** The release itself leaves the session with nothing. */
  lemma ReleaseFrees(site: Site, s: State, s': State, sid: Id)
    requires OneRevocation(s, sid) && Next(site, s, s') && Releases(s, s', sid)
    ensures !Holds(s', sid) && !PastRelease(s, sid)
  {
    var t :| Revokes(s, t, sid) && s.tasks[t].revoke.PeerGone? && Revokes(s', t, sid) && s'.tasks[t].revoke.AddressFree?;
    var step: Step :| ControlStep(site, s, step, s') || GatewayStep(site, s, step, s');
    if !ControlStep(site, s, step, s') {
      GatewayHolds(site, s, step, s', sid);
      assert false;
    } else {
      assert step == ContinueRevoke(t) by {
        OnlyItsOwn(site, s, step, s', t);
      }
      assert s'.db == Release(s.db, sid);
    }
  }

  /** A revocation's task moves only by its own statement. */
  lemma OnlyItsOwn(site: Site, s: State, step: Step, s': State, t: nat)
    requires ControlStep(site, s, step, s') && t in s.tasks && s.tasks[t].Revoking? && (t in s'.tasks ==> s'.tasks[t] != s.tasks[t])
    ensures step == ContinueRevoke(t)
  {
    hide Allocate, Bump, BumpFor, Release, DeletePeer, AssignIp, InsertPeer, ExpireSessions, DeleteExpired;
  }

  // Over a run.

  ghost predicate ReleasedBy(run: seq<State>, n: nat, sid: Id)
    requires n < |run|
  {
    exists i | 0 <= i < n :: Releases(run[i], run[i + 1], sid)
  }

  /** The revocation frees what the session holds, and its creation finds it an
      address afterwards. */
  ghost predicate Overtaken(run: seq<State>, n: nat, sid: Id, i: int, j: int)
    requires n < |run|
  {
    0 <= i < j < n && Releases(run[i], run[i + 1], sid) && YetToAllocate(run[i], sid) && Finds(run[j], run[j + 1], sid)
  }

  ghost predicate IsOvertaken(run: seq<State>, n: nat, sid: Id)
    requires n < |run|
  {
    exists i, j :: Overtaken(run, n, sid, i, j)
  }

  lemma YetBefore(site: Site, s: State, s': State, sid: Id)
    requires Next(site, s, s') && sid in s.db.sessions && YetToAllocate(s', sid)
    ensures YetToAllocate(s, sid)
  {
    hide ControlStep, GatewayStep;
    var step: Step :| ControlStep(site, s, step, s') || GatewayStep(site, s, step, s');
    var t :| Makes(s', t, sid) && s'.tasks[t].create.Inserted?;
    if ControlStep(site, s, step, s') {
      FirstStage(site, s, step, s', t);
    } else {
      GatewayHolds(site, s, step, s', sid);
    }
    assert Makes(s, t, sid);
  }

  /** A creation is at its first stage from the start, or not at all. */
  lemma FirstStage(site: Site, s: State, step: Step, s': State, t: nat)
    requires ControlStep(site, s, step, s') && t in s'.tasks && s'.tasks[t].Creating? && s'.tasks[t].create.Inserted?
    ensures (t in s.tasks && s.tasks[t] == s'.tasks[t]) || s'.tasks[t].sid !in s.db.sessions
  {
    hide Allocate, Bump, BumpFor, Release, DeletePeer, AssignIp, InsertPeer, ExpireSessions, DeleteExpired;
  }

  /** Rows of sessions stay. */
  lemma SessionsStay(site: Site, s: State, s': State, sid: Id)
    requires site.Valid() && Inv(site, s) && Next(site, s, s') && sid in s.db.sessions
    ensures sid in s'.db.sessions
  {
    hide Inv, GoodTables, ControlStep, GatewayStep;
    InvTables(site, s);
    var step: Step :| ControlStep(site, s, step, s') || GatewayStep(site, s, step, s');
    if ControlStep(site, s, step, s') {
      ControlKeepsHistory(site, s, step, s');
    } else {
      GatewayKeepsRows(site, s, step, s');
    }
  }

  lemma GatewayKeepsRows(site: Site, s: State, step: Step, s': State)
    requires GatewayStep(site, s, step, s')
    ensures s'.db.sessions.Keys == s.db.sessions.Keys
  {
    hide IsSelection, Planned, CutAt, R.IsDump, R.Exec1;
  }

  /** A creation that has yet to allocate had yet to before, once its row was there. */
  lemma {:induction false} YetSince(site: Site, run: seq<State>, i: nat, n: nat, sid: Id)
    requires site.Valid() && IsRun(site, run) && i <= n < |run| && sid in run[i].db.sessions && YetToAllocate(run[n], sid)
    ensures YetToAllocate(run[i], sid)
  {
    hide Next, YetToAllocate, Inv, Site.Valid, Init;
    if i < n {
      SessionsSince(site, run, i, n - 1, sid);
      assert Next(site, run[n - 1], run[n - 1 + 1]);
      YetBefore(site, run[n - 1], run[n], sid);
      YetSince(site, run, i, n - 1, sid);
    }
  }

  lemma {:induction false} SessionsSince(site: Site, run: seq<State>, i: nat, n: nat, sid: Id)
    requires site.Valid() && IsRun(site, run) && i <= n < |run| && sid in run[i].db.sessions
    ensures sid in run[n].db.sessions
  {
    hide Next, Inv, Site.Valid, Init;
    if i < n {
      SessionsSince(site, run, i, n - 1, sid);
      RunKeeps(site, run, n - 1);
      assert Next(site, run[n - 1], run[n - 1 + 1]);
      SessionsStay(site, run[n - 1], run[n], sid);
    }
  }

  lemma ReleasedGrows(run: seq<State>, n: nat, sid: Id)
    requires 0 < n < |run|
    ensures ReleasedBy(run, n, sid) <==> ReleasedBy(run, n - 1, sid) || Releases(run[n - 1], run[n], sid)
  {
    hide Releases;
    if Releases(run[n - 1], run[n], sid) {
      assert Releases(run[n - 1], run[n - 1 + 1], sid);
    }
  }

  lemma NotOvertaken(run: seq<State>, n: nat, sid: Id)
    requires 0 < n < |run| && !ReleasedBy(run, n - 1, sid)
    ensures !IsOvertaken(run, n, sid)
  {
    hide Releases, Finds, YetToAllocate;
  }

  lemma OvertakenGrows(site: Site, run: seq<State>, n: nat, sid: Id)
    requires site.Valid() && IsRun(site, run) && 0 < n < |run| && ReleasedBy(run, n - 1, sid)
    requires forall i | 0 <= i < n :: OneRevocation(run[i], sid)
    ensures IsOvertaken(run, n, sid) <==> IsOvertaken(run, n - 1, sid) || Finds(run[n - 1], run[n], sid)
  {
    hide Releases, Finds, YetToAllocate, IsRun, Site.Valid, OneRevocation, IsOvertaken;
    if IsOvertaken(run, n - 1, sid) {
      StaysOvertaken(run, n, sid);
    }
    if Finds(run[n - 1], run[n], sid) {
      var i :| 0 <= i < n - 1 && Releases(run[i], run[i + 1], sid);
      NextOvertaken(site, run, i, n - 1, sid);
      assert IsOvertaken(run, n, sid) by {
        AreOvertaken(run, n, sid, i, n - 1);
      }
    }
    if IsOvertaken(run, n, sid) {
      WasOvertaken(run, n, sid);
    }
  }

  lemma AreOvertaken(run: seq<State>, n: nat, sid: Id, i: nat, j: nat)
    requires n < |run| && Overtaken(run, n, sid, i, j)
    ensures IsOvertaken(run, n, sid)
  {
    hide Overtaken;
  }

  lemma StaysOvertaken(run: seq<State>, n: nat, sid: Id)
    requires 0 < n < |run| && IsOvertaken(run, n - 1, sid)
    ensures IsOvertaken(run, n, sid)
  {
    hide Releases, Finds, YetToAllocate;
    var i, j :| Overtaken(run, n - 1, sid, i, j);
    assert Overtaken(run, n, sid, i, j);
  }

  lemma WasOvertaken(run: seq<State>, n: nat, sid: Id)
    requires 0 < n < |run| && IsOvertaken(run, n, sid)
    ensures IsOvertaken(run, n - 1, sid) || Finds(run[n - 1], run[n], sid)
  {
    hide Releases, Finds, YetToAllocate;
    var i, j :| Overtaken(run, n, sid, i, j);
    if j < n - 1 {
      assert Overtaken(run, n - 1, sid, i, j);
    }
  }

  lemma NextOvertaken(site: Site, run: seq<State>, i: nat, j: nat, sid: Id)
    requires site.Valid() && IsRun(site, run) && i < j < |run| - 1 && OneRevocation(run[i], sid)
    requires Releases(run[i], run[i + 1], sid) && Finds(run[j], run[j + 1], sid)
    ensures YetToAllocate(run[i], sid)
  {
    hide IsRun, Site.Valid;
    assert IsRevoked(run[i], sid);
    assert YetToAllocate(run[j], sid);
    YetSince(site, run, i, j, sid);
  }

  lemma {:induction false} History(site: Site, run: seq<State>, n: nat, sid: Id)
    requires site.Valid() && IsRun(site, run) && n < |run|
    ensures forall i | 0 <= i <= n :: OneRevocation(run[i], sid)
    ensures PastRelease(run[n], sid) <==> ReleasedBy(run, n, sid)
    ensures PastRelease(run[n], sid) ==> (Holds(run[n], sid) <==> IsOvertaken(run, n, sid))
  {
    if n == 0 {
      assert Init(site, run[0]);
    } else {
      hide Inv, Init, Site.Valid, Next, OneRevocation, PastRelease, Holds, Releases, Finds, ReleasedBy, IsOvertaken;
      History(site, run, n - 1, sid);
      RunKeeps(site, run, n - 1);
      InvTables(site, run[n - 1]);
      assert Next(site, run[n - 1], run[n - 1 + 1]);
      HistoryStep(site, run, n, sid);
    }
  }

  lemma HistoryStep(site: Site, run: seq<State>, n: nat, sid: Id)
    requires site.Valid() && IsRun(site, run) && 0 < n < |run| && GoodTables(site, run[n - 1]) && Next(site, run[n - 1], run[n])
    requires forall i | 0 <= i <= n - 1 :: OneRevocation(run[i], sid)
    requires PastRelease(run[n - 1], sid) <==> ReleasedBy(run, n - 1, sid)
    requires PastRelease(run[n - 1], sid) ==> (Holds(run[n - 1], sid) <==> IsOvertaken(run, n - 1, sid))
    ensures OneRevocation(run[n], sid) && (PastRelease(run[n], sid) <==> ReleasedBy(run, n, sid))
    ensures PastRelease(run[n], sid) ==> (Holds(run[n], sid) <==> IsOvertaken(run, n, sid))
  {
    hide GoodTables, IsRun, Site.Valid, Next, OneRevocation, PastRelease, Holds, Releases, Finds, ReleasedBy, IsOvertaken;
    StepMoves(site, run[n - 1], run[n], sid);
    ReleasedGrows(run, n, sid);
    if PastRelease(run[n - 1], sid) {
      OvertakenGrows(site, run, n, sid);
    } else if Releases(run[n - 1], run[n], sid) {
      ReleaseFrees(site, run[n - 1], run[n], sid);
      NotOvertaken(run, n, sid);
    }
  }

  /** In every run, a revoked session with nothing in flight about it holds an address
      if and only if its revocation overtook its creation: when it freed what the
      session held, the creation had yet to allocate, and it found an address later. */
  lemma RevokedHoldsExactly(site: Site, run: seq<State>, n: nat, sid: Id)
    requires site.Valid() && IsRun(site, run) && n < |run| && IsRevoked(run[n], sid) && NothingFor(run[n].tasks, sid)
    ensures Holds(run[n], sid) <==> exists i, j :: Overtaken(run, n, sid, i, j)
  {
    hide Inv, Site.Valid, IsRun, OneRevocation, Holds, Releases, Finds, ReleasedBy;
    History(site, run, n, sid);
  }

  /** So in the ordinary order, creation first, a revocation gives the address back for
      good: whatever happens afterwards, the session holds none. */
  lemma OrdinaryOrderFrees(site: Site, run: seq<State>, i: nat, n: nat, sid: Id)
    requires site.Valid() && IsRun(site, run) && i < n < |run|
    requires Releases(run[i], run[i + 1], sid) && !YetToAllocate(run[i], sid)
    ensures !Holds(run[n], sid)
  {
    hide Inv, Site.Valid, IsRun, OneRevocation, PastRelease, Holds, Finds;
    History(site, run, n, sid);
    History(site, run, i, sid);
    History(site, run, i + 1, sid);
    assert ReleasedBy(run, n, sid) && ReleasedBy(run, i + 1, sid);
    if Holds(run[n], sid) {
      var a, j :| Overtaken(run, n, sid, a, j);
      OneRelease(site, run, a, i, sid);
    }
  }

  /** The release comes once. */
  lemma OneRelease(site: Site, run: seq<State>, i: nat, j: nat, sid: Id)
    requires site.Valid() && IsRun(site, run) && i + 1 < |run| && j + 1 < |run|
    requires Releases(run[i], run[i + 1], sid) && Releases(run[j], run[j + 1], sid)
    ensures i == j
  {
    hide Inv, Site.Valid, Init, OneRevocation, PastRelease, Holds, Finds, Releases, IsOvertaken, Next;
    if i != j {
      var first, last := if i < j then i else j, if i < j then j else i;
      History(site, run, last, sid);
      assert ReleasedBy(run, last, sid);
      RunKeeps(site, run, last);
      InvTables(site, run[last]);
      assert Next(site, run[last], run[last + 1]);
      StepMoves(site, run[last], run[last + 1], sid);
    }
  }

  /** And the creation finds an address exactly when its network has one to give. */
  lemma FindsExactly(site: Site, s: State, t: nat, s': State)
    requires GoodTables(site, s) && ControlStep(site, s, ContinueCreate(t), s') && s.tasks[t].create.Inserted?
    ensures Finds(s, s', s.tasks[t].sid)
            <==> exists a: nat :: Contains(s.db.networks[s.tasks[t].network], IpAddress(V4, a)) && Eligible(a)
                                  && (s.tasks[t].network, a) !in s.db.allocations
  {
    var task := s.tasks[t];
    assert GoodTask(site, s, task);
    AllocateExactly(s.db, task.network, task.sid);
    if Allocate(s.db, task.network, task.sid).1.Some? {
      assert Makes(s, t, task.sid) && Makes(s', t, task.sid);
    }
  }
}
