/** The gateway's steps keep the invariant of `Fence`: a plan's commands, run one
    by one over an interface where an address has one owner, and cut anywhere. */
module FenceGateway {
  import opened Text
  import opened Cidr
  import opened Tables
  import opened Fence
  import R = Reconcile

  ghost predicate SameTables(s: State, s': State)
  {
    s'.db == s.db && s'.now == s.now && s'.tasks == s.tasks && s'.keys == s.keys && s'.given == s.given
  }

  lemma TablesUntouched(site: Site, s: State, s': State)
    requires GoodTables(site, s) && SameTables(s, s')
    ensures GoodTables(site, s') && Version(site, s') == Version(site, s)
    ensures forall p :: GoodPeer(site, s', p) == GoodPeer(site, s, p)
    ensures forall peers | UpToDate(site, s, peers) :: UpToDate(site, s', peers)
  {
    TablesSame(site, s, s');
    SelectionSame(site, s, s');
  }

  lemma TablesSame(site: Site, s: State, s': State)
    requires GoodTables(site, s) && SameTables(s, s')
    ensures GoodTables(site, s')
  {
    assert forall t | t in s.tasks :: GoodTask(site, s, s.tasks[t]);
    TablesKept(site, s, s', 0);
  }

  lemma SelectionSame(site: Site, s: State, s': State)
    requires SameTables(s, s')
    ensures forall peers | UpToDate(site, s, peers) :: UpToDate(site, s', peers)
  {
    FlightsKept(s, s', 0);
    assert forall sid | Accounted(site, s, sid) :: Accounted(site, s', sid);
  }

  // ---- Steps that leave the interface alone ----

  /** The next reading, or none of it left to do. */
  lemma PhaseKeeps(site: Site, s: State, s': State)
    requires Inv(site, s) && !s.phase.Applying? && s' == s.(phase := s'.phase)
    requires !s'.phase.Applying? && GoodPhase(site, s')
    ensures Inv(site, s')
  {
    TablesUntouched(site, s, s');
    assert forall k :: Bare(s', k) == Bare(s, k);
  }

  /** Ended here, an apply leaves without addresses only keys it is cut on. */
  lemma CutKeeps(site: Site, s: State, s': State)
    requires Inv(site, s)
    requires s' == s.(phase := Idle, cut := CutAt(s)) || s' == s.(phase := Idle, cut := CutAt(s), lastVersion := -1)
    ensures Inv(site, s')
  {
    TablesUntouched(site, s, s');
    assert forall k :: Bare(s', k) ==> Bare(s, k);
  }

  /** The gateway's own expiry statements. */
  lemma OwnExpiryKeeps(site: Site, s: State, step: Step, s': State)
    requires Inv(site, s) && GatewayStep(site, s, step, s') && (step.ExpireOwn? || step.DeleteOwn?)
    ensures Inv(site, s')
  {
    hide Faithful;
    var mid := s.(db := s'.db);
    ExpiryTables(site, s, site.gateway, mid);
    ExpiryFenced(site, s, site.gateway, mid);
    FaithfulKeeps(site, s, mid);
    PhaseKeeps(site, mid, s');
  }

  // ---- Reading the peers ----

  lemma IssuedIsManaged(site: Site, ip: nat)
    requires site.Valid() && Issued(site, ip)
    ensures R.Readable(AllowedOf(ip)) && AllowedOf(ip) != []
    ensures R.Blocks(AllowedOf(ip)) == {Host(IpAddress(V4, ip))}
    ensures forall b | b in R.Blocks(AllowedOf(ip)) :: ContainsNetwork(site.Range().value, b)
  {
    var a := IpAddress(V4, ip);
    InsideIsValid(site.cidr, a);
    R.OneBlock(Host(a));
    ContainsThrough(site.Range().value, site.cidr, a);
    HostContained(site.Range().value, a);
  }

  lemma GoodPeerAsks(site: Site, s: State, p: R.Peer)
    requires site.Valid() && GoodPeer(site, s, p)
    ensures R.Readable(p.allowed) && p.allowed != [] && R.Blocks(p.allowed) == {Host(IpAddress(V4, s.given[p.session]))}
    ensures forall b | b in R.Blocks(p.allowed) :: ContainsNetwork(site.Range().value, b)
  {
    IssuedIsManaged(site, s.given[p.session]);
  }

  lemma SelectedIsGood(site: Site, s: State, sid: Id)
    requires GoodTables(site, s) && LiveRow(site, s, sid)
    ensures GoodPeer(site, s, AsPeer(sid, s.db.peers[sid])) && Accounted(site, s, sid) && s.db.peers[sid].expiresAt > s.now
    ensures HoldsAddress(s, site.network, s.given[sid], sid)
  {
    assert GoodRow(site, s, sid);
  }

  lemma SelectionUpToDate(site: Site, s: State, peers: seq<R.Peer>)
    requires GoodTables(site, s) && IsSelection(peers, site, s)
    ensures UpToDate(site, s, peers) && forall p | p in peers :: GoodPeer(site, s, p) && p.expiresAt > s.now
  {
    forall p | p in peers ensures GoodPeer(site, s, p) && Accounted(site, s, p.session) && p.expiresAt > s.now {
      SelectedIsGood(site, s, p.session);
    }
    forall sid | LiveRow(site, s, sid) ensures exists p | p in peers :: p.session == sid {
      assert AsPeer(sid, s.db.peers[sid]).session == sid;
    }
  }

  /** Selected sessions hold their addresses, so no two ask for the same. */
  lemma SelectionExclusive(site: Site, s: State, peers: seq<R.Peer>)
    requires site.Valid() && GoodTables(site, s) && IsSelection(peers, site, s)
    ensures R.Exclusive(peers)
  {
    forall p, q | p in peers && q in peers && p.key != q.key ensures R.Blocks(p.allowed) !! R.Blocks(q.allowed) {
      SelectedIsGood(site, s, p.session);
      SelectedIsGood(site, s, q.session);
      GoodPeerAsks(site, s, p);
      GoodPeerAsks(site, s, q);
    }
  }

  lemma SelectKeeps(site: Site, s: State, s': State)
    requires site.Valid() && Inv(site, s) && Selects(site, s, s')
    ensures Inv(site, s')
  {
    TablesUntouched(site, s, s');
    SelectionUpToDate(site, s, s'.phase.config.peers);
    SelectionExclusive(site, s, s'.phase.config.peers);
    PhaseKeeps(site, s, s');
  }

  // ---- Planning ----

  ghost predicate AllGood(site: Site, s: State, peers: seq<R.Peer>)
  {
    R.Exclusive(peers) && forall p | p in peers :: GoodPeer(site, s, p)
  }

  /** Once its plan has run, the interface holds exactly the desired keys inside
      the range. */
  lemma ReconciledHolds(site: Site, s: State, w: R.Interface, w': R.Interface, peers: seq<R.Peer>, taken: set<Net>)
    requires site.Valid() && AllGood(site, s, peers) && R.Reconciled(w, w', peers, site.Range(), taken)
    requires taken <= R.AllBlocks(peers)
    ensures WireHolds(site, w', peers)
  {
    R.AllBlocksMembers(peers);
    forall b | b in taken ensures ContainsNetwork(site.Range().value, b) {
      var p :| p in peers && b in R.Blocks(p.allowed);
      GoodPeerAsks(site, s, p);
    }
  }

  lemma PlanHolds(site: Site, s: State, peers: seq<R.Peer>, live: seq<R.LivePeer>)
    requires site.Valid() && AllGood(site, s, peers) && R.IsDump(live, s.wire) && s.wire.Valid(site.isKey)
    ensures WireHolds(site, R.Exec(s.wire, R.Commands(R.PlanOf(peers, live, site.Range()))), peers)
  {
    R.PlanReconciles(peers, live, s.wire, site.Range());
    R.ChangedAsked(peers, live, s.wire, site.Range());
    ReconciledHolds(site, s, s.wire, R.Exec(s.wire, R.Commands(R.PlanOf(peers, live, site.Range()))), peers,
                    R.AllBlocks(R.Changed(R.PlanOf(peers, live, site.Range()))));
  }

  lemma PlanShape(plan: R.ReconcilePlan)
    ensures SetsFirst(R.Commands(plan))
    ensures forall c | c in R.Commands(plan) && c.SetPeer? :: exists p | p in R.Changed(plan) :: c == R.SetPeer(p.key, p.allowed)
    ensures forall k :: Pending(R.Commands(plan), k) <==> k in R.Keys(R.Changed(plan)) || k in plan.remove
  {
    R.CommandMembers(plan);
    var cs := R.Commands(plan);
    forall k | k in plan.remove ensures Pending(cs, k) {
      assert R.RemovePeer(k) in cs;
    }
    forall k | k in R.Keys(R.Changed(plan)) ensures Pending(cs, k) {
      var p :| p in R.Changed(plan) && p.key == k;
      assert R.SetPeer(p.key, p.allowed) in cs;
    }
  }

  /** A plan has a command for every written key without addresses that is not
      already cut off, and takes nothing from a key it has no command for. */
  lemma PlanCovers(site: Site, s: State, peers: seq<R.Peer>, live: seq<R.LivePeer>, k: Key, p: R.Peer)
    requires GoodWire(site, s) && site.Range().Some? && R.Exclusive(peers) && R.IsDump(live, s.wire)
    requires k in s.written && k in s.wire.peers
    requires var plan := R.PlanOf(peers, live, site.Range()); k !in R.Keys(R.Changed(plan)) && k !in plan.remove && p in R.Changed(plan)
    ensures R.Blocks(p.allowed) !! R.Owned(s.wire, k)
  {
    R.PlanMembers(peers, live, s.wire, site.Range());
    if k in R.Keys(peers) {
      var q :| q in peers && q.key == k;
      R.UnchangedOwns(q, live, s.wire);
    }
  }

  lemma BeginApplies(site: Site, s: State, peers: seq<R.Peer>, live: seq<R.LivePeer>)
    requires site.Valid() && Inv(site, s) && !s.phase.Applying? && AllGood(site, s, peers) && R.IsDump(live, s.wire)
    ensures GoodApply(site, s, peers, [], R.Commands(R.PlanOf(peers, live, site.Range())))
  {
    var plan := R.PlanOf(peers, live, site.Range());
    var cs := R.Commands(plan);
    PlanHolds(site, s, peers, live);
    PlanShape(plan);
    R.PlanMembers(peers, live, s.wire, site.Range());
    R.CommandMembers(plan);
    assert [] + cs == cs;
    forall p | p in peers && !site.isKey(p.key) ensures Pending(cs, p.key) {
      R.DumpIsWire(live, s.wire);
      assert p in R.Changed(plan);
    }
    forall k, c | k in s.written && k in s.wire.peers && !Pending(cs, k) && c in cs && c.SetPeer?
      ensures R.Blocks(c.allowed) !! R.Owned(s.wire, k)
    {
      var p :| p in R.Changed(plan) && c == R.SetPeer(p.key, p.allowed);
      PlanCovers(site, s, peers, live, k, p);
    }
  }

  lemma BeginKeeps(site: Site, s: State, s': State)
    requires site.Valid() && Inv(site, s) && Begins(site, s, s')
    ensures Inv(site, s')
  {
    var c := s.phase.config;
    assert site.settings.Managed(c.cidr) == site.Range();
    var live :| R.IsDump(live, s.wire) && s' == s.(phase := Applying(c, [], Planned(site, c, live)));
    BeginApplies(site, s, c.peers, live);
    TablesUntouched(site, s, s');
    SameApply(site, s, s', c.peers, [], s'.phase.todo);
    assert forall k :: Bare(s', k) == Bare(s, k);
  }

  lemma SameApply(site: Site, s: State, s': State, peers: seq<R.Peer>, ran: seq<R.Command>, todo: seq<R.Command>)
    requires GoodApply(site, s, peers, ran, todo) && s'.wire == s.wire && s'.written == s.written && s'.cut == s.cut
    ensures GoodApply(site, s', peers, ran, todo)
  {
    assert forall k :: Bare(s', k) == Bare(s, k);
  }

  // ---- Running the commands ----

  /** What one command does to the written keys. */
  lemma RunWritten(site: Site, s: State, s': State)
    requires Inv(site, s) && RunsNext(site, s, s') && GoodWire(site, s)
    requires s.phase.todo[0].SetPeer? ==>
               && R.Blocks(s.phase.todo[0].allowed) != {}
               && forall b | b in R.Blocks(s.phase.todo[0].allowed) :: ContainsNetwork(site.Range().value, b)
    ensures GoodWire(site, s')
  {
    var c := s.phase.todo[0];
    R.Exec1Valid(site.isKey, s.wire, c);
    if c.SetPeer? {
      R.SetGives(s.wire, c.key, c.allowed);
    } else {
      R.RemoveTakes(s.wire, c.key);
    }
  }

  /** A key whose last address a command takes has its own command still to come. */
  lemma RunBare(site: Site, s: State, s': State, k: Key)
    requires Inv(site, s) && RunsNext(site, s, s') && Bare(s', k)
    requires s.phase.todo[0].SetPeer? ==> R.Blocks(s.phase.todo[0].allowed) != {}
    ensures Pending(s'.phase.todo, k) && TakenFrom(s'.phase.ran, k)
  {
    var c, todo := s.phase.todo[0], s.phase.todo;
    RunBareBefore(site, s, s', k);
    assert c in s'.phase.ran && forall e | e in s.phase.ran :: e in s'.phase.ran;
    PendingAfter(todo, k);
  }

  lemma PendingAfter(todo: seq<R.Command>, k: Key)
    requires todo != [] && Pending(todo, k) && k != todo[0].key
    ensures Pending(todo[1..], k)
  {
    var d :| d in todo && d.key == k;
    assert todo == [todo[0]] + todo[1..];
    assert d in todo[1..];
  }

  lemma RunBareBefore(site: Site, s: State, s': State, k: Key)
    requires Inv(site, s) && RunsNext(site, s, s') && Bare(s', k)
    requires s.phase.todo[0].SetPeer? ==> R.Blocks(s.phase.todo[0].allowed) != {}
    ensures k != s.phase.todo[0].key && Pending(s.phase.todo, k)
    ensures s.phase.todo[0].SetPeer? || TakenFrom(s.phase.ran, k)
  {
    hide GoodTables, R.Exec, GoodPeer, GoodConfig;
    var c, todo := s.phase.todo[0], s.phase.todo;
    assert c in todo;
    if c.SetPeer? {
      R.SetGives(s.wire, c.key, c.allowed);
    } else {
      R.RemoveTakes(s.wire, c.key);
      assert Bare(s, k);
    }
  }

  /** What later commands take, they take from nobody whose own command has run. */
  lemma RunUntaken(site: Site, s: State, s': State, k: Key, d: R.Command)
    requires Inv(site, s) && RunsNext(site, s, s') && R.Exclusive(s.phase.config.peers)
    requires k in s'.written && k in s'.wire.peers && !Pending(s'.phase.todo, k) && d in s'.phase.todo && d.SetPeer?
    ensures R.Blocks(d.allowed) !! R.Owned(s'.wire, k)
  {
    hide GoodTables, R.Exec, GoodPeer, GoodConfig;
    var c, todo := s.phase.todo[0], s.phase.todo;
    assert todo == [c] + todo[1..] && c in todo && d in todo;
    if k == c.key {
      assert c.SetPeer?;
      R.SetGives(s.wire, c.key, c.allowed);
      assert d.key != k;
    } else {
      assert !Pending(todo, k);
      if c.SetPeer? {
        R.SetGives(s.wire, c.key, c.allowed);
      } else {
        R.RemoveTakes(s.wire, c.key);
      }
    }
  }

  lemma RunApplies(site: Site, s: State, s': State)
    requires Inv(site, s) && RunsNext(site, s, s')
    requires s.phase.todo[0].SetPeer? ==> R.Blocks(s.phase.todo[0].allowed) != {}
    ensures GoodApply(site, s', s'.phase.config.peers, s'.phase.ran, s'.phase.todo)
  {
    hide GoodTables;
    var peers, c, todo := s.phase.config.peers, s.phase.todo[0], s.phase.todo;
    assert todo == [c] + todo[1..];
    assert s.phase.ran + todo == s'.phase.ran + s'.phase.todo;
    forall p | p in peers && !site.isKey(p.key) ensures Pending(todo[1..], p.key) {
      var d :| d in todo && d.key == p.key;
      assert d != c;
    }
    forall k | Bare(s', k) ensures Pending(s'.phase.todo, k) && TakenFrom(s'.phase.ran, k) {
      RunBare(site, s, s', k);
    }
    forall k, d | k in s'.written && k in s'.wire.peers && !Pending(s'.phase.todo, k) && d in s'.phase.todo && d.SetPeer?
      ensures R.Blocks(d.allowed) !! R.Owned(s'.wire, k)
    {
      RunUntaken(site, s, s', k, d);
    }
  }

  /** The next command is a removal, or sets a good peer. */
  lemma NextAsks(site: Site, s: State)
    requires site.Valid() && Inv(site, s) && s.phase.Applying? && s.phase.todo != [] && s.phase.todo[0].SetPeer?
    ensures var blocks := R.Blocks(s.phase.todo[0].allowed);
            blocks != {} && forall b | b in blocks :: ContainsNetwork(site.Range().value, b)
    ensures R.Readable(s.phase.todo[0].allowed)
  {
    var c := s.phase.todo[0];
    assert c in s.phase.todo;
    var p :| p in s.phase.config.peers && c == R.SetPeer(p.key, p.allowed);
    GoodPeerAsks(site, s, p);
  }

  lemma RunCommandKeeps(site: Site, s: State, s': State)
    requires site.Valid() && Inv(site, s) && RunsNext(site, s, s')
    ensures Inv(site, s')
  {
    hide GoodApply;
    if s.phase.todo[0].SetPeer? {
      NextAsks(site, s);
    }
    TablesUntouched(site, s, s');
    RunApplies(site, s, s');
    RunWritten(site, s, s');
  }

  lemma FinishKeeps(site: Site, s: State, s': State)
    requires Inv(site, s) && Finishes(s, s')
    ensures Inv(site, s')
  {
    TablesUntouched(site, s, s');
    assert forall k :: Bare(s', k) ==> Bare(s, k);
  }

  lemma HeartbeatKeeps(site: Site, s: State, s': State)
    requires Inv(site, s) && GatewayStep(site, s, Heartbeat, s')
    ensures Inv(site, s')
  {
    PhaseKeeps(site, s, s');
  }

  lemma SkipKeeps(site: Site, s: State, s': State)
    requires Inv(site, s) && GatewayStep(site, s, Skip, s')
    ensures Inv(site, s')
  {
    PhaseKeeps(site, s, s');
  }

  lemma GatewayKeeps(site: Site, s: State, step: Step, s': State)
    requires site.Valid() && Inv(site, s) && GatewayStep(site, s, step, s')
    ensures Inv(site, s')
  {
    hide Inv;
    match step
    case Heartbeat => HeartbeatKeeps(site, s, s');
    case ExpireOwn => OwnExpiryKeeps(site, s, step, s');
    case DeleteOwn => OwnExpiryKeeps(site, s, step, s');
    case Select => SelectKeeps(site, s, s');
    case Skip => SkipKeeps(site, s, s');
    case BeginApply => BeginKeeps(site, s, s');
    case RunCommand => RunCommandKeeps(site, s, s');
    case FinishApply => FinishKeeps(site, s, s');
    case Lose => CutKeeps(site, s, s');
    case Restart => CutKeeps(site, s, s');
    case _ =>
  }
}
