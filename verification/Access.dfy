/** Losing access, from the deactivation to the interface: `Race` and `Fence` as one
    machine. Statements about access and checks are steps of the first, statements
    about addresses, peers, the gateway and its interface steps of the second, and
    those that write or end a session's row are steps of both. */
module Access {
  import opened Text
  import opened Tables
  import opened Fence
  import opened FenceRuns
  import Race
  import R = Reconcile

  datatype Joint = Joint(access: Race.State, fence: State)

  datatype JointStep =
    | Apart(own: Race.Step)
    | Beside(step: Step)
    | Insert(request: Id, task: nat, row: Session, key: Key)
    | RevokeNext(call: Id, sid: Id, task: nat)
    | RevokeOther(sid: Id, task: nat)
    | Expire(step: Step)

  /** Steps that write or end a session's row. */
  predicate WritesEntry(step: Race.Step)
  {
    step.Insert? || step.RevokeNext? || step.End?
  }

  predicate WritesRow(step: Step)
  {
    step.StartCreate? || step.StartRevoke? || step.ExpireFor? || step.ExpireOwn?
  }

  ghost predicate FenceStep(site: Site, s: State, step: Step, s': State)
  {
    ControlStep(site, s, step, s') || GatewayStep(site, s, step, s')
  }

  /** The entries of sessions that are no longer active, all ended at once. */
  function AllEnded(st: Race.State, db: Db): (st': Race.State)
  {
    st.(sessions := map s | s in st.sessions :: st.sessions[s].(active := st.sessions[s].active && CanRevoke(db, s)),
        clock := st.clock + 1)
  }

  ghost predicate JointNext(site: Site, j: Joint, step: JointStep, j': Joint)
  {
    match step
    case Apart(own) => Race.Can(j.access, own) && !WritesEntry(own) && j' == Joint(Race.Next(j.access, own), j.fence)
    case Beside(step) => !WritesRow(step) && FenceStep(site, j.fence, step, j'.fence) && j'.access == j.access
    case Insert(request, task, row, key) =>
      && Race.Can(j.access, Race.Insert(request)) && j'.access == Race.Next(j.access, Race.Insert(request))
      && var c := j.access.creating[request];
         row.user == c.user && row.device == c.device
         && ControlStep(site, j.fence, StartCreate(task, c.session, row, key), j'.fence)
    case RevokeNext(call, sid, task) =>
      && Race.Can(j.access, Race.RevokeNext(call, sid)) && j'.access == Race.Next(j.access, Race.RevokeNext(call, sid))
      && if CanRevoke(j.fence.db, sid) then ControlStep(site, j.fence, StartRevoke(task, sid), j'.fence) else j'.fence == j.fence
    case RevokeOther(sid, task) =>
      && j'.access == Race.Next(j.access, Race.End(sid)) && ControlStep(site, j.fence, StartRevoke(task, sid), j'.fence)
    case Expire(step) =>
      && (step.ExpireFor? || step.ExpireOwn?) && FenceStep(site, j.fence, step, j'.fence)
      && j'.access == AllEnded(j.access, j'.fence.db)
  }

  ghost predicate JointMoves(site: Site, j: Joint, j': Joint)
  {
    exists step :: JointNext(site, j, step, j')
  }

  ghost predicate IsJointRun(site: Site, run: seq<Joint>)
  {
    && run != [] && run[0].access == Race.EMPTY && Init(site, run[0].fence)
    && forall i | 0 <= i < |run| - 1 :: JointMoves(site, run[i], run[i + 1])
  }

  // ---- One table, seen twice ----

  predicate SameRow(e: Race.Entry, row: Session)
  {
    e.user == row.user && e.device == row.device && (e.active <==> row.status == Active)
  }

  predicate Agree(access: Race.State, db: Db)
  {
    access.sessions.Keys == db.sessions.Keys && forall s | s in access.sessions :: SameRow(access.sessions[s], db.sessions[s])
  }

  ghost predicate JointInv(site: Site, j: Joint)
  {
    Race.Inv(j.access) && Inv(site, j.fence) && Agree(j.access, j.fence.db)
  }

  lemma ApartAgrees(access: Race.State, step: Race.Step, db: Db)
    requires Race.Can(access, step) && !WritesEntry(step) && Agree(access, db)
    ensures Agree(Race.Next(access, step), db)
  {
    assert Race.Next(access, step).sessions == access.sessions;
  }

  lemma BesideKeepsRows(site: Site, s: State, step: Step, s': State)
    requires FenceStep(site, s, step, s') && !WritesRow(step)
    ensures RowsKept(s.db, s'.db)
  {
    hide IsSelection, Planned, CutAt, R.IsDump, R.Exec1;
    match step
    case ContinueCreate(t) => CreateKeepsRows(s, t);
    case ContinueRevoke(t) => RevokeKeepsRows(s, t);
    case _ =>
  }

  lemma InsertAgrees(site: Site, j: Joint, request: Id, task: nat, row: Session, key: Key, j': Joint)
    requires JointNext(site, j, Insert(request, task, row, key), j') && Agree(j.access, j.fence.db)
    ensures Agree(j'.access, j'.fence.db)
  {
    var c := j.access.creating[request];
    assert j'.fence.db.sessions == j.fence.db.sessions[c.session := row];
  }

  lemma RevokeAgrees(access: Race.State, sid: Id, db: Db, access': Race.State)
    requires Agree(access, db) && access'.sessions == Race.Ended(access.sessions, sid)
    ensures Agree(access', MarkRevoked(db, sid))
  {
  }

  lemma ExpireAgrees(site: Site, s: State, step: Step, s': State, access: Race.State)
    requires Agree(access, s.db) && (step.ExpireFor? || step.ExpireOwn?) && FenceStep(site, s, step, s')
    ensures Agree(AllEnded(access, s'.db), s'.db)
  {
  }

  lemma EndedChecked(st: Race.State, db: Db)
    requires Race.OffByMarks(st) && Race.CreatingChecked(st) && Race.SessionsChecked(st)
    ensures var st' := AllEnded(st, db); Race.OffByMarks(st') && Race.CreatingChecked(st') && Race.SessionsChecked(st')
  {
    var st' := AllEnded(st, db);
    assert forall o :: Race.MarkedOff(st, o) ==> Race.MarkedOff(st', o);
    assert forall o, at :: Race.Before(st, o, at) ==> Race.Before(st', o, at);
  }

  lemma EndedKeep(st: Race.State, db: Db)
    requires Race.Inv(st)
    ensures Race.Inv(AllEnded(st, db))
  {
    hide Race.OffByMarks, Race.CreatingChecked, Race.SessionsChecked;
    var st' := AllEnded(st, db);
    EndedChecked(st, db);
    forall t, s | t in st'.calls && s in st'.sessions ensures Race.Reached(st'.calls[t], s, st'.sessions[s]) {
      assert Race.Reached(st.calls[t], s, st.sessions[s]);
    }
  }

  lemma JointKeepsRace(site: Site, j: Joint, step: JointStep, j': Joint)
    requires Race.Inv(j.access) && JointNext(site, j, step, j')
    ensures Race.Inv(j'.access)
  {
    hide Race.Inv, ControlStep, GatewayStep, Race.Can, AllEnded;
    match step
    case Apart(own) => Race.StepKeeps(j.access, own);
    case Beside(_) =>
    case Insert(request, _, _, _) => Race.StepKeeps(j.access, Race.Insert(request));
    case RevokeNext(call, sid, _) => Race.StepKeeps(j.access, Race.RevokeNext(call, sid));
    case RevokeOther(sid, _) => EndKeeps(j.access, sid);
    case Expire(_) => EndedKeep(j.access, j'.fence.db);
  }

  lemma EndKeeps(st: Race.State, sid: Id)
    requires Race.Inv(st)
    ensures Race.Inv(Race.Next(st, Race.End(sid)))
  {
    hide Race.Inv;
    Race.StepKeeps(st, Race.End(sid));
  }

  lemma StepKeepsFence(site: Site, s: State, step: Step, s': State)
    requires site.Valid() && Inv(site, s) && FenceStep(site, s, step, s')
    ensures Inv(site, s')
  {
    hide Inv, ControlStep, GatewayStep;
    assert Next(site, s, s');
    NextKeeps(site, s, s');
  }

  lemma JointKeepsFence(site: Site, j: Joint, step: JointStep, j': Joint)
    requires site.Valid() && Inv(site, j.fence) && JointNext(site, j, step, j')
    ensures Inv(site, j'.fence)
  {
    hide Inv, ControlStep, GatewayStep, Race.Next, AllEnded;
    match step
    case Apart(_) =>
    case Beside(own) => StepKeepsFence(site, j.fence, own, j'.fence);
    case Insert(request, task, row, key) =>
      StepKeepsFence(site, j.fence, StartCreate(task, j.access.creating[request].session, row, key), j'.fence);
    case RevokeNext(call, sid, task) =>
      if CanRevoke(j.fence.db, sid) {
        StepKeepsFence(site, j.fence, StartRevoke(task, sid), j'.fence);
      }
    case RevokeOther(sid, task) => StepKeepsFence(site, j.fence, StartRevoke(task, sid), j'.fence);
    case Expire(own) => StepKeepsFence(site, j.fence, own, j'.fence);
  }

  lemma JointAgrees(site: Site, j: Joint, step: JointStep, j': Joint)
    requires Agree(j.access, j.fence.db) && JointNext(site, j, step, j')
    ensures Agree(j'.access, j'.fence.db)
  {
    match step
    case Apart(own) => ApartAgrees(j.access, own, j.fence.db);
    case Beside(own) => BesideAgrees(site, j, own, j');
    case Insert(request, task, row, key) => InsertAgrees(site, j, request, task, row, key, j');
    case RevokeNext(call, sid, task) => RevokeNextAgrees(site, j, call, sid, task, j');
    case RevokeOther(sid, task) => RevokeOtherAgrees(site, j, sid, task, j');
    case Expire(own) => ExpireAgrees(site, j.fence, own, j'.fence, j.access);
  }

  lemma BesideAgrees(site: Site, j: Joint, step: Step, j': Joint)
    requires Agree(j.access, j.fence.db) && JointNext(site, j, Beside(step), j')
    ensures Agree(j'.access, j'.fence.db)
  {
    hide ControlStep, GatewayStep;
    BesideKeepsRows(site, j.fence, step, j'.fence);
  }

  lemma RevokeNextAgrees(site: Site, j: Joint, call: Id, sid: Id, task: nat, j': Joint)
    requires Agree(j.access, j.fence.db) && JointNext(site, j, RevokeNext(call, sid, task), j')
    ensures Agree(j'.access, j'.fence.db)
  {
    hide Agree;
    RevokeAgrees(j.access, sid, j.fence.db, j'.access);
    assert j'.fence.db == MarkRevoked(j.fence.db, sid);
  }

  lemma RevokeOtherAgrees(site: Site, j: Joint, sid: Id, task: nat, j': Joint)
    requires Agree(j.access, j.fence.db) && JointNext(site, j, RevokeOther(sid, task), j')
    ensures Agree(j'.access, j'.fence.db)
  {
    hide Agree;
    RevokeAgrees(j.access, sid, j.fence.db, j'.access);
  }

  lemma {:induction false} JointKeeps(site: Site, run: seq<Joint>, n: nat)
    requires site.Valid() && IsJointRun(site, run) && n < |run|
    ensures JointInv(site, run[n])
  {
    if n == 0 {
      InitInv(site, run[0].fence);
      assert Agree(run[0].access, run[0].fence.db);
    } else {
      hide Inv, Init, Race.Inv, Agree, JointNext;
      JointKeeps(site, run, n - 1);
      assert JointMoves(site, run[n - 1], run[n - 1 + 1]);
      var step :| JointNext(site, run[n - 1], step, run[n]);
      JointKeepsRace(site, run[n - 1], step, run[n]);
      JointKeepsFence(site, run[n - 1], step, run[n]);
      JointAgrees(site, run[n - 1], step, run[n]);
    }
  }

  // ---- What is left of an owner on the interface ----

  /** Every session made with the key is the owner's, none is in flight, and none ran
      out since the applied peers were selected. */
  ghost predicate OwnersKey(j: Joint, o: Race.Owner, k: Key)
  {
    forall s | s in j.fence.keys && j.fence.keys[s] == k ::
      && s in j.access.sessions && Race.Of(j.access.sessions[s], o)
      && !BeingCreated(j.fence, s) && !BeingRevoked(j.fence, s)
      && !(RanOut(j.fence, s) && j.fence.db.sessions[s].expiresAt > j.fence.selectedAt)
  }

  /** A session with the key, selected now, whose creation straddled a deactivation of
      the owner. */
  ghost predicate Outlives(site: Site, j: Joint, o: Race.Owner, k: Key, s: Id)
  {
    && s in j.fence.keys && j.fence.keys[s] == k && LiveRow(site, j.fence, s) && s in j.access.sessions
    && exists t :: t in j.access.calls && Race.Straddles(j.access, j.access.sessions[s], o, j.access.calls[t])
  }

  lemma ManagedOutlives(site: Site, j: Joint, o: Race.Owner, k: Key)
    requires site.Valid() && JointInv(site, j) && j.fence.lastVersion == Version(site, j.fence)
    requires o in j.access.access && !Race.On(j.access, o) && Race.Settled(j.access, o) && OwnersKey(j, o, k)
    requires R.OwnsManaged(j.fence.wire, k, site.Range())
    ensures exists s :: Outlives(site, j, o, k, s)
  {
    hide Inv, Race.Inv, Race.Settled, Race.Straddles, R.OwnsManaged, Site.Valid;
    CurrentWhenApplied(site, j.fence);
    assert JustifiedKey(site, j.fence, k);
    var s :| Justified(site, j.fence, s) && j.fence.keys[s] == k;
    assert LiveRow(site, j.fence, s);
    Race.OutlivesAt(j.access, s, o);
    assert Outlives(site, j, o, k, s);
  }

  /** From checks to the interface, over every run of the whole: once the deactivations
      of a user or device are through and the gateway is current, a key of that owner
      alone holds managed addresses if and only if a session made with it is selected
      whose creation straddled one of them. */
  lemma DeactivationReachesWire(site: Site, run: seq<Joint>, n: nat, o: Race.Owner, k: Key)
    requires site.Valid() && IsJointRun(site, run) && n < |run|
    requires run[n].fence.lastVersion == Version(site, run[n].fence)
    requires o in run[n].access.access && !Race.On(run[n].access, o) && Race.Settled(run[n].access, o) && OwnersKey(run[n], o, k)
    ensures R.OwnsManaged(run[n].fence.wire, k, site.Range()) <==> exists s :: Outlives(site, run[n], o, k, s)
    // Without one, a key that was ever written holds nothing at all.
    ensures k in run[n].fence.written && (forall s :: !Outlives(site, run[n], o, k, s)) ==> R.Owned(run[n].fence.wire, k) == {}
  {
    hide Inv, Race.Inv, Race.Settled, Race.Straddles, R.OwnsManaged, Site.Valid, IsJointRun;
    var j := run[n];
    JointKeeps(site, run, n);
    if R.OwnsManaged(j.fence.wire, k, site.Range()) {
      ManagedOutlives(site, j, o, k);
    } else {
      forall s ensures !Outlives(site, j, o, k, s) {
        if Outlives(site, j, o, k, s) {
          LiveManaged(site, j.fence, s);
        }
      }
      if k in j.fence.written {
        WrittenUnmanaged(site, j.fence, k);
      }
    }
  }

  /** What a written key holds is managed, so if not that it holds nothing. */
  lemma WrittenUnmanaged(site: Site, s: State, k: Key)
    requires site.Valid() && Inv(site, s) && k in s.written && !R.OwnsManaged(s.wire, k, site.Range())
    ensures R.Owned(s.wire, k) == {}
  {
    hide GoodTables, GoodPhase, GoodApplied;
  }
}
