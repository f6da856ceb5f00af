/** Creating sessions while users and devices lose access, statement by statement.
    A creation checks its user, then its device, and writes its row later; a
    deactivation writes its mark, selects the sessions to revoke, and revokes them
    one by one. The service runs none of this in a transaction. */
module Race {
  import opened Text

  type Id = nat

  /** Whose access a creation checks: a user's `active` and a device's `revoked`. */
  datatype Owner = User(id: Id) | Device(id: Id)

  /** Access as it stands, and when it was last granted. */
  datatype Access = Access(on: bool, since: nat)

  datatype Creating = Creating(user: Id, device: Id, session: Id, userAt: nat, deviceAt: Option<nat>)

  /** A session's row, with when its owners were checked and when it was written. */
  datatype Entry = Entry(user: Id, device: Id, userAt: nat, deviceAt: nat, made: nat, active: bool)

  datatype Stage = Marked | Revoking(todo: set<Id>, selected: nat) | Done(selected: nat) | Failed

  /** A deactivation, from its mark on. */
  datatype Call = Call(owner: Owner, marked: nat, stage: Stage)

  datatype State = State(clock: nat, access: map<Owner, Access>, creating: map<Id, Creating>,
                         sessions: map<Id, Entry>, calls: map<Id, Call>)

  const EMPTY := State(0, map[], map[], map[], map[])

  datatype Step =
    | Grant(owner: Owner)
    | CheckUser(request: Id, user: Id, device: Id, session: Id)
    | CheckDevice(request: Id)
    | Insert(request: Id)
    | Abandon(request: Id)
    | Mark(call: Id, owner: Owner)
    | Select(call: Id)
    | RevokeNext(call: Id, session: Id)
    | Finish(call: Id)
    | Fail(call: Id)
    | End(session: Id)

  predicate On(st: State, o: Owner)
  {
    o in st.access && st.access[o].on
  }

  predicate Of(e: Entry, o: Owner)
  {
    o == User(e.user) || o == Device(e.device)
  }

  function CheckedAt(e: Entry, o: Owner): (at: nat)
  {
    if o.User? then e.userAt else e.deviceAt
  }

  /** The sessions a deactivation selects. */
  function ActiveOf(st: State, o: Owner): (ids: set<Id>)
  {
    set s | s in st.sessions && Of(st.sessions[s], o) && st.sessions[s].active
  }

  /** A refused check ends the request, so a step is there only when it passes. */
  predicate Can(st: State, step: Step)
  {
    match step
    case Grant(owner) => true
    case CheckUser(request, user, device, session) => request !in st.creating && On(st, User(user))
    case CheckDevice(request) =>
      request in st.creating && st.creating[request].deviceAt.None? && On(st, Device(st.creating[request].device))
    case Insert(request) =>
      request in st.creating && st.creating[request].deviceAt.Some? && st.creating[request].session !in st.sessions
    case Abandon(request) => true
    case Mark(call, owner) => call !in st.calls && owner in st.access
    case Select(call) => call in st.calls && st.calls[call].stage.Marked?
    case RevokeNext(call, session) =>
      call in st.calls && st.calls[call].stage.Revoking? && session in st.calls[call].stage.todo
    case Finish(call) => call in st.calls && st.calls[call].stage.Revoking? && st.calls[call].stage.todo == {}
    case Fail(call) => call in st.calls && !st.calls[call].stage.Done?
    case End(session) => true
  }

  function Ended(sessions: map<Id, Entry>, s: Id): (sessions': map<Id, Entry>)
  {
    if s in sessions then sessions[s := sessions[s].(active := false)] else sessions
  }

  function Written(st: State, c: Creating): (sessions: map<Id, Entry>)
    requires c.deviceAt.Some?
  {
    st.sessions[c.session := Entry(c.user, c.device, c.userAt, c.deviceAt.value, st.clock, true)]
  }

  function Revoked(st: State, call: Id, s: Id): (st': State)
    requires call in st.calls && st.calls[call].stage.Revoking?
  {
    var stage := st.calls[call].stage;
    st.(sessions := Ended(st.sessions, s),
        calls := st.calls[call := st.calls[call].(stage := Revoking(stage.todo - {s}, stage.selected))])
  }

  function Effect(st: State, step: Step): (st': State)
    requires Can(st, step)
  {
    match step
    case Grant(owner) => st.(access := st.access[owner := Access(true, st.clock)])
    case CheckUser(request, user, device, session) =>
      st.(creating := st.creating[request := Creating(user, device, session, st.clock, None)])
    case CheckDevice(request) =>
      st.(creating := st.creating[request := st.creating[request].(deviceAt := Some(st.clock))])
    case Insert(request) => st.(sessions := Written(st, st.creating[request]), creating := st.creating - {request})
    case Abandon(request) => st.(creating := st.creating - {request})
    case Mark(call, owner) =>
      st.(access := st.access[owner := st.access[owner].(on := false)],
          calls := st.calls[call := Call(owner, st.clock, Marked)])
    case Select(call) =>
      st.(calls := st.calls[call := st.calls[call].(stage := Revoking(ActiveOf(st, st.calls[call].owner), st.clock))])
    case RevokeNext(call, session) => Revoked(st, call, session)
    case Finish(call) =>
      st.(calls := st.calls[call := st.calls[call].(stage := Done(st.calls[call].stage.selected))])
    case Fail(call) => st.(calls := st.calls[call := st.calls[call].(stage := Failed)])
    case End(session) => st.(sessions := Ended(st.sessions, session))
  }

  function Next(st: State, step: Step): (st': State)
    requires Can(st, step)
  {
    Effect(st, step).(clock := st.clock + 1)
  }

  predicate Runs(st: State, steps: seq<Step>)
    decreases |steps|
  {
    steps == [] || (Can(st, steps[0]) && Runs(Next(st, steps[0]), steps[1..]))
  }

  function After(st: State, steps: seq<Step>): (st': State)
    requires Runs(st, steps)
    decreases |steps|
  {
    if steps == [] then st else After(Next(st, steps[0]), steps[1..])
  }

  // ---- What every statement keeps ----

  /** The mark came after the owner's access was last granted. */
  predicate Standing(st: State, call: Call)
  {
    call.owner in st.access && st.access[call.owner].since <= call.marked
  }

  predicate MarkedOff(st: State, o: Owner)
  {
    exists t :: t in st.calls && st.calls[t].owner == o && Standing(st, st.calls[t])
  }

  /** Access is off exactly while a mark stands. */
  predicate OffByMarks(st: State)
  {
    && (forall t | t in st.calls :: st.calls[t].owner in st.access && st.calls[t].marked < st.clock)
    && (forall o | o in st.access :: st.access[o].since < st.clock)
    && (forall t | t in st.calls && Standing(st, st.calls[t]) :: !st.access[st.calls[t].owner].on)
    && (forall o | o in st.access && !st.access[o].on :: MarkedOff(st, o))
  }

  /** A check that passed came before every mark that stands. */
  predicate Before(st: State, o: Owner, at: nat)
  {
    at < st.clock && forall t | t in st.calls && st.calls[t].owner == o && Standing(st, st.calls[t]) :: at < st.calls[t].marked
  }

  predicate CreatingChecked(st: State)
  {
    forall r | r in st.creating ::
      var c := st.creating[r];
      Before(st, User(c.user), c.userAt) && (c.deviceAt.Some? ==> Before(st, Device(c.device), c.deviceAt.value))
  }

  predicate SessionsChecked(st: State)
  {
    forall s | s in st.sessions ::
      var e := st.sessions[s];
      Before(st, User(e.user), e.userAt) && Before(st, Device(e.device), e.deviceAt)
  }

  /** An active session of the owner is either still to be revoked by the call, or
      was written after the call selected. */
  predicate Reached(call: Call, s: Id, e: Entry)
  {
    Of(e, call.owner) && e.active ==>
      match call.stage
      case Revoking(todo, selected) => s in todo || selected < e.made
      case Done(selected) => selected < e.made
      case _ => true
  }

  predicate AllReached(st: State)
  {
    && (forall t | t in st.calls :: match st.calls[t].stage
                                    case Revoking(_, selected) => selected < st.clock
                                    case Done(selected) => selected < st.clock
                                    case _ => true)
    && forall t, s | t in st.calls && s in st.sessions :: Reached(st.calls[t], s, st.sessions[s])
  }

  predicate Inv(st: State)
  {
    OffByMarks(st) && CreatingChecked(st) && SessionsChecked(st) && AllReached(st)
  }

  lemma MarksKept(st: State, step: Step)
    requires OffByMarks(st) && Can(st, step)
    ensures var st' := Next(st, step);
            && (forall t | t in st'.calls :: st'.calls[t].owner in st'.access && st'.calls[t].marked < st'.clock)
            && (forall o | o in st'.access :: st'.access[o].since < st'.clock)
            && (forall t | t in st'.calls && Standing(st', st'.calls[t]) :: !st'.access[st'.calls[t].owner].on)
  {
  }

  lemma OffKept(st: State, step: Step, o: Owner)
    requires OffByMarks(st) && Can(st, step)
    requires o in Next(st, step).access && !Next(st, step).access[o].on
    ensures MarkedOff(Next(st, step), o)
  {
    var st' := Next(st, step);
    if step.Mark? && step.owner == o {
      assert st'.calls[step.call].owner == o && Standing(st', st'.calls[step.call]);
    } else {
      var t :| t in st.calls && st.calls[t].owner == o && Standing(st, st.calls[t]);
      assert t in st'.calls && st'.calls[t].owner == o && Standing(st', st'.calls[t]);
    }
  }

  lemma OffByMarksKept(st: State, step: Step)
    requires OffByMarks(st) && Can(st, step)
    ensures OffByMarks(Next(st, step))
  {
    MarksKept(st, step);
    forall o | o in Next(st, step).access && !Next(st, step).access[o].on ensures MarkedOff(Next(st, step), o) {
      OffKept(st, step, o);
    }
  }

  /** An earlier check stays before the marks, and a check that passes now too. */
  lemma BeforeKept(st: State, step: Step, o: Owner, at: nat)
    requires OffByMarks(st) && Can(st, step)
    requires Before(st, o, at) || (On(st, o) && at == st.clock && !step.Mark?)
    ensures Before(Next(st, step), o, at)
  {
    var st' := Next(st, step);
    forall t | t in st'.calls && st'.calls[t].owner == o && Standing(st', st'.calls[t]) ensures at < st'.calls[t].marked {
      if t in st.calls {
        assert st'.calls[t].marked == st.calls[t].marked && st'.calls[t].owner == st.calls[t].owner;
        assert Standing(st, st.calls[t]);
      }
    }
  }

  lemma CreatingKept(st: State, step: Step)
    requires OffByMarks(st) && CreatingChecked(st) && Can(st, step)
    ensures CreatingChecked(Next(st, step))
  {
    var st' := Next(st, step);
    forall r | r in st'.creating
      ensures var c := st'.creating[r];
              Before(st', User(c.user), c.userAt) && (c.deviceAt.Some? ==> Before(st', Device(c.device), c.deviceAt.value))
    {
      var c := st'.creating[r];
      BeforeKept(st, step, User(c.user), c.userAt);
      if c.deviceAt.Some? {
        BeforeKept(st, step, Device(c.device), c.deviceAt.value);
      }
    }
  }

  lemma SessionsKept(st: State, step: Step)
    requires OffByMarks(st) && CreatingChecked(st) && SessionsChecked(st) && Can(st, step)
    ensures SessionsChecked(Next(st, step))
  {
    var st' := Next(st, step);
    forall s | s in st'.sessions
      ensures var e := st'.sessions[s]; Before(st', User(e.user), e.userAt) && Before(st', Device(e.device), e.deviceAt)
    {
      var e := st'.sessions[s];
      assert Before(st, User(e.user), e.userAt) && Before(st, Device(e.device), e.deviceAt) by {
        if s in st.sessions {
          assert e.userAt == st.sessions[s].userAt;
        } else {
          assert step.request in st.creating;
        }
      }
      BeforeKept(st, step, User(e.user), e.userAt);
      BeforeKept(st, step, Device(e.device), e.deviceAt);
    }
  }

  lemma ReachedKept(st: State, step: Step)
    requires AllReached(st) && Can(st, step)
    ensures AllReached(Next(st, step))
  {
    var st' := Next(st, step);
    forall t, s | t in st'.calls && s in st'.sessions ensures Reached(st'.calls[t], s, st'.sessions[s]) {
      if t in st.calls && s in st.sessions {
        assert Reached(st.calls[t], s, st.sessions[s]);
      }
    }
  }

  lemma StepKeeps(st: State, step: Step)
    requires Inv(st) && Can(st, step)
    ensures Inv(Next(st, step))
  {
    OffByMarksKept(st, step);
    CreatingKept(st, step);
    SessionsKept(st, step);
    ReachedKept(st, step);
  }

  lemma {:induction false} InvKept(st: State, steps: seq<Step>)
    requires Inv(st) && Runs(st, steps)
    ensures Inv(After(st, steps))
    decreases |steps|
  {
    if steps != [] {
      StepKeeps(st, steps[0]);
      InvKept(Next(st, steps[0]), steps[1..]);
    }
  }

  // ---- When a session outlives its owner's access ----

  /** Every mark on the owner that stands has been carried through. */
  predicate Settled(st: State, o: Owner)
  {
    forall t | t in st.calls && st.calls[t].owner == o && Standing(st, st.calls[t]) :: st.calls[t].stage.Done?
  }

  /** The owner was checked before the mark, and the row written after the selection. */
  predicate Straddles(st: State, e: Entry, o: Owner, call: Call)
  {
    && call.owner == o && Standing(st, call) && call.stage.Done?
    && CheckedAt(e, o) < call.marked && call.stage.selected < e.made
  }

  /** In every interleaving of creations, deactivations, failures and new grants,
      once the deactivations of an owner are through, an active session of that
      owner is there without access exactly when its creation straddled one of them,
      from its mark to its selection. */
  lemma OutlivesExactly(steps: seq<Step>, s: Id, o: Owner)
    requires Runs(EMPTY, steps)
    requires var st := After(EMPTY, steps);
             s in st.sessions && Of(st.sessions[s], o) && st.sessions[s].active && o in st.access && Settled(st, o)
    ensures var st := After(EMPTY, steps);
            !On(st, o) <==> exists t :: t in st.calls && Straddles(st, st.sessions[s], o, st.calls[t])
  {
    InvKept(EMPTY, steps);
    OutlivesAt(After(EMPTY, steps), s, o);
  }

  lemma OutlivesAt(st: State, s: Id, o: Owner)
    requires Inv(st) && s in st.sessions && Of(st.sessions[s], o) && st.sessions[s].active && o in st.access && Settled(st, o)
    ensures !On(st, o) <==> exists t :: t in st.calls && Straddles(st, st.sessions[s], o, st.calls[t])
  {
    if !On(st, o) {
      var t :| t in st.calls && st.calls[t].owner == o && Standing(st, st.calls[t]);
      assert Reached(st.calls[t], s, st.sessions[s]);
      assert Straddles(st, st.sessions[s], o, st.calls[t]);
    }
  }

  lemma FirstStep(st: State, step: Step, rest: seq<Step>)
    requires Can(st, step) && Runs(Next(st, step), rest)
    ensures Runs(st, [step] + rest) && After(st, [step] + rest) == After(Next(st, step), rest)
  {
    assert ([step] + rest)[1..] == rest;
  }

  /** The user is switched off between the check and the insert. */
  function Interleaving(call: Id, user: Id, request: Id): (steps: seq<Step>)
  {
    [Mark(call, User(user))] + ([Select(call)] + ([Finish(call)] + ([Insert(request)] + [])))
  }

  /** A creation past its checks, for a user whose sessions are all ended, outlives
      that user's deactivation when its row is written after the selection. */
  lemma OutlivesInDeed(st: State, request: Id, call: Id)
    requires Inv(st) && request in st.creating && st.creating[request].deviceAt.Some? && call !in st.calls
    requires var c := st.creating[request];
             c.session !in st.sessions && User(c.user) in st.access && ActiveOf(st, User(c.user)) == {} && Settled(st, User(c.user))
    ensures var c := st.creating[request];
            var steps := Interleaving(call, c.user, request);
            && Runs(st, steps)
            && var end := After(st, steps);
               && c.session in end.sessions && end.sessions[c.session].active && end.sessions[c.session].user == c.user
               && !On(end, User(c.user)) && Settled(end, User(c.user))
  {
    var c := st.creating[request];
    var o := User(c.user);
    var st1 := Next(st, Mark(call, o));
    var st2 := Next(st1, Select(call));
    assert ActiveOf(st1, o) == {};
    var st3 := Next(st2, Finish(call));
    var st4 := Next(st3, Insert(request));
    FirstStep(st3, Insert(request), []);
    FirstStep(st2, Finish(call), [Insert(request)] + []);
    FirstStep(st1, Select(call), [Finish(call)] + ([Insert(request)] + []));
    FirstStep(st, Mark(call, o), [Select(call)] + ([Finish(call)] + ([Insert(request)] + [])));
    forall t | t in st4.calls && st4.calls[t].owner == o && Standing(st4, st4.calls[t]) ensures st4.calls[t].stage.Done? {
      if t != call {
        assert Standing(st, st.calls[t]);
      }
    }
  }

  function Prelude(user: Id, device: Id, request: Id, session: Id): (steps: seq<Step>)
  {
    [Grant(User(user))] + ([Grant(Device(device))] + ([CheckUser(request, user, device, session)] + ([CheckDevice(request)] + [])))
  }

  /** Any user and device come to such a point. */
  lemma PastChecks(user: Id, device: Id, request: Id, session: Id)
    ensures Runs(EMPTY, Prelude(user, device, request, session))
    ensures var st := After(EMPTY, Prelude(user, device, request, session));
            && st.calls == map[] && st.sessions == map[] && User(user) in st.access
            && request in st.creating && st.creating[request] == Creating(user, device, session, 2, Some(3))
  {
    var grant, check := Grant(Device(device)), CheckUser(request, user, device, session);
    var st1 := Next(EMPTY, Grant(User(user)));
    var st2 := Next(st1, grant);
    var st3 := Next(st2, check);
    FirstStep(st3, CheckDevice(request), []);
    FirstStep(st2, check, [CheckDevice(request)] + []);
    FirstStep(st1, grant, [check] + ([CheckDevice(request)] + []));
    FirstStep(EMPTY, Grant(User(user)), [grant] + ([check] + ([CheckDevice(request)] + [])));
  }
}
