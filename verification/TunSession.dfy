/** TUN sessions (native/tun.go): callbacks into the host guarded by a weighted semaphore, against startTun and
    stopTun, which run under one lock. Sessions are numbered in the order in which startTun creates them. */
module TunSession {
  import opened Options

  const PERMITS := 4

  /** One remoteTun: its semaphore, the callbacks that hold a permit, and the host object they call. */
  datatype Session = Session(
    free: nat,       // permits left
    entered: nat,    // callbacks that acquired a permit and have not looked at `closed`
    inside: nat,     // callbacks inside the host function
    leaving: nat,    // callbacks about to give their permit back
    closed: bool,
    running: bool,   // the TUN device of tun.Start runs
    released: nat)   // release_object calls on the callback object

  const FRESH := Session(PERMITS, 0, 0, 0, false, false, 0)

  /** What the lock holder does once the session is closed. */
  datatype After = ThenStart | ThenStop | ThenFail

  /** Where remoteTun.close stands. */
  datatype ClosePhase = Acquiring | Acquired | Marked | DeviceClosed | Cleared | ObjectReleased

  /** The holder of rTunLock. */
  datatype Operation =
    | Free
    | Closing(session: nat, phase: ClosePhase, after: After)
    | Starting                  // no session left, the new one not yet made
    | Installed(session: nat)   // the new session's callbacks are installed, tun.Start runs

  datatype State = State(
    sessions: seq<Session>,
    context: Option<nat>,   // whose callbacks the application calls
    current: Option<nat>,   // rTun
    op: Operation)

  function Boot(): State {
    State([], None, None, Free)
  }

  datatype Action =
    // callbacks; a caller may still hold the callbacks of a session that is no longer installed
    | Enter(session: nat)
    | Check(session: nat)
    | Return(session: nat)
    | Exit(session: nat)
    // startTun and stopTun
    | LockStart
    | LockStop
    | CloseStep
    | Create
    | StartResult(ok: bool)

  function With(s: State, i: nat, t: Session): State
    requires i < |s.sessions|
  {
    s.(sessions := s.sessions[i := t])
  }

  function DoCallback(s: State, a: Action): State
    requires (a.Enter? || a.Check? || a.Return? || a.Exit?) && a.session < |s.sessions|
  {
    var i, t := a.session, s.sessions[a.session];
    match a
    case Enter(_) => if t.free > 0 then With(s, i, t.(free := t.free - 1, entered := t.entered + 1)) else s
    case Check(_) =>
      if t.entered == 0 then s
      else if t.closed then With(s, i, t.(entered := t.entered - 1, leaving := t.leaving + 1))
      else With(s, i, t.(entered := t.entered - 1, inside := t.inside + 1))
    case Return(_) => if t.inside > 0 then With(s, i, t.(inside := t.inside - 1, leaving := t.leaving + 1)) else s
    case Exit(_) => if t.leaving > 0 then With(s, i, t.(leaving := t.leaving - 1, free := t.free + 1)) else s
  }

  /** One step of remoteTun.close; the first waits for all permits. */
  function DoClose(s: State): State
    requires s.op.Closing? && s.op.session < |s.sessions|
  {
    var i, t := s.op.session, s.sessions[s.op.session];
    match s.op.phase
    case Acquiring =>
      if t.free < PERMITS then s else With(s, i, t.(free := t.free - PERMITS)).(op := s.op.(phase := Acquired))
    case Acquired => With(s, i, t.(closed := true)).(op := s.op.(phase := Marked))
    case Marked => With(s, i, t.(running := false)).(op := s.op.(phase := DeviceClosed))
    case DeviceClosed => s.(context := None, op := s.op.(phase := Cleared))
    case Cleared => With(s, i, t.(released := t.released + 1)).(op := s.op.(phase := ObjectReleased))
    case ObjectReleased => With(s, i, t.(free := t.free + PERMITS)).(
      current := if s.op.after.ThenFail? then s.current else None,
      op := if s.op.after.ThenStart? then Starting else Free)
  }

  /** tun.Start succeeded. */
  function Started(s: State, i: nat): State {
    var r := s.(current := Some(i), op := Free);
    if i < |s.sessions| then With(r, i, s.sessions[i].(running := true)) else r
  }

  function Exec(s: State, a: Action): State {
    match a
    case LockStart =>
      if !s.op.Free? then s
      else s.(op := if s.current.Some? then Closing(s.current.value, Acquiring, ThenStart) else Starting)
    case LockStop =>
      if s.op.Free? && s.current.Some? then s.(op := Closing(s.current.value, Acquiring, ThenStop)) else s
    case CloseStep => if s.op.Closing? && s.op.session < |s.sessions| then DoClose(s) else s
    case Create =>
      if s.op.Starting? then
        var i := |s.sessions|;
        s.(sessions := s.sessions + [FRESH], context := Some(i), op := Installed(i))
      else s
    case StartResult(ok) =>
      if !s.op.Installed? then s
      else if ok then Started(s, s.op.session)
      else s.(op := Closing(s.op.session, Acquiring, ThenFail))
    case _ => if a.session < |s.sessions| then DoCallback(s, a) else s
  }

  ghost function Run(s: State, actions: seq<Action>): State
    decreases |actions|
  {
    if actions == [] then s else Run(Exec(s, actions[0]), actions[1..])
  }

  ghost predicate Reachable(s: State) {
    exists actions :: s == Run(Boot(), actions)
  }

  // ----- invariants -----

  ghost predicate IsClosing(op: Operation, i: nat) {
    op.Closing? && op.session == i
  }

  predicate PastDevice(p: ClosePhase) {
    p.DeviceClosed? || p.Cleared? || p.ObjectReleased?
  }

  /** The permits that a close of session `i` holds. */
  ghost function HeldByClose(op: Operation, i: nat): nat {
    if IsClosing(op, i) && !op.phase.Acquiring? then PERMITS else 0
  }

  /** The one session that is not over: current, being installed, or being closed. */
  ghost function Active(s: State): Option<nat> {
    match s.op
    case Free => s.current
    case Closing(i, _, _) => Some(i)
    case Starting => None
    case Installed(i) => Some(i)
  }

  ghost predicate SessionGood(s: State, i: nat)
    requires i < |s.sessions|
  {
    var t := s.sessions[i];
    && t.free + t.entered + t.inside + t.leaving + HeldByClose(s.op, i) == PERMITS
    && (t.inside > 0 ==> !t.closed)
    && (t.running <==> s.current == Some(i) && !(IsClosing(s.op, i) && PastDevice(s.op.phase)))
    && (if Active(s) != Some(i) then t.closed && t.released == 1
        else if !s.op.Closing? then !t.closed && t.released == 0
        else
          && (t.closed <==> !s.op.phase.Acquiring? && !s.op.phase.Acquired?)
          && t.released == if s.op.phase.ObjectReleased? then 1 else 0)
  }

  ghost predicate OpGood(s: State) {
    && (Active(s).Some? ==> Active(s).value + 1 == |s.sessions|)
    && (s.op.Closing? ==> s.current == if s.op.after.ThenFail? then None else Some(s.op.session))
    && (s.op.Starting? || s.op.Installed? ==> s.current.None?)
    && s.context == (if s.op.Closing? && (s.op.phase.Cleared? || s.op.phase.ObjectReleased?) then None else Active(s))
  }

  ghost predicate Inv(s: State) {
    OpGood(s) && forall i: nat | i < |s.sessions| :: SessionGood(s, i)
  }

  lemma CallbackKeeps(s: State, a: Action)
    requires Inv(s) && (a.Enter? || a.Check? || a.Return? || a.Exit?) && a.session < |s.sessions|
    ensures Inv(DoCallback(s, a))
  {
    var r := DoCallback(s, a);
    forall i: nat | i < |r.sessions| ensures SessionGood(r, i) {
      assert SessionGood(s, i);
    }
  }

  lemma CloseKeeps(s: State)
    requires Inv(s) && s.op.Closing? && s.op.session < |s.sessions|
    ensures Inv(DoClose(s))
  {
    var r := DoClose(s);
    forall i: nat | i < |r.sessions| ensures SessionGood(r, i) {
      assert SessionGood(s, i);
    }
  }

  lemma InvKept(s: State, a: Action)
    requires Inv(s)
    ensures Inv(Exec(s, a))
  {
    if a.Enter? || a.Check? || a.Return? || a.Exit? {
      if a.session < |s.sessions| { CallbackKeeps(s, a); }
    } else if a.CloseStep? {
      if s.op.Closing? && s.op.session < |s.sessions| { CloseKeeps(s); }
    } else {
      var r := Exec(s, a);
      forall i: nat | i < |r.sessions| ensures SessionGood(r, i) {
        assert i < |s.sessions| ==> SessionGood(s, i);
      }
    }
  }

  lemma {:induction false} RunKeeps(s: State, actions: seq<Action>)
    requires Inv(s)
    ensures Inv(Run(s, actions))
    decreases |actions|
  {
    if actions != [] {
      InvKept(s, actions[0]);
      RunKeeps(Exec(s, actions[0]), actions[1..]);
    }
  }

  lemma ReachableInv(s: State)
    requires Reachable(s)
    ensures Inv(s)
  {
    var actions :| s == Run(Boot(), actions);
    RunKeeps(Boot(), actions);
  }

  // ----- what holds in every run -----

  /** Permits are neither lost nor made. */
  lemma PermitsConserved(s: State, i: nat)
    requires Reachable(s) && i < |s.sessions|
    ensures var t := s.sessions[i]; t.free + t.entered + t.inside + t.leaving + HeldByClose(s.op, i) == PERMITS
  {
    ReachableInv(s);
    assert SessionGood(s, i);
  }

  /** No callback is inside the host function once its object is released, nor while a close holds the permits. */
  lemma NoUseAfterRelease(s: State, i: nat)
    requires Reachable(s) && i < |s.sessions| && s.sessions[i].inside > 0
    ensures s.sessions[i].released == 0 && !s.sessions[i].closed && HeldByClose(s.op, i) == 0
  {
    ReachableInv(s);
    assert SessionGood(s, i);
  }

  /** Every callback object is released at most once; when nobody holds the lock, exactly those of the sessions
      before the current one have been. */
  lemma ReleasedOnce(s: State, i: nat)
    requires Reachable(s) && i < |s.sessions|
    ensures s.sessions[i].released <= 1
    ensures s.op.Free? ==> s.sessions[i].released == if s.current == Some(i) then 0 else 1
  {
    ReachableInv(s);
    assert SessionGood(s, i);
  }

  /** Closing a session never clears the callbacks of a newer one: whoever's callbacks go, it is the session
      being closed, and it is the newest. */
  lemma CloseClearsOwnContext(s: State, a: Action)
    requires Reachable(s) && s.context.Some? && Exec(s, a).context != s.context
    ensures IsClosing(s.op, s.context.value) && s.context.value + 1 == |s.sessions|
    ensures Exec(s, a).context.None? && s.sessions[s.context.value].closed
  {
    ReachableInv(s);
    assert s.op.Closing? ==> SessionGood(s, s.op.session);
  }

  /** When nobody holds the lock, the TUN device of the current session runs, and no other. */
  lemma OnlyCurrentRuns(s: State, i: nat)
    requires Reachable(s) && s.op.Free? && i < |s.sessions|
    ensures s.sessions[i].running <==> s.current == Some(i)
  {
    ReachableInv(s);
    assert SessionGood(s, i);
  }

  /** stopTun and startTun both begin by closing the current session, if there is one; startTun then makes a new
      session whose callbacks are installed, and which becomes current exactly if the device starts. */
  lemma StopAndStart(s: State, ok: bool)
    requires Reachable(s)
    ensures s.op.Free? && s.current.Some? ==> Exec(s, LockStop).op == Closing(s.current.value, Acquiring, ThenStop)
    ensures s.op.Free? && s.current.Some? ==> Exec(s, LockStart).op == Closing(s.current.value, Acquiring, ThenStart)
    ensures s.op.Free? && s.current.None? ==> Exec(s, LockStop) == s && Exec(s, LockStart).op.Starting?
    ensures s.op.Starting? ==> Exec(s, Create).context == Some(|s.sessions|) && Exec(s, Create).op.Installed?
    ensures s.op.Installed? ==>
      var r := Exec(s, StartResult(ok));
      && s.op.session + 1 == |s.sessions|
      && if ok then r.op.Free? && r.current == Some(s.op.session)
         else r.current.None? && r.op == Closing(s.op.session, Acquiring, ThenFail)
  {
    ReachableInv(s);
  }

  ghost function CloseSteps(s: State, n: nat): State
    decreases n
  {
    if n == 0 || !s.op.Closing? then s else CloseSteps(Exec(s, CloseStep), n - 1)
  }

  function StepsLeft(p: ClosePhase): nat {
    match p
    case Acquiring => 6
    case Acquired => 5
    case Marked => 4
    case DeviceClosed => 3
    case Cleared => 2
    case ObjectReleased => 1
  }

  /** Once no callback holds a permit, a close runs to its end: the session is closed, its device stopped, its object
      released, its permits given back, and there is no current session and no callback installed. */
  lemma {:induction false} CloseCompletes(s: State)
    requires Reachable(s) && s.op.Closing? && s.op.session < |s.sessions|
    requires s.op.phase.Acquiring? ==> s.sessions[s.op.session].free == PERMITS
    ensures var i, r := s.op.session, CloseSteps(s, StepsLeft(s.op.phase));
      && |r.sessions| == |s.sessions| && r.sessions[i].closed && !r.sessions[i].running
      && r.sessions[i].released == 1 && r.current.None? && r.context.None?
      && (if s.op.after.ThenStart? then r.op.Starting? else r.op.Free?)
    decreases StepsLeft(s.op.phase)
  {
    var next := Exec(s, CloseStep);
    ReachableInv(s);
    ReachableStep(s, CloseStep);
    ReachableInv(next);
    assert SessionGood(s, s.op.session) && SessionGood(next, s.op.session);
    if !s.op.phase.ObjectReleased? {
      CloseCompletes(next);
    }
  }

  /** When nobody holds the lock, the installed callbacks are those of the current session, which is open and the
      newest. */
  lemma ContextIsCurrent(s: State)
    requires Reachable(s) && s.op.Free?
    ensures s.context == s.current
    ensures s.current.Some? ==> s.current.value + 1 == |s.sessions| && !s.sessions[s.current.value].closed
  {
    ReachableInv(s);
    assert s.current.Some? ==> SessionGood(s, s.current.value);
  }

  /** A closed session stays closed, so a late caller never reaches the host again. */
  lemma {:induction false} ClosedStaysClosed(s: State, actions: seq<Action>, i: nat)
    requires Reachable(s) && i < |s.sessions| && s.sessions[i].closed
    ensures var r := Run(s, actions); i < |r.sessions| && r.sessions[i].closed && r.sessions[i].inside == 0
    decreases |actions|
  {
    if actions == [] {
      ReachableInv(s);
      assert SessionGood(s, i);
    } else {
      ReachableStep(s, actions[0]);
      ClosedStaysClosed(Exec(s, actions[0]), actions[1..], i);
    }
  }

  lemma {:induction false} RunAppend(s: State, actions: seq<Action>, a: Action)
    ensures Run(s, actions + [a]) == Exec(Run(s, actions), a)
    decreases |actions|
  {
    if actions == [] {
      assert [a][1..] == [];
    } else {
      assert (actions + [a])[1..] == actions[1..] + [a];
      RunAppend(Exec(s, actions[0]), actions[1..], a);
    }
  }

  lemma ReachableStep(s: State, a: Action)
    requires Reachable(s)
    ensures Reachable(Exec(s, a))
  {
    var actions :| s == Run(Boot(), actions);
    RunAppend(Boot(), actions, a);
  }
}
